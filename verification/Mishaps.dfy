/** Runs in which something goes wrong: without any fault, a DbPod that is created again with its old Secret still
    there, and a second CoreExt of the same name; with one, a DbPod that stays without its init-db. */
module Mishaps {
  import opened Names
  import opened ApiServer
  import InitSql
  import opened Machine
  import opened History
  import opened Protocol
  import opened ProtocolProofs
  import opened Confluence
  import opened Progress
  import opened Fairness
  import opened Solitude
  import opened Convergence
  import opened Passes
  import opened Deletion
  import opened Credentials

  // ---------------------------------------------------------------- what users and the collector do

  /** Users touch only this object and volume claims. */
  ghost predicate HandsOff(acts: seq<Action>, key: Key) {
    forall a :: a in acts && (a.UserCreate? || a.UserDelete? || a.UserEdit?) ==>
      a.key == key || a.key.kind == PersistentVolumeClaim
  }

  lemma {:induction false} SoloHandsOff(s: State, acts: seq<Action>, key: Key)
    requires s.log != [] && Solo(s, acts, key)
    ensures HandsOff(acts, key)
  {
    hide Step;
    if acts != [] {
      SoloHandsOff(s, acts[..|acts| - 1], key);
      assert forall a :: a in acts ==> a in acts[..|acts| - 1] || a == acts[|acts| - 1];
    }
  }

  lemma HandsOffLeaves(acts: seq<Action>, db: Key, p: Part)
    requires HandsOff(acts, db) && db.kind == DbPod == ParentKind(p)
    ensures Undisturbed(acts, ChildKey(db, p))
  {
    hide Suffix;
  }

  /** The run so far, continued. */
  lemma Continue(h: seq<Action>, more: seq<Action>, key: Key)
    requires HandsOff(h, key) && HandsOff(more, key)
    ensures HandsOff(h + more, key) && Run(EMPTY, h + more) == Run(Run(EMPTY, h), more)
    ensures Inv(Run(EMPTY, h + more))
  {
    RunAppend(EMPTY, h, more);
    EmptyInv();
    RunInv(EMPTY, h + more);
  }

  lemma OneStep(s: State, a: Action)
    requires s.log != []
    ensures Run(s, [a]) == Step(s, a)
  {
    assert [a][..0] == [] && Run(s, [a][..0]) == s;
  }

  lemma Creates(s: State, k: Key, fins: seq<string>, body: Body)
    requires s.log != [] && k.name != "" && Fits(k.kind, body)
    ensures var s' := Step(s, UserCreate(k, fins, body));
            && k in Live(s'.log) && s'.running == s.running
            && (k in Live(s.log) ==> s'.log == s.log)
            && (k !in Live(s.log) ==>
                  s'.log == s.log + [Live(s.log)[k := Obj(|s.log|, |s.log|, None, fins, false, body, NO_STATUS, None)]])
  {
  }

  lemma Marks(s: State, k: Key)
    requires s.log != [] && k in Live(s.log) && Live(s.log)[k].finalizers != [] && !Live(s.log)[k].deleting
    ensures var s' := Step(s, UserDelete(k));
            && s'.running == s.running
            && Live(s'.log) == Live(s.log)[k := Live(s.log)[k].(deleting := true, rv := |s.log|)]
  {
  }

  lemma Collects(s: State, k: Key)
    requires s.log != [] && Orphan(Live(s.log), k) && Live(s.log)[k].finalizers == []
    ensures var s' := Step(s, Collect(k)); s'.running == s.running && Live(s'.log) == Live(s.log) - {k}
  {
  }

  // ---------------------------------------------------------------- the DbPod that is created again

  /** A generated object of this incarnation, which the collector can remove. */
  predicate PlainPart(st: Store, db: Key, p: Part, uid: nat) {
    ChildKey(db, p) in st && st[ChildKey(db, p)].finalizers == [] && st[ChildKey(db, p)].owner == Some(Ref(db, uid))
  }

  predicate HasSecret(st: Store, db: Key, uid: nat, gen: Gen) {
    PlainPart(st, db, SecretPart, uid)
    && st[ChildKey(db, SecretPart)].body == Credentials(gen.passwordRoot, db.name, gen.password)
  }

  predicate HasInit(st: Store, db: Key, uid: nat, password: string) {
    PlainPart(st, db, InitDbPart, uid)
    && st[ChildKey(db, InitDbPart)].body == InitScript(InitSql.Render(db.name, password))
  }

  /** The DbPod lives, with its Secret, and no reconcile is under way. */
  ghost predicate Living(s: State, db: Key, uid: nat, gen: Gen) {
    && Inv(s) && Idle(s, db) && s.running == map[] && db.kind == DbPod && db.name != "" && uid < |s.log|
    && Live(s.log)[db].uid == uid && Live(s.log)[db].finalizers == [Finalizer(DbPod)]
    && HasSecret(Live(s.log), db, uid, gen)
  }

  lemma SameSecret(a: Store, b: Store, db: Key, uid: nat, gen: Gen)
    requires HasSecret(a, db, uid, gen) && db.kind == DbPod && Steady(a, b, db, ChildKey(db, SecretPart))
    ensures HasSecret(b, db, uid, gen)
  {
    RankDescends(SecretPart);
  }

  lemma SameInit(a: Store, b: Store, db: Key, uid: nat, password: string)
    requires HasInit(a, db, uid, password) && db.kind == DbPod && Steady(a, b, db, ChildKey(db, InitDbPart))
    ensures HasInit(b, db, uid, password)
  {
    RankDescends(InitDbPart);
  }

  /** The first life of the DbPod: created by a user, and reconciled twice. */
  lemma FirstLife(db: Key, gen: Gen) returns (h: seq<Action>)
    requires db.kind == DbPod && db.name != ""
    ensures HandsOff(h, db)
    ensures Living(Run(EMPTY, h), db, 1, gen) && Settled(Live(Run(EMPTY, h).log), db, {})
    ensures PlainPart(Live(Run(EMPTY, h).log), db, InitDbPart, 1)
  {
    hide Step, Run, Solo, Settled, Steady, MadePart, HandsOff, HasSecret, PlainPart, Inv;
    var create := UserCreate(db, [Finalizer(DbPod)], DbPodSpec(1, "mysql"));
    OneStep(EMPTY, create);
    Creates(EMPTY, db, create.finalizers, create.body);
    var s0 := Run(EMPTY, [create]);
    assert HandsOff([create], db) by { OwnHands(create, db); }
    var p1 := FullPass(s0, db, gen);
    SoloHandsOff(s0, p1, db);
    Continue([create], p1, db);
    var s1 := Run(s0, p1);
    var p2 := FullPass(s1, db, gen);
    SoloHandsOff(s1, p2, db);
    Continue([create] + p1, p2, db);
    h := [create] + p1 + p2;
    var s2 := Run(s1, p2);
    RunGrows(s0, p1);
    RunGrows(s1, p2);
    FirstSecret(Live(s0.log), Live(s1.log), db, gen);
    assert Steady(Live(s1.log), Live(s2.log), db, ChildKey(db, SecretPart));
    SameSecret(Live(s1.log), Live(s2.log), db, 1, gen);
    SameFinalizers(Live(s0.log), Live(s1.log), db);
    FirstInit(Live(s0.log), Live(s1.log), Live(s2.log), db, gen);
    SameFinalizers(Live(s1.log), Live(s2.log), db);
    AllSettled(Live(s1.log), Live(s2.log), db);
  }

  lemma OwnHands(a: Action, key: Key)
    requires a.key == key || a.key.kind == PersistentVolumeClaim || a.Collect?
    ensures HandsOff([a], key)
  {
  }

  lemma SameFinalizers(a: Store, b: Store, db: Key)
    requires db in a && Steady(a, b, db, db) && Finalizer(db.kind) in a[db].finalizers
    ensures db in b && b[db].finalizers == a[db].finalizers && b[db].uid == a[db].uid
  {
  }

  lemma AllSettled(a: Store, b: Store, db: Key)
    requires Settled(a, db, {InitDbPart}) && Settled(b, db, {InitDbPart}) && db.kind == DbPod
    requires ChildKey(db, InitDbPart) in b <==> !NoCredentials(a, db)
    ensures Settled(b, db, {})
  {
    hide Titled, Begun, Answers, ChildKey;
    assert ChildKey(db, SecretPart) in a;
  }

  /** A pass that finds no Secret makes one of its own incarnation. */
  lemma FirstSecret(a: Store, b: Store, db: Key, gen: Gen)
    requires db.kind == DbPod && db in a && ChildKey(db, SecretPart) !in a && Settled(b, db, {InitDbPart})
    requires MadePart(a, b, db, SecretPart, gen)
    ensures HasSecret(b, db, a[db].uid, gen)
  {
    hide Titled, Begun, Answers;
    assert ChildKey(db, SecretPart) in b;
  }

  lemma FirstInit(a: Store, b: Store, c: Store, db: Key, gen: Gen)
    requires db.kind == DbPod && db in a && db in b && a[db].uid == b[db].uid
    requires Settled(b, db, {InitDbPart}) && Settled(c, db, {InitDbPart})
    requires ChildKey(db, InitDbPart) !in a && MadePart(a, b, db, InitDbPart, gen)
    requires MadePart(b, c, db, InitDbPart, gen) && Steady(b, c, db, ChildKey(db, InitDbPart))
    requires ChildKey(db, InitDbPart) in c <==> !NoCredentials(b, db)
    ensures PlainPart(c, db, InitDbPart, a[db].uid)
  {
    hide Titled, Begun, Answers, Built;
    assert ChildKey(db, SecretPart) in b;
  }

  /** Nothing that was there has changed. */
  predicate Within(a: Store, b: Store) {
    forall k :: k in a ==> k in b && b[k] == a[k]
  }

  /** Users create these volume claims. */
  lemma {:induction false} CreateClaims(s: State, claims: seq<Key>, db: Key) returns (acts: seq<Action>)
    requires s.log != []
    requires forall k :: k in claims ==> k.kind == PersistentVolumeClaim && k.name != ""
    ensures HandsOff(acts, db) && Run(s, acts).running == s.running && Within(Live(s.log), Live(Run(s, acts).log))
    ensures forall k :: k in claims ==> k in Live(Run(s, acts).log)
    ensures |Run(s, acts).log| >= |s.log|
  {
    if claims == [] {
      acts := [];
    } else {
      hide Step, Run;
      var init, k := claims[..|claims| - 1], claims[|claims| - 1];
      assert forall x :: x in init ==> x in claims;
      var early := CreateClaims(s, init, db);
      var s1 := Run(s, early);
      Creates(s1, k, [], Other);
      OneStep(s1, UserCreate(k, [], Other));
      RunAppend(s, early, [UserCreate(k, [], Other)]);
      RunGrows(s1, [UserCreate(k, [], Other)]);
      acts := early + [UserCreate(k, [], Other)];
      assert forall x :: x in claims ==> x in init || x == k;
    }
  }

  function Claims(db: Key): seq<Key> {
    [DataClaim(db, "0"), DataClaim(db, "1"), DataClaim(db, "2"), ProxyClaim(db)]
  }

  /** A settled DbPod with its four claims has all that its delete branch looks up. */
  lemma SettledHasGates(st: Store, db: Key)
    requires db.kind == DbPod && (forall k :: k in Claims(db) ==> k in st)
    requires forall p :: ParentKind(p) == DbPod ==> ChildKey(db, p) in st
    ensures AllGates(st, db)
  {
    hide Gates, ChildKey, DataClaim, ProxyClaim;
    DbPodGates(db);
    assert Claims(db)[0] in Claims(db) && Claims(db)[1] in Claims(db) && Claims(db)[2] in Claims(db)
           && Claims(db)[3] in Claims(db);
  }

  /** The end of the first life: its claims are there, a user deletes it, and its delete branch lets it go. */
  lemma FirstDeath(s: State, db: Key, gen: Gen) returns (acts: seq<Action>)
    requires Living(s, db, 1, gen) && Settled(Live(s.log), db, {}) && PlainPart(Live(s.log), db, InitDbPart, 1)
    ensures HandsOff(acts, db)
    ensures var s' := Run(s, acts);
            && s'.log != [] && |s'.log| > 1 && s'.running == map[] && db !in Live(s'.log)
            && HasSecret(Live(s'.log), db, 1, gen) && PlainPart(Live(s'.log), db, InitDbPart, 1)
  {
    hide Step, Run, Solo, Gates, HandsOff, Inv, AllGates;
    ClaimNames(db);
    var claims := CreateClaims(s, Claims(db), db);
    var s1 := Run(s, claims);
    SettledHasGates(Live(s1.log), db);
    Marks(s1, db);
    OneStep(s1, UserDelete(db));
    var s2 := Run(s1, [UserDelete(db)]);
    StillGates(Live(s1.log), Live(s2.log), db);
    RunInv(s, claims);
    RunInv(s1, [UserDelete(db)]);
    RunGrows(s1, [UserDelete(db)]);
    var gone := DeletionFinishes(s2, db, 1);
    RunGrows(s2, gone);
    SoloHandsOff(s2, gone, db);
    RunAppend(s, claims, [UserDelete(db)]);
    RunAppend(s, claims + [UserDelete(db)], gone);
    acts := claims + [UserDelete(db)] + gone;
    OwnHands(UserDelete(db), db);
    JoinHands(claims, [UserDelete(db)], db);
    JoinHands(claims + [UserDelete(db)], gone, db);
    Remain(Live(s.log), Live(s1.log), Live(s2.log), Live(Run(s2, gone).log), db, gen);
  }

  lemma ClaimNames(db: Key)
    ensures forall k :: k in Claims(db) ==> k.kind == PersistentVolumeClaim && k.name != ""
  {
  }

  lemma JoinHands(a: seq<Action>, b: seq<Action>, key: Key)
    requires HandsOff(a, key) && HandsOff(b, key)
    ensures HandsOff(a + b, key)
  {
  }

  lemma StillGates(a: Store, b: Store, db: Key)
    requires AllGates(a, db) && db in a && b.Keys == a.Keys
    ensures AllGates(b, db)
  {
    hide Gates;
    forall g | g in Gates(db) ensures g in b {
      assert g in a.Keys;
    }
  }

  lemma Remain(a: Store, b: Store, c: Store, d: Store, db: Key, gen: Gen)
    requires HasSecret(a, db, 1, gen) && PlainPart(a, db, InitDbPart, 1) && Within(a, b) && db.kind == DbPod
    requires db in b && db in c && c == b[db := c[db]] && d - {db} == c - {db}
    ensures HasSecret(d, db, 1, gen) && PlainPart(d, db, InitDbPart, 1)
  {
    forall p | p == SecretPart || p == InitDbPart ensures ChildKey(db, p) in d && d[ChildKey(db, p)] == a[ChildKey(db, p)] {
      assert ChildKey(db, p) in c - {db};
      assert ChildKey(db, p) in d - {db};
      assert (d - {db})[ChildKey(db, p)] == (c - {db})[ChildKey(db, p)];
    }
  }

  /** The second life: init-db is collected at once and built from the old Secret; then that is collected too
      and a new one is made. */
  lemma SecondLife(s: State, db: Key, before: Gen, gen: Gen) returns (acts: seq<Action>)
    requires Inv(s) && s.log != [] && |s.log| > 1 && s.running == map[] && db !in Live(s.log)
    requires db.kind == DbPod && db.name != "" && HasSecret(Live(s.log), db, 1, before)
    requires PlainPart(Live(s.log), db, InitDbPart, 1)
    ensures HandsOff(acts, db)
    ensures var live := Live(Run(s, acts).log);
            && db in live && live[db].uid == |s.log|
            && HasInit(live, db, |s.log|, before.password) && HasSecret(live, db, |s.log|, gen)
  {
    hide Step, Run, Solo, Settled, Steady, MadePart, HandsOff, HasInit, HasSecret, Inv, NoCredentials;
    var first := Reborn(s, db, before);
    var s1 := Run(s, first);
    var p1 := FullPass(s1, db, gen);
    var s2 := Run(s1, p1);
    NewInit(Live(s1.log), Live(s2.log), db, before, gen);
    SameSecret(Live(s1.log), Live(s2.log), db, 1, before);
    SameFinalizers(Live(s1.log), Live(s2.log), db);
    var collect := Collect(ChildKey(db, SecretPart));
    OldSecretGoes(s2, db, before);
    OneStep(s2, collect);
    var s3 := Run(s2, [collect]);
    var p2 := FullPass(s3, db, gen);
    var s4 := Run(s3, p2);
    SameFinalizers(Live(s3.log), Live(s4.log), db);
    FirstSecret(Live(s3.log), Live(s4.log), db, gen);
    SameInit(Live(s3.log), Live(s4.log), db, |s.log|, before.password);
    SoloHandsOff(s1, p1, db);
    SoloHandsOff(s3, p2, db);
    OwnHands(collect, db);
    JoinHands(first, p1, db);
    JoinHands(first + p1, [collect], db);
    JoinHands(first + p1 + [collect], p2, db);
    acts := first + p1 + [collect] + p2;
    RunAppend(s, first, p1);
    RunAppend(s, first + p1, [collect]);
    RunAppend(s, first + p1 + [collect], p2);
  }

  /** The DbPod is created again and its old init-db is collected. */
  lemma Reborn(s: State, db: Key, before: Gen) returns (acts: seq<Action>)
    requires s.log != [] && |s.log| > 1 && s.running == map[] && db !in Live(s.log)
    requires db.kind == DbPod && db.name != "" && HasSecret(Live(s.log), db, 1, before)
    requires PlainPart(Live(s.log), db, InitDbPart, 1)
    ensures HandsOff(acts, db)
    ensures var s' := Run(s, acts);
            && Idle(s', db) && s'.running == map[] && Live(s'.log)[db].uid == |s.log|
            && Finalizer(DbPod) in Live(s'.log)[db].finalizers
            && HasSecret(Live(s'.log), db, 1, before) && ChildKey(db, InitDbPart) !in Live(s'.log)
  {
    hide Step, Run;
    var create := UserCreate(db, [Finalizer(DbPod)], DbPodSpec(1, "mysql"));
    var collect := Collect(ChildKey(db, InitDbPart));
    Creates(s, db, create.finalizers, create.body);
    var s1 := Step(s, create);
    assert Orphan(Live(s1.log), collect.key);
    Collects(s1, collect.key);
    RunTwo(s, create, collect);
    acts := [create, collect];
    assert ChildKey(db, InitDbPart) != ChildKey(db, SecretPart);
  }

  lemma NewInit(a: Store, b: Store, db: Key, before: Gen, gen: Gen)
    requires db.kind == DbPod && db in a && HasSecret(a, db, 1, before) && ChildKey(db, InitDbPart) !in a
    requires ChildKey(db, InitDbPart) in b <==> !NoCredentials(a, db)
    requires MadePart(a, b, db, InitDbPart, gen)
    ensures HasInit(b, db, a[db].uid, before.password)
  {
  }

  /** The old Secret, whose owner is gone, is collected; nothing else changes. */
  lemma OldSecretGoes(s: State, db: Key, before: Gen)
    requires Idle(s, db) && db.kind == DbPod && HasSecret(Live(s.log), db, 1, before) && Live(s.log)[db].uid > 1
    ensures var s' := Step(s, Collect(ChildKey(db, SecretPart)));
            && Idle(s', db) && s'.running == s.running && Live(s'.log) == Live(s.log) - {ChildKey(db, SecretPart)}
    ensures forall uid, password :: HasInit(Live(s.log), db, uid, password) ==>
              HasInit(Live(Step(s, Collect(ChildKey(db, SecretPart))).log), db, uid, password)
  {
    hide Step;
    Collects(s, ChildKey(db, SecretPart));
    assert ChildKey(db, InitDbPart) != ChildKey(db, SecretPart);
  }

  /** Credentials can disagree: a DbPod created again before its old Secret has been collected ends up with an
      init-db that holds the old password and a Secret that holds the new one, both its own. */
  lemma CredentialsCanDisagree(db: Key, before: Gen, gen: Gen) returns (acts: seq<Action>, uid: nat)
    requires db.kind == DbPod && db.name != "" && before.password != gen.password
    ensures Undisturbed(acts, ChildKey(db, SecretPart)) && Undisturbed(acts, ChildKey(db, InitDbPart))
    ensures var live := Live(Versions(acts)); var k, sec := ChildKey(db, InitDbPart), ChildKey(db, SecretPart);
            && db in live && live[db].uid == uid && k in live && sec in live
            && live[k].owner == Some(Ref(db, uid)) && live[sec].owner == Some(Ref(db, uid))
            && live[sec].body.Credentials?
            && live[k].body != Embedded(InitDbPart, db, live[sec].body.username, live[sec].body.password)
  {
    hide Step, Run, Settled, Living, PlainPart, HandsOff, InitSql.Render, Inv;
    var h := FirstLife(db, before);
    var s := Run(EMPTY, h);
    var death := FirstDeath(s, db, before);
    Continue(h, death, db);
    var s1 := Run(EMPTY, h + death);
    uid := |s1.log|;
    var life := SecondLife(s1, db, before, gen);
    Continue(h + death, life, db);
    acts := h + death + life;
    HandsOffLeaves(acts, db, SecretPart);
    HandsOffLeaves(acts, db, InitDbPart);
    DifferentScripts(Live(Versions(acts)), db, uid, before, gen);
  }

  lemma DifferentScripts(live: Store, db: Key, uid: nat, before: Gen, gen: Gen)
    requires db.kind == DbPod && before.password != gen.password
    requires HasInit(live, db, uid, before.password) && HasSecret(live, db, uid, gen)
    ensures var k, sec := ChildKey(db, InitDbPart), ChildKey(db, SecretPart);
            && k in live && sec in live
            && live[k].owner == Some(Ref(db, uid)) && live[sec].owner == Some(Ref(db, uid))
            && live[sec].body.Credentials?
            && live[k].body != Embedded(InitDbPart, db, live[sec].body.username, live[sec].body.password)
  {
    if InitSql.Render(db.name, before.password) == InitSql.Render(db.name, gen.password) {
      InitSql.RenderInjective(db.name, before.password, gen.password);
      assert false;
    }
  }

  // ---------------------------------------------------------------- the read that fails unnoticed

  /** A reconcile of a DbPod that is in place but for init-db; it works on the live object, and what it looks up
      is up to date. */
  ghost predicate Skimming(s: State, db: Key) {
    && s.log != [] && db.kind == DbPod && db in s.running && PartsFresh(s, db)
    && Settled(Live(s.log), db, {InitDbPart}) && s.running[db].me == Live(s.log)[db]
  }

  /** The reconcile has moved on, and nothing else has changed. */
  predicate MovedTo(s: State, s': State, db: Key, pc: PC) {
    db in s.running && s' == s.(running := s.running[db := s.running[db].(pc := pc)])
  }

  lemma SkimStays(s: State, s': State, db: Key, pc: PC)
    requires Skimming(s, db) && MovedTo(s, s', db, pc)
    ensures Skimming(s', db)
  {
    hide Settled, ChildKey;
    forall p | ParentKind(p) == db.kind
      ensures SameAt(Cache(s', ChildKey(db, p)), Live(s'.log), ChildKey(db, p))
    {
      assert SameAt(Cache(s, ChildKey(db, p)), Live(s.log), ChildKey(db, p));
    }
  }

  /** A status that is already there is not written again. */
  lemma SkimStatus(s: State, db: Key, gen: Gen)
    requires Skimming(s, db)
    requires var pc := s.running[db].pc;
             (pc.SetInit? && Live(s.log)[db].status.progress != "Ready")
             || (pc.SetReady? && Live(s.log)[ChildKey(db, MysqlPart)].status.available > 0)
    ensures var pc := s.running[db].pc;
            MovedTo(s, Step(s, Call(db, Success, gen)), db, if pc.SetInit? then Look(0) else NextPart(db, pc.part))
  {
    hide ChildKey, Gates, Parts, Looked, SecretRead, GateLooked, PartsFresh, AfterName, AfterFin;
    assert Begun(db, Live(s.log)[db]) && Answers(Live(s.log), db, Live(s.log)[db]);
  }

  lemma SkimLook(s: State, db: Key, gen: Gen)
    requires Skimming(s, db) && s.running[db].pc.Look? && s.running[db].pc.part < |Parts(DbPod)|
    ensures var i := s.running[db].pc.part; var k := ChildKey(db, Parts(DbPod)[i]);
            MovedTo(s, Step(s, Call(db, Success, gen)), db,
                    if k in Live(s.log) then AfterFound(db, i, Live(s.log)[k])
                    else AfterMissing(db, s.running[db].me.body, i, gen))
  {
    hide ChildKey, Gates, Build, SecretRead, GateLooked, Settled, AfterFound, AfterMissing, Parts, Reply;
    var i := s.running[db].pc.part;
    assert SameAt(Cache(s, ChildKey(db, Parts(DbPod)[i])), Live(s.log), ChildKey(db, Parts(DbPod)[i]));
  }

  /** A part that is there is passed. */
  lemma SkimOne(s: State, db: Key, gen: Gen) returns (acts: seq<Action>)
    requires Skimming(s, db) && s.running[db].pc.Look? && s.running[db].pc.part < |Parts(DbPod)|
    requires ChildKey(db, Parts(DbPod)[s.running[db].pc.part]) in Live(s.log)
    ensures MovedTo(s, Run(s, acts), db, NextPart(db, s.running[db].pc.part))
    ensures forall a :: a in acts ==> a == Call(db, Success, gen)
  {
    hide Step, Run, Skimming, ChildKey;
    SkimHasLog(s, db);
    var call, i := Call(db, Success, gen), s.running[db].pc.part;
    SkimLook(s, db, gen);
    OneStep(s, call);
    acts := [call];
    var s1 := Step(s, call);
    if s1.running[db].pc.SetReady? {
      SkimStays(s, s1, db, s1.running[db].pc);
      SkimStatus(s1, db, gen);
      RunTwo(s, call, call);
      acts := [call, call];
    }
  }

  lemma SkimHasLog(s: State, db: Key)
    requires Skimming(s, db)
    ensures s.log != [] && db.kind == DbPod && db in s.running && db in Live(s.log)
  {
  }

  /** And so are all parts up to the next one that is missing. */
  lemma {:induction false} Skim(s: State, db: Key, upto: nat, gen: Gen) returns (acts: seq<Action>)
    requires Skimming(s, db) && s.running[db].pc.Look? && s.running[db].pc.part < upto <= |Parts(DbPod)|
    requires forall n :: s.running[db].pc.part <= n < upto ==> ChildKey(db, Parts(DbPod)[n]) in Live(s.log)
    ensures MovedTo(s, Run(s, acts), db, NextPart(db, upto - 1))
    ensures forall a :: a in acts ==> a == Call(db, Success, gen)
    decreases upto - s.running[db].pc.part
  {
    hide Run, Skimming, ChildKey, Parts;
    SkimHasLog(s, db);
    var i := s.running[db].pc.part;
    acts := SkimOne(s, db, gen);
    if i + 1 < upto {
      var s1 := Run(s, acts);
      SkimStays(s, s1, db, NextPart(db, i));
      var rest := Skim(s1, db, upto, gen);
      RunAppend(s, acts, rest);
      acts := acts + rest;
    }
  }

  /** A second reconcile of the DbPod, with everything it looks at up to date, comes to its first lookup. */
  lemma SkimStart(s: State, db: Key, gen: Gen) returns (acts: seq<Action>)
    requires Idle(s, db) && db.kind == DbPod && Settled(Live(s.log), db, {InitDbPart})
    ensures Calm(acts, k => gen)
    ensures var s' := Run(s, acts);
            && s'.log == s.log && Skimming(s', db) && s'.running[db].pc == Look(0) && s'.running[db].began == |s.log| - 1
            && Pos(s', db) == |s.log| - 1
  {
    hide Step, Run, Solo, Synced, Settled;
    var sync := SyncAll(s, PartKeys(db) + [db], db);
    var s1 := Run(s, sync);
    SyncedBoth(s1, db);
    SyncedPartsFresh(s1, db);
    Begins(s1, db);
    OneStep(s1, Start(db));
    RunAppend(s, sync, [Start(db)]);
    acts := sync + [Start(db)];
    var s2 := Step(s1, Start(db));
    if s2.running[db].pc.SetInit? {
      SkimStatus(s2, db, gen);
      OneStep(s2, Call(db, Success, gen));
      SkimStays(s2, Step(s2, Call(db, Success, gen)), db, Look(0));
      RunAppend(s, acts, [Call(db, Success, gen)]);
      acts := acts + [Call(db, Success, gen)];
    }
  }

  lemma SyncedBoth(s: State, db: Key)
    requires s.log != [] && Synced(s, PartKeys(db) + [db])
    ensures Synced(s, PartKeys(db)) && Pos(s, db) == |s.log| - 1
  {
    hide PartKeys, Pos;
    var keys := PartKeys(db) + [db];
    assert keys[|keys| - 1] == db;
    assert forall j :: 0 <= j < |PartKeys(db)| ==> keys[j] == PartKeys(db)[j];
  }

  lemma Begins(s: State, db: Key)
    requires Idle(s, db) && db.kind == DbPod && Settled(Live(s.log), db, {InitDbPart})
    requires PartsFresh(s, db) && Pos(s, db) == |s.log| - 1
    ensures var s' := Step(s, Start(db));
            && s'.log == s.log && s'.pos == s.pos && Skimming(s', db) && s'.running[db].began == |s.log| - 1
            && (s'.running[db].pc == Look(0) || (s'.running[db].pc.SetInit? && Live(s.log)[db].status.progress != "Ready"))
  {
    hide ChildKey, Parts, Gates, Answers;
    var s' := Step(s, Start(db));
    forall p | ParentKind(p) == db.kind
      ensures SameAt(Cache(s', ChildKey(db, p)), Live(s'.log), ChildKey(db, p))
    {
      assert SameAt(Cache(s, ChildKey(db, p)), Live(s.log), ChildKey(db, p));
    }
  }

  /** GetSecret fails for init-db: the reconcile goes on with the next part. */
  lemma SkimSecret(s: State, db: Key, gen: Gen)
    requires s.log != [] && db.kind == DbPod && db in s.running && s.running[db].pc == ReadSecret(2)
    ensures MovedTo(s, Step(s, Call(db, Error, gen)), db, Look(3))
  {
    hide ChildKey, Gates, Build;
  }

  /** The second reconcile: everything is found, but init-db, for which the Secret cannot be read. */
  lemma SecondPass(s: State, db: Key, gen: Gen) returns (acts: seq<Action>)
    requires Idle(s, db) && db.kind == DbPod && Settled(Live(s.log), db, {InitDbPart})
    requires ChildKey(db, InitDbPart) !in Live(s.log)
    ensures Calm(acts, k => gen)
    ensures var s' := Run(s, acts);
            && s'.log == s.log && Skimming(s', db) && s'.running[db].pc.Done? && s'.running[db].began == |s.log| - 1
            && Pos(s', db) == |s.log| - 1
  {
    hide Run, Step, Skimming, ChildKey, Settled;
    var init := SkimStart(s, db, gen);
    var call, fail := Call(db, Success, gen), Call(db, Error, gen);
    var s1 := Run(s, init);
    OtherPartsThere(Live(s.log), db);
    var two := Skim(s1, db, 2, gen);
    var s2 := Run(s1, two);
    SkimStays(s1, s2, db, Look(2));
    SkimLook(s2, db, gen);
    var s3 := Step(s2, call);
    SkimStays(s2, s3, db, ReadSecret(2));
    SkimSecret(s3, db, gen);
    var s4 := Step(s3, fail);
    SkimStays(s3, s4, db, Look(3));
    RunTwo(s2, call, fail);
    var rest := Skim(s4, db, |Parts(DbPod)|, gen);
    SkimStays(s4, Run(s4, rest), db, Done);
    RunAppend(s, init, two);
    RunAppend(s, init + two, [call, fail]);
    RunAppend(s, init + two + [call, fail], rest);
    acts := init + two + [call, fail] + rest;
  }

  lemma OtherPartsThere(st: Store, db: Key)
    requires db.kind == DbPod && Settled(st, db, {InitDbPart})
    ensures forall n :: 0 <= n < |Parts(DbPod)| && n != 2 ==> ChildKey(db, Parts(DbPod)[n]) in st
  {
    hide ChildKey, Titled, Begun, Answers;
  }

  lemma NewIsIdle(s: State, db: Key)
    requires Rested(s) && db.kind == DbPod && s.log != [] && Live(s.log).Keys == {db}
    ensures Idle(s, db) && Inv(s) && s.running == map[] && NoCredentials(Live(s.log), db)
  {
    hide Inv, Suffix;
    assert db in Live(s.log).Keys;
    assert ChildKey(db, InitDbPart) !in Live(s.log).Keys && ChildKey(db, SecretPart) !in Live(s.log).Keys;
  }

  /** What is left after the first pass, and that the Secret is older than the next. */
  lemma OnlyInitLeft(s: State, db: Key)
    requires Inv(s) && s.log != [] && db.kind == DbPod && Settled(Live(s.log), db, {InitDbPart})
    requires ChildKey(db, InitDbPart) !in Live(s.log)
    ensures Missing(Live(s.log), db) == {InitDbPart}
    ensures var sec := ChildKey(db, SecretPart); sec in Live(s.log) && Live(s.log)[sec].uid <= |s.log| - 1
  {
    hide ChildKey, Titled, Begun, Answers, ThreadOK, Guarded, Provenance;
    assert Traced(s.log, |s.log| - 1, |s.log| - 1, ChildKey(db, SecretPart));
  }

  /** The first pass of a new DbPod, which comes to init-db before it has made the Secret. */
  lemma FirstPass(db: Key, gen: Gen) returns (s0: State, acts: seq<Action>)
    requires db.kind == DbPod && db.name != ""
    ensures Rested(s0) && s0.log != [] && Inv(s0) && Calm(acts, k => gen)
    ensures var s := Run(s0, acts);
            && SoloRunning(s, db) && s.running[db].pc.Done?
            && Settled(Live(s.log), db, {InitDbPart}) && ChildKey(db, InitDbPart) !in Live(s.log)
  {
    hide Run, Step, Solo, Settled, Inv, ChildKey, NoCredentials, SoloInv, Rested;
    var create := UserCreate(db, [Finalizer(DbPod)], DbPodSpec(1, "mysql"));
    NewObjectRests(db, create.finalizers, create.body);
    s0 := Run(EMPTY, [create, Sync(db, 1)]);
    NewIsIdle(s0, db);
    acts := MakePass(s0, db, gen);
    RunGrows(s0, acts);
    OnePass(s0, acts, db);
    SoloIsCalm(s0, acts, db, k => gen);
    IdleInv(s0, db);
    SoloKeeps(s0, acts, db);
  }

  /** A second pass need not suffice: a run without outside changes in which two passes of a DbPod are completed, one
      after the other, and init-db is still missing, though the Secret is older than the second; that wrote nothing
      and the cache shows the newest version of the DbPod and of its parts, so that no event is left to start a third. */
  lemma ReadFailsUnnoticed(db: Key, gen: Gen) returns (s0: State, acts: seq<Action>, more: seq<Action>)
    requires db.kind == DbPod && db.name != ""
    ensures Rested(s0) && Calm(acts + more, k => gen)
    ensures db in Run(s0, acts).running && Run(s0, acts).running[db].pc.Done?
    ensures var s := Run(s0, acts + more); var sec := ChildKey(db, SecretPart);
            && db in s.running && s.running[db].pc.Done? && Missing(Live(s.log), db) == {InitDbPart}
            && |Run(s0, acts).log| - 1 == s.running[db].began == |s.log| - 1
            && sec in Live(s.log) && Live(s.log)[sec].uid <= s.running[db].began
            && Pos(s, db) == |s.log| - 1 && PartsFresh(s, db)
  {
    hide Run, Step, Settled, Inv, ChildKey, PartsFresh, SoloInv, Rested;
    s0, acts := FirstPass(db, gen);
    var s1, call := Run(s0, acts), Call(db, Success, gen);
    Returns(s1, db, gen);
    OneStep(s1, call);
    var s2 := Step(s1, call);
    var second := SecondPass(s2, db, gen);
    more := [call] + second;
    RunAppend(s1, [call], second);
    RunAppend(s0, acts, more);
    RunInv(s0, acts + more);
    SkimHasLog(Run(s0, acts + more), db);
    OnlyInitLeft(Run(s0, acts + more), db);
  }

  // ---------------------------------------------------------------- two CoreExts of one name

  /** A second CoreExt of the same name, in another namespace, has all its parts, but the ClusterRoleBinding
      of that name binds the account of the first. */
  lemma SecondExtUnbound(name: string, ns1: string, ns2: string, gen: Gen) returns (acts: seq<Action>)
    requires name != "" && ns1 != ns2
    ensures var live := Live(Versions(acts)); var ext := Key(CoreExt, ns2, name);
            && Settled(live, ext, {})
            && live[ChildKey(ext, ClusterBindingPart)].body ==
                 Binding(ClusterRole, name + "-crole", ChildKey(ext, AccountPart).name, ns1)
  {
    hide Step, Run, Solo, Steady, MadePart, AddedPart, Settled, NoCredentials;
    var x, y := Key(CoreExt, ns1, name), Key(CoreExt, ns2, name);
    var create := UserCreate(x, [], CoreExtSpec);
    OneStep(EMPTY, create);
    Creates(EMPTY, x, [], CoreExtSpec);
    var s0 := Run(EMPTY, [create]);
    var p1 := FullPass(s0, x, gen);
    RunAppend(EMPTY, [create], p1);
    var s1 := Run(s0, p1);
    FirstBinding(Live(s0.log), Live(s1.log), x, gen);
    NoOtherExt(Live(s0.log), Live(s1.log), x, y);
    var again := UserCreate(y, [], CoreExtSpec);
    Creates(s1, y, [], CoreExtSpec);
    OneStep(s1, again);
    var s2 := Run(s1, [again]);
    RunAppend(EMPTY, [create] + p1, [again]);
    var p2 := FullPass(s2, y, gen);
    RunAppend(EMPTY, [create] + p1 + [again], p2);
    acts := [create] + p1 + [again] + p2;
    SameBinding(Live(s2.log), Live(Run(s2, p2).log), y);
    ExtSettled(Live(Run(s2, p2).log), y);
  }

  lemma ExtSettled(st: Store, ext: Key)
    requires ext.kind == CoreExt && Settled(st, ext, {InitDbPart})
    ensures Settled(st, ext, {})
  {
    hide Titled, Begun, Answers, ChildKey;
  }

  lemma NoOtherExt(a: Store, b: Store, x: Key, y: Key)
    requires x.kind == CoreExt == y.kind && x != y && a.Keys == {x} && AddedPart(a, b, x, y)
    ensures y !in b
  {
    assert y !in a.Keys;
    assert forall p :: ParentKind(p) == CoreExt ==> ChildKey(x, p).kind != CoreExt;
  }

  lemma FirstBinding(a: Store, b: Store, x: Key, gen: Gen)
    requires x.kind == CoreExt && a.Keys == {x} && Settled(b, x, {InitDbPart})
    requires MadePart(a, b, x, ClusterBindingPart, gen)
    ensures ChildKey(x, ClusterBindingPart) in b
    ensures b[ChildKey(x, ClusterBindingPart)].body == Binding(ClusterRole, x.name + "-crole", x.name + "-sa", x.ns)
  {
    hide Titled, Begun, Answers;
    assert ChildKey(x, ClusterBindingPart) !in a.Keys;
  }

  lemma SameBinding(a: Store, b: Store, y: Key)
    requires y.kind == CoreExt && ChildKey(y, ClusterBindingPart) in a && Steady(a, b, y, ChildKey(y, ClusterBindingPart))
    ensures ChildKey(y, ClusterBindingPart) in b
    ensures b[ChildKey(y, ClusterBindingPart)] == a[ChildKey(y, ClusterBindingPart)]
  {
  }
}
