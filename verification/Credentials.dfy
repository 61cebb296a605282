/** The credentials in the generated configuration are those of the Secret. */
module Credentials {
  import opened Names
  import opened ApiServer
  import InitSql
  import opened Machine
  import opened History
  import opened Protocol
  import opened ProtocolProofs
  import opened Finalizers
  import opened Children

  // ---------------------------------------------------------------- bodies change only by user edits

  ghost predicate Unedited(acts: seq<Action>, k: Key) {
    forall a :: a in acts && a.UserEdit? ==> a.key != k
  }

  ghost predicate SameBody(log: seq<Store>, i: int, j: int, k: Key) {
    0 <= i <= j < |log| && k in log[i] && k in log[j] && log[i][k].uid == log[j][k].uid ==>
      log[i][k].body == log[j][k].body
  }

  lemma RequestKeepsBody(log: seq<Store>, parent: Key, t: Thread, k: Key)
    requires Historic(log) && Mirrors(log, parent, t.me) && (t.pc.GateWrite? ==> HeldOK(log, t.pc.held))
    requires k in Live(log) && k in Apply(Live(log), Request(log, parent, t))
    ensures Apply(Live(log), Request(log, parent, t))[k].body == Live(log)[k].body
  {
    if t.pc.GateWrite? {
      WriteBackIsNoOp(log, t.pc.held, |log|);
    }
    if Current(Live(log), parent, t.me) {
      CurrentIsLive(log, parent, t.me);
    }
  }

  lemma EffectKeepsBody(s: State, a: Action, k: Key)
    requires s.log != [] && Enabled(s, a) && !a.Call? && !(a.UserEdit? && a.key == k)
    requires k in Live(s.log) && k in Apply(Live(s.log), Effect(s, a))
    ensures Apply(Live(s.log), Effect(s, a))[k].body == Live(s.log)[k].body
  {
  }

  lemma StepKeepsBody(s: State, a: Action, k: Key)
    requires Inv(s) && Enabled(s, a) && !(a.UserEdit? && a.key == k)
    requires k in Live(s.log) && k in Live(Step(s, a).log)
    ensures Live(Step(s, a).log)[k].body == Live(s.log)[k].body
  {
    StepWrites(s, a);
    if !a.Call? {
      EffectKeepsBody(s, a, k);
    } else if a.out != Error {
      RequestKeepsBody(s.log, a.key, s.running[a.key], k);
    }
  }

  lemma BodyKeptOnce(log: seq<Store>, log': seq<Store>, i: nat, k: Key)
    requires log != [] && log <= log' && |log'| == |log| + 1 && i < |log| && Historic(log')
    requires SameBody(log, i, |log| - 1, k)
    requires k in Live(log) && k in Live(log') ==> Live(log')[k].body == Live(log)[k].body
    ensures SameBody(log', i, |log|, k)
  {
    assert Traced(log', i, i, k);
    assert Traced(log', |log| - 1, |log|, k);
  }

  /** No controller ever changes the spec or data of an existing object. */
  lemma {:induction false} BodyKept(acts: seq<Action>, i: nat, j: nat, k: Key)
    requires Unedited(acts, k) && i <= j < |Versions(acts)|
    ensures SameBody(Versions(acts), i, j, k)
  {
    hide Step, Inv;
    if i < j {
      var init, a := acts[..|acts| - 1], acts[|acts| - 1];
      RunReleased(init);
      var s := Run(EMPTY, init);
      assert a in acts && forall b :: b in init ==> b in acts;
      StepGrows(s, a);
      StepGrowsByOne(s, a);
      if j < |s.log| {
        BodyKept(init, i, j, k);
      } else {
        BodyKept(init, i, |s.log| - 1, k);
        NewBody(s, a, i, k);
      }
    }
  }

  lemma NewBody(s: State, a: Action, i: nat, k: Key)
    requires Inv(s) && Enabled(s, a) && !(a.UserEdit? && a.key == k)
    requires i < |s.log| && |Step(s, a).log| == |s.log| + 1 && SameBody(s.log, i, |s.log| - 1, k)
    ensures SameBody(Step(s, a).log, i, |s.log|, k)
  {
    hide Step, Inv;
    StepGrows(s, a);
    StepHistoric(s, a);
    if k in Live(s.log) && k in Live(Step(s, a).log) {
      StepKeepsBody(s, a, k);
    }
    BodyKeptOnce(s.log, Step(s, a).log, i, k);
  }

  // ---------------------------------------------------------------- one Secret per incarnation

  /** A controller creates the Secret of a DbPod incarnation at most once. */
  lemma SecretOnce(acts: seq<Action>, parent: Key, uid: nat, i: nat, j: nat)
    requires parent.kind == DbPod && i <= j < |Versions(acts)|
    requires var k := ChildKey(parent, SecretPart);
             var log := Versions(acts);
             Untouched(acts, k) && k in log[i] && k in log[j]
             && log[i][k].owner == Some(Ref(parent, uid)) && log[j][k].owner == Some(Ref(parent, uid))
    ensures Versions(acts)[i][ChildKey(parent, SecretPart)].uid == Versions(acts)[j][ChildKey(parent, SecretPart)].uid
  {
    hide Step, Provenance;
    RunReleased(acts);
    var log: seq<Store> := Versions(acts);
    var k := ChildKey(parent, SecretPart);
    OwnedWasMade(acts, i, k);
    OwnedWasMade(acts, j, k);
    var c := log[j][k].uid;
    if c > i {
      ChildRemains(acts, i, c, k);
      NotAgain(log, i, c, k);
    } else {
      assert Traced(log, i, j, k);
    }
  }

  /** An object that has not gone away cannot be created. */
  lemma NotAgain(log: seq<Store>, i: nat, c: nat, k: Key)
    requires Historic(log) && Remains(log, i, c, k) && i < c < |log|
    requires k in log[i] && log[i][k].made.Some? && Sheltered(log[c], log[i][k])
    requires k in log[c] && log[c][k].uid == c
    ensures c == log[i][k].uid
  {
  }

  /** An owner reference is written only by the controllers, for a parent that is there. */
  lemma OwnedWasMade(acts: seq<Action>, j: nat, k: Key)
    requires j < |Versions(acts)| && k in Versions(acts)[j] && Versions(acts)[j][k].owner.Some?
    ensures var log := Versions(acts); var o := log[j][k];
            && o.made.Some? && o.owner == Some(o.made.value.parent) && o.uid <= j
            && k in log[o.uid] && log[o.uid][k].uid == o.uid && log[o.uid][k].made == o.made && log[o.uid][k].owner == o.owner
            && Provenance(log, o.uid, k) && Holds(log[o.uid], o.made.value.parent.key, o.made.value.parent.uid)
  {
    RunReleased(acts);
    var log: seq<Store> := Versions(acts);
    assert Traced(log, j, j, k);
    assert Traced(log, log[j][k].uid, j, k);
    assert Provenance(log, log[j][k].uid, k);
  }

  // ---------------------------------------------------------------- agreement

  /** The user name and password a generated object embeds. */
  function Embedded(p: Part, parent: Key, username: string, password: string): Body
    requires NeedsSecret(p)
  {
    if p == InitDbPart then InitScript(InitSql.Render(username, password))
    else ProxyConfig(parent.name + "-readsvc", parent.name + "-mysql-0." + parent.name + "-svc", username, password)
  }

  /** While this DbPod is in the store, the Secret under its name is its own: none was supplied from
      outside, and the name was not used again before the old Secret had been collected. */
  ghost predicate OwnSecretOnly(log: seq<Store>, parent: Key) {
    var k := ChildKey(parent, SecretPart);
    forall i :: 0 <= i < |log| && parent in log[i] && k in log[i] ==>
      log[i][k].owner == Some(Ref(parent, log[i][parent].uid))
  }

  ghost predicate Undisturbed(acts: seq<Action>, k: Key) {
    Untouched(acts, k) && Unedited(acts, k)
  }

  /** Where the credentials of a generated object come from: the Secret that was live at some version r
      while the DbPod incarnation was; and the Secret this incarnation owns is that very object exactly
      when the one read was its own. */
  lemma CredentialOrigin(acts: seq<Action>, parent: Key, p: Part, uid: nat, j: nat) returns (r: nat)
    requires parent.kind == DbPod && NeedsSecret(p) && j < |Versions(acts)|
    requires Undisturbed(acts, ChildKey(parent, SecretPart)) && Undisturbed(acts, ChildKey(parent, p))
    requires var log := Versions(acts); var k, sec := ChildKey(parent, p), ChildKey(parent, SecretPart);
             k in log[j] && sec in log[j]
             && log[j][k].owner == Some(Ref(parent, uid)) && log[j][sec].owner == Some(Ref(parent, uid))
    ensures r <= j && Holds(Versions(acts)[r], parent, uid) && ChildKey(parent, SecretPart) in Versions(acts)[r]
    ensures var log := Versions(acts); var k, sec := ChildKey(parent, p), ChildKey(parent, SecretPart);
            && log[j][k].made.Some? && r == log[j][k].made.value.secAt && log[r][sec].body.Credentials?
            && log[j][k].body == Embedded(p, parent, log[r][sec].body.username, log[r][sec].body.password)
            && (log[j][sec].uid == log[r][sec].uid <==> log[r][sec].owner == Some(Ref(parent, uid)))
  {
    RunReleased(acts);
    var log: seq<Store> := Versions(acts);
    var k, sec := ChildKey(parent, p), ChildKey(parent, SecretPart);
    OwnedWasMade(acts, j, k);
    var o := log[j][k];
    var m := o.made.value;
    ChildKeyInjective(parent, p, m.parent.key, Parts(m.parent.key.kind)[m.step]);
    r := m.secAt;
    BodyKept(acts, o.uid, j, k);
    assert log[..o.uid + 1][r] == log[r];
    assert Traced(log, r, r, sec);
    assert Traced(log, r, j, sec);
    if log[r][sec].owner == Some(Ref(parent, uid)) {
      SecretOnce(acts, parent, uid, r, j);
    }
    SecretNamesUser(acts, parent, r);
  }

  /** Whoever created it, the Secret of a DbPod carries the DbPod's name as user name. */
  lemma SecretNamesUser(acts: seq<Action>, parent: Key, i: nat)
    requires parent.kind == DbPod && Undisturbed(acts, ChildKey(parent, SecretPart))
    requires i < |Versions(acts)| && ChildKey(parent, SecretPart) in Versions(acts)[i]
    ensures var b := Versions(acts)[i][ChildKey(parent, SecretPart)].body; b.Credentials? && b.username == parent.name
  {
    hide Run, Released, ThreadOK;
    RunReleased(acts);
    var log: seq<Store> := Versions(acts);
    var k := ChildKey(parent, SecretPart);
    if log[i][k].made.None? {
      OutsideOrMade(acts, i, k);
      assert false;
    }
    var c := log[i][k].uid;
    assert Traced(log, i, i, k);
    assert Traced(log, c, i, k);
    assert Provenance(log, c, k);
    var m := log[i][k].made.value;
    ChildKeyInjective(parent, SecretPart, m.parent.key, Parts(m.parent.key.kind)[m.step]);
    BodyKept(acts, c, i, k);
  }

  /** Different Secrets under this name carry different passwords. */
  ghost predicate DistinctPasswords(log: seq<Store>, k: Key) {
    forall i, j :: 0 <= i < |log| && 0 <= j < |log| && k in log[i] && k in log[j] && log[i][k].uid != log[j][k].uid ==>
      Password(log[i][k].body) != Password(log[j][k].body)
  }

  lemma EmbeddedInjective(p: Part, parent: Key, username: string, a: string, b: string)
    requires NeedsSecret(p)
    ensures Embedded(p, parent, username, a) == Embedded(p, parent, username, b) <==> a == b
  {
    hide InitSql.Render;
    if p == InitDbPart && InitSql.Render(username, a) == InitSql.Render(username, b) {
      InitSql.RenderInjective(username, a, b);
    }
  }

  /** A generated object agrees with the present Secret exactly if the Secret it was built from was this DbPod
      incarnation's own. */
  lemma AgreementExact(acts: seq<Action>, parent: Key, p: Part, uid: nat, j: nat) returns (r: nat)
    requires parent.kind == DbPod && NeedsSecret(p) && j < |Versions(acts)|
    requires Undisturbed(acts, ChildKey(parent, SecretPart)) && Undisturbed(acts, ChildKey(parent, p))
    requires DistinctPasswords(Versions(acts), ChildKey(parent, SecretPart))
    requires var log := Versions(acts); var k, sec := ChildKey(parent, p), ChildKey(parent, SecretPart);
             k in log[j] && sec in log[j]
             && log[j][k].owner == Some(Ref(parent, uid)) && log[j][sec].owner == Some(Ref(parent, uid))
    ensures r <= j && Holds(Versions(acts)[r], parent, uid) && ChildKey(parent, SecretPart) in Versions(acts)[r]
    ensures var log := Versions(acts); var k, sec := ChildKey(parent, p), ChildKey(parent, SecretPart);
            && log[j][k].made.Some? && r == log[j][k].made.value.secAt && log[r][sec].body.Credentials?
            && log[j][k].body == Embedded(p, parent, log[r][sec].body.username, log[r][sec].body.password)
            && log[j][sec].body.Credentials?
            && (log[j][k].body == Embedded(p, parent, log[j][sec].body.username, log[j][sec].body.password) <==>
                  log[r][sec].owner == Some(Ref(parent, uid)))
  {
    hide Run, Embedded;
    r := CredentialOrigin(acts, parent, p, uid, j);
    var log: seq<Store> := Versions(acts);
    var sec := ChildKey(parent, SecretPart);
    SecretNamesUser(acts, parent, r);
    SecretNamesUser(acts, parent, j);
    EmbeddedInjective(p, parent, parent.name, Password(log[r][sec].body), Password(log[j][sec].body));
    if log[r][sec].uid == log[j][sec].uid {
      BodyKept(acts, r, j, sec);
    }
  }

  // ---------------------------------------------------------------- names that are used again

  /** Whether the Secret under a DbPod's name is its own can be told from the two creation times. */
  lemma SecretIsOwn(acts: seq<Action>, parent: Key, i: nat)
    requires parent.kind == DbPod && i < |Versions(acts)| && Untouched(acts, ChildKey(parent, SecretPart))
    requires parent in Versions(acts)[i] && ChildKey(parent, SecretPart) in Versions(acts)[i]
    ensures var st := Versions(acts)[i]; var sec := st[ChildKey(parent, SecretPart)];
            sec.owner == Some(Ref(parent, st[parent].uid)) <==> sec.uid > st[parent].uid
  {
    hide Run, Released, ThreadOK, Remains;
    RunReleased(acts);
    var log: seq<Store> := Versions(acts);
    var k := ChildKey(parent, SecretPart);
    if log[i][k].made.None? {
      OutsideOrMade(acts, i, k);
      assert false;
    }
    var c := log[i][k].uid;
    assert Traced(log, i, i, k);
    assert Traced(log, c, i, k);
    assert Provenance(log, c, k);
    var m := log[i][k].made.value;
    ChildKeyInjective(parent, SecretPart, m.parent.key, Parts(m.parent.key.kind)[m.step]);
    assert Traced(log, c, i, parent);
    assert Traced(log, c, c, parent);
  }

  /** Whenever the DbPod is created, no Secret is left under the name it will use. */
  ghost predicate FreshNames(log: seq<Store>, parent: Key) {
    forall u :: 0 <= u < |log| && parent in log[u] && log[u][parent].uid == u ==> ChildKey(parent, SecretPart) !in log[u]
  }

  /** Then the Secret under its name is always its own. */
  lemma FreshNamesOwn(acts: seq<Action>, parent: Key)
    requires parent.kind == DbPod && Untouched(acts, ChildKey(parent, SecretPart))
    requires FreshNames(Versions(acts), parent)
    ensures OwnSecretOnly(Versions(acts), parent)
  {
    var log: seq<Store> := Versions(acts);
    var k := ChildKey(parent, SecretPart);
    RunReleased(acts);
    forall i | 0 <= i < |log| && parent in log[i] && k in log[i]
      ensures log[i][k].owner == Some(Ref(parent, log[i][parent].uid))
    {
      var u := log[i][parent].uid;
      assert Traced(log, i, i, parent);
      assert Traced(log, u, i, parent);
      assert Traced(log, u, i, k);
      SecretIsOwn(acts, parent, i);
    }
  }

  /** Credential agreement, in every reachable state: if a DbPod incarnation has its Secret and a
      generated object, that object embeds the user name and password of the Secret. */
  lemma CredentialAgreement(acts: seq<Action>, parent: Key, p: Part, uid: nat, j: nat)
    requires parent.kind == DbPod && NeedsSecret(p) && j < |Versions(acts)|
    requires Undisturbed(acts, ChildKey(parent, SecretPart)) && Undisturbed(acts, ChildKey(parent, p))
    requires FreshNames(Versions(acts), parent)
    requires var log := Versions(acts); var k, sec := ChildKey(parent, p), ChildKey(parent, SecretPart);
             k in log[j] && sec in log[j]
             && log[j][k].owner == Some(Ref(parent, uid)) && log[j][sec].owner == Some(Ref(parent, uid))
    ensures var log := Versions(acts); var k, sec := ChildKey(parent, p), ChildKey(parent, SecretPart);
            && log[j][sec].body.Credentials?
            && log[j][k].body == Embedded(p, parent, log[j][sec].body.username, log[j][sec].body.password)
  {
    FreshNamesOwn(acts, parent);
    var r := CredentialOrigin(acts, parent, p, uid, j);
    BodyKept(acts, r, j, ChildKey(parent, SecretPart));
  }
}
