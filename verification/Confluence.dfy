/** Without outside changes every interleaving of the controllers works towards one and the same store. */
module Confluence {
  import opened Names
  import opened ApiServer
  import opened Machine
  import opened History
  import opened Protocol
  import opened ProtocolProofs
  import opened Liveness
  import opened Closure

  // ---------------------------------------------------------------- calm runs

  predicate SameAt(a: Store, b: Store, k: Key) {
    (k in a <==> k in b) && (k in a && k in b ==> a[k] == b[k])
  }

  /** A reachable state at rest: no reconcile is running, every cache has caught up, nothing with a
      controller is being deleted. */
  ghost predicate Rested(s: State) {
    && Inv(s) && s.running == map[]
    && (forall k, i :: Pos(s, k) <= i < |s.log| ==> SameAt(s.log[i], Live(s.log), k))
    && (forall k :: k in Live(s.log) && Managed(k.kind) ==> !Live(s.log)[k].deleting)
  }

  /** No user and no garbage collector acts, and the generator follows an oracle; calls may still fail,
      replies may be lost, reconciles may crash and caches may lag. */
  predicate CalmAction(a: Action, oracle: Key -> Gen) {
    (a.Scale? || a.Sync? || a.Miss? || a.Start? || a.Call? || a.Abort?) && (a.Call? ==> a.gen == oracle(a.key))
  }

  ghost predicate Calm(acts: seq<Action>, oracle: Key -> Gen) {
    forall a :: a in acts ==> CalmAction(a, oracle)
  }

  /** An object of store a is in store b, as the same incarnation with the same body and owner. */
  predicate Kept(a: Store, b: Store, k: Key) {
    k in a ==>
      && k in b && b[k].uid == a[k].uid && b[k].body == a[k].body && b[k].deleting == a[k].deleting
      && b[k].owner == a[k].owner && Finalized(k, b[k]) == Finalized(k, a[k])
  }

  predicate CalmThread(live: Store, parent: Key, t: Thread, oracle: Key -> Gen) {
    && parent in live && live[parent].uid == t.me.uid && live[parent].body == t.me.body && !t.me.deleting
    && !GateBranch(t.pc)
    && (t.pc.AddFin? ==> Finalizer(parent.kind) !in t.me.finalizers)
    && (t.pc.Make? ==>
          t.pc.part < |Parts(parent.kind)| && t.pc.gen == oracle(parent)
          && (var p := Parts(parent.kind)[t.pc.part];
              t.pc.body == Build(p, parent, t.me.body, SecretIn(live, p, parent), oracle(parent))
              && (NeedsSecret(p) ==> ChildKey(parent, SecretPart) in live)))
  }

  /** What holds in every state of a calm run from a state at rest. */
  ghost predicate CalmInv(s0: State, s: State, oracle: Key -> Gen)
    requires s0.log != []
  {
    && Inv(s) && s0.log <= s.log && (forall k :: Pos(s0, k) <= Pos(s, k))
    && (forall i, j, k :: |s0.log| - 1 <= i <= j < |s.log| ==> Kept(s.log[i], s.log[j], k))
    && (forall k :: k in Live(s.log) && Managed(k.kind) ==> !Live(s.log)[k].deleting)
    && (forall k :: k in s.running ==> CalmThread(Live(s.log), k, s.running[k], oracle))
    && (forall k :: Justified(Live(s0.log), Live(s.log), k, oracle))
  }

  /** The cache never shows more than the live store has. */
  lemma CacheIsKept(s0: State, s: State, k: Key, oracle: Key -> Gen)
    requires Rested(s0) && CalmInv(s0, s, oracle)
    ensures Kept(Cache(s, k), Live(s.log), k)
  {
    var p, n := Pos(s, k), |s0.log| - 1;
    if p < n {
      assert SameAt(s0.log[p], Live(s0.log), k);
      assert Kept(s.log[n], s.log[|s.log| - 1], k);
    } else {
      assert Kept(s.log[p], s.log[|s.log| - 1], k);
    }
  }

  // ---------------------------------------------------------------- one step

  lemma RequestKeeps(log: seq<Store>, parent: Key, t: Thread, k: Key)
    requires Historic(log) && Mirrors(log, parent, t.me) && !t.me.deleting && !GateBranch(t.pc)
    requires Managed(parent.kind) && (t.pc.AddFin? ==> Finalizer(parent.kind) !in t.me.finalizers)
    ensures Kept(Live(log), Apply(Live(log), Request(log, parent, t)), k)
  {
    if Current(Live(log), parent, t.me) {
      CurrentIsLive(log, parent, t.me);
    }
  }

  lemma EffectKeeps(s: State, a: Action, k: Key, oracle: Key -> Gen)
    requires s.log != [] && Enabled(s, a) && !a.Call? && CalmAction(a, oracle)
    ensures Kept(Live(s.log), Apply(Live(s.log), Effect(s, a)), k)
  {
  }

  lemma StepKeeps(s0: State, s: State, a: Action, k: Key, oracle: Key -> Gen)
    requires Rested(s0) && CalmInv(s0, s, oracle) && Enabled(s, a) && CalmAction(a, oracle)
    ensures Kept(Live(s.log), Live(Step(s, a).log), k)
  {
    hide Step;
    StepWrites(s, a);
    if a.Call? {
      if a.out != Error {
        RequestKeeps(s.log, a.key, s.running[a.key], k);
      }
    } else {
      EffectKeeps(s, a, k, oracle);
    }
  }

  lemma StepKeepsAll(s0: State, s: State, a: Action, oracle: Key -> Gen)
    requires s.log != [] && Rested(s0) && CalmInv(s0, s, oracle) && Enabled(s, a) && CalmAction(a, oracle)
    ensures forall k :: Kept(Live(s.log), Live(Step(s, a).log), k)
  {
    hide *;
    forall k ensures Kept(Live(s.log), Live(Step(s, a).log), k) {
      StepKeeps(s0, s, a, k, oracle);
    }
  }

  lemma StepKept(s0: State, s: State, a: Action, i: int, j: int, k: Key, oracle: Key -> Gen)
    requires Rested(s0) && CalmInv(s0, s, oracle) && Enabled(s, a) && CalmAction(a, oracle)
    requires |s0.log| - 1 <= i <= j < |Step(s, a).log|
    ensures Kept(Step(s, a).log[i], Step(s, a).log[j], k)
  {
    hide Step;
    StepGrows(s, a);
    StepWrites(s, a);
    var last := |s.log| - 1;
    if j <= last {
      assert Kept(s.log[i], s.log[j], k);
    } else if i <= last {
      assert Kept(s.log[i], s.log[last], k);
      StepKeeps(s0, s, a, k, oracle);
    }
  }

  // ---------------------------------------------------------------- reconciles

  lemma CalmThreadKept(live: Store, live': Store, parent: Key, t: Thread, oracle: Key -> Gen)
    requires CalmThread(live, parent, t, oracle) && (forall k :: Kept(live, live', k))
    ensures CalmThread(live', parent, t, oracle)
  {
    assert Kept(live, live', parent);
    assert Kept(live, live', ChildKey(parent, SecretPart));
  }

  lemma CalmStart(s0: State, s: State, parent: Key, oracle: Key -> Gen)
    requires Rested(s0) && CalmInv(s0, s, oracle) && Managed(parent.kind) && parent in Cache(s, parent)
    requires Begin(parent, Cache(s, parent)[parent]).Some?
    ensures CalmThread(Live(s.log), parent,
              Thread(Pos(s, parent), |s.log| - 1, Cache(s, parent)[parent],
                     Begin(parent, Cache(s, parent)[parent]).value, None), oracle)
  {
    CacheIsKept(s0, s, parent, oracle);
  }

  /** Status and finalizer writes leave the copy with the live body. */
  lemma CalmReply(log: seq<Store>, log': seq<Store>, parent: Key, t: Thread, sent: Obj, out: Outcome, oracle: Key -> Gen)
    requires Historic(log) && log' != [] && CalmThread(Live(log), parent, t, oracle)
    requires Mirrors(log, parent, t.me) && sent == t.me.(status := sent.status)
    requires Kept(Live(log), Live(log'), parent)
    ensures var c := StatusRequest(Live(log), parent, sent, |log|);
            var me := Reply(log, c, parent, sent, out);
            parent in Live(log') && Live(log')[parent].uid == me.uid && Live(log')[parent].body == me.body && !me.deleting
  {
    if Current(Live(log), parent, sent) {
      CurrentIsLive(log, parent, sent);
    }
  }

  lemma CalmAddFin(log: seq<Store>, log': seq<Store>, parent: Key, t: Thread, oracle: Key -> Gen)
    requires Historic(log) && log' != [] && CalmThread(Live(log), parent, t, oracle) && t.pc.AddFin?
    requires Mirrors(log, parent, t.me) && Current(Live(log), parent, t.me)
    requires Kept(Live(log), Live(log'), parent)
    ensures var sent := WithFin(parent, t.me);
            var me := Reply(log, UpdateRequest(Live(log), parent, sent, |log|), parent, sent, Success);
            parent in Live(log') && Live(log')[parent].uid == me.uid && Live(log')[parent].body == me.body && !me.deleting
  {
    AddFinWrites(log, parent, t.me);
  }

  lemma CalmLooked(s: State, parent: Key, t: Thread, oracle: Key -> Gen)
    requires s.log != [] && CalmThread(Live(s.log), parent, t, oracle) && t.pc.Look?
    ensures CalmThread(Live(s.log), parent, Looked(s, parent, t, oracle(parent)), oracle)
  {
  }

  lemma CalmSecretRead(s: State, parent: Key, t: Thread, out: Outcome, oracle: Key -> Gen)
    requires s.log != [] && ThreadOK(s, parent, t) && CalmThread(Live(s.log), parent, t, oracle) && t.pc.ReadSecret?
    ensures CalmThread(Live(s.log), parent, SecretRead(s, parent, t, out, oracle(parent)), oracle)
  {
  }

  lemma CalmResume(s: State, log': seq<Store>, parent: Key, t: Thread, out: Outcome, oracle: Key -> Gen)
    requires Historic(s.log) && log' != [] && ThreadOK(s, parent, t) && CalmThread(Live(s.log), parent, t, oracle)
    requires forall k :: Kept(Live(s.log), Live(log'), k)
    requires Resume(s, parent, t, out, oracle(parent)).Some?
    ensures CalmThread(Live(log'), parent, Resume(s, parent, t, out, oracle(parent)).value, oracle)
  {
    hide ThreadOK, Build, CreateRequest;
    assert Kept(Live(s.log), Live(log'), parent);
    ThreadMirrors(s, parent, t);
    if t.pc.AddFin? {
      CalmAddFin(s.log, log', parent, t, oracle);
    } else if t.pc.SetName? || t.pc.SetInit? || t.pc.SetReady? {
      CalmReply(s.log, log', parent, t, Sent(parent, t), out, oracle);
    } else if t.pc.Look? {
      CalmLooked(s, parent, t, oracle);
      CalmThreadKept(Live(s.log), Live(log'), parent, Looked(s, parent, t, oracle(parent)), oracle);
    } else if t.pc.ReadSecret? {
      CalmSecretRead(s, parent, t, out, oracle);
      CalmThreadKept(Live(s.log), Live(log'), parent, SecretRead(s, parent, t, out, oracle(parent)), oracle);
    } else {
      CalmThreadKept(Live(s.log), Live(log'), parent, t, oracle);
    }
  }

  lemma ThreadMirrors(s: State, parent: Key, t: Thread)
    requires s.log != [] && ThreadOK(s, parent, t)
    ensures Mirrors(s.log, parent, t.me)
  {
  }

  lemma StepRuns(s: State, a: Action)
    requires s.log != [] && Enabled(s, a)
    ensures Step(s, a).running == Threads(s, a)
  {
  }

  lemma StepCalmThread(s0: State, s: State, a: Action, k: Key, oracle: Key -> Gen)
    requires Rested(s0) && CalmInv(s0, s, oracle) && Enabled(s, a) && CalmAction(a, oracle)
    requires k in Step(s, a).running
    ensures CalmThread(Live(Step(s, a).log), k, Step(s, a).running[k], oracle)
  {
    hide CalmThread, ThreadOK, Kept, Resume, Step, Guarded, Provenance, Traced, Justified, Rested;
    var s' := Step(s, a);
    StepKeepsAll(s0, s, a, oracle);
    StepRuns(s, a);
    if a.Call? && a.key == k {
      CalmResume(s, s'.log, k, s.running[k], a.out, oracle);
    } else if a.Start? && a.key == k && k !in s.running {
      CalmStart(s0, s, k, oracle);
      CalmThreadKept(Live(s.log), Live(s'.log), k, s'.running[k], oracle);
    } else {
      CalmThreadKept(Live(s.log), Live(s'.log), k, s.running[k], oracle);
    }
  }

  // ---------------------------------------------------------------- justification

  lemma ClaimKept(st: Store, st': Store, k: Key, parent: Key, p: Part, oracle: Key -> Gen)
    requires Claims(st, k, parent, p, oracle) && (forall x :: Kept(st, st', x))
    ensures Claims(st', k, parent, p, oracle)
  {
    assert Kept(st, st', k) && Kept(st, st', parent);
    assert Kept(st, st', ChildKey(parent, SecretPart));
  }

  /** What a create call adds is claimed by the acting reconcile's parent. */
  lemma CreatedIsClaimed(log: seq<Store>, live': Store, parent: Key, t: Thread, oracle: Key -> Gen)
    requires log != [] && Managed(parent.kind) && CalmThread(Live(log), parent, t, oracle) && t.pc.Make?
    requires var k := ChildKey(parent, Parts(parent.kind)[t.pc.part]);
             k !in Live(log) && live' == Live(log)[k := Draft(parent, t, |log|)]
    ensures var p := Parts(parent.kind)[t.pc.part]; Claims(live', ChildKey(parent, p), parent, p, oracle)
  {
  }

  lemma StepJustified(s0: State, s: State, a: Action, k: Key, oracle: Key -> Gen)
    requires s0.log != [] && Rested(s0) && CalmInv(s0, s, oracle) && Enabled(s, a) && CalmAction(a, oracle)
    ensures Justified(Live(s0.log), Live(Step(s, a).log), k, oracle)
  {
    hide Step, Claims, CalmThread, Inv, Rested, CalmAction, Enabled;
    var live, live' := Live(s.log), Live(Step(s, a).log);
    StepKeepsAll(s0, s, a, oracle);
    assert Justified(Live(s0.log), live, k, oracle);
    assert Kept(live, live', k);
    var n := |s0.log| - 1;
    assert Kept(s.log[n], s.log[|s.log| - 1], k);
    if k in live && k !in Live(s0.log) {
      var parent, p :| Claims(live, k, parent, p, oracle);
      ClaimKept(live, live', k, parent, p, oracle);
    } else if k in live' && k !in live {
      NewIsClaimed(s, a, k, oracle);
      var p := Parts(a.key.kind)[s.running[a.key].pc.part];
      assert Claims(live', k, a.key, p, oracle);
    }
  }

  lemma NewIsClaimed(s: State, a: Action, k: Key, oracle: Key -> Gen)
    requires Inv(s) && Enabled(s, a) && CalmAction(a, oracle)
    requires forall x :: x in s.running ==> CalmThread(Live(s.log), x, s.running[x], oracle)
    requires k in Live(Step(s, a).log) && k !in Live(s.log)
    ensures a.Call? && a.key in s.running && s.running[a.key].pc.Make? && s.running[a.key].pc.part < |Parts(a.key.kind)|
    ensures Claims(Live(Step(s, a).log), k, a.key, Parts(a.key.kind)[s.running[a.key].pc.part], oracle)
  {
    hide Step, CalmThread, Inv, Claims;
    NewKey(s, a, k);
    MadeByThread(s, a.key, s.running[a.key]);
    StepWrites(s, a);
    hide Enabled;
    NewWrites(s, a, k);
    CreatedIsClaimed(s.log, Live(Step(s, a).log), a.key, s.running[a.key], oracle);
  }

  lemma MadeByThread(s: State, parent: Key, t: Thread)
    requires s.log != [] && ThreadOK(s, parent, t)
    ensures Managed(parent.kind) && (t.pc.Make? ==> t.pc.part < |Parts(parent.kind)|)
  {
  }

  lemma NewWrites(s: State, a: Action, k: Key)
    requires s.log != [] && Enabled(s, a) && a.Call? && s.running[a.key].pc.Make?
    requires s.running[a.key].pc.part < |Parts(a.key.kind)|
    requires k == ChildKey(a.key, Parts(a.key.kind)[s.running[a.key].pc.part])
    requires k !in Live(s.log) && k in Live(Write(s.log, Effect(s, a)))
    ensures Live(Write(s.log, Effect(s, a))) == Live(s.log)[k := Draft(a.key, s.running[a.key], |s.log|)]
  {
    hide Draft, Parts, Build, ChildKey;
  }

  lemma StepLiveNotDeleting(s0: State, s: State, a: Action, k: Key, oracle: Key -> Gen)
    requires Rested(s0) && CalmInv(s0, s, oracle) && Enabled(s, a) && CalmAction(a, oracle)
    requires k in Live(Step(s, a).log) && Managed(k.kind)
    ensures !Live(Step(s, a).log)[k].deleting
  {
    StepKeeps(s0, s, a, k, oracle);
    if k !in Live(s.log) {
      if a.Call? {
        ThreadTyped(s, a.key, s.running[a.key]);
      }
      EffectLegal(s, a);
    }
  }

  lemma StepCalm(s0: State, s: State, a: Action, oracle: Key -> Gen)
    requires Rested(s0) && CalmInv(s0, s, oracle) && CalmAction(a, oracle)
    ensures CalmInv(s0, Step(s, a), oracle)
  {
    hide Kept, CalmThread, Justified, ThreadOK, Guarded, Provenance;
    if Enabled(s, a) {
      var s' := Step(s, a);
      StepInv(s, a);
      StepGrows(s, a);
      hide Step, Inv;
      forall i, j, k | |s0.log| - 1 <= i <= j < |s'.log| ensures Kept(s'.log[i], s'.log[j], k) {
        StepKept(s0, s, a, i, j, k, oracle);
      }
      forall k | k in Live(s'.log) && Managed(k.kind) ensures !Live(s'.log)[k].deleting {
        StepLiveNotDeleting(s0, s, a, k, oracle);
      }
      forall k | k in s'.running ensures CalmThread(Live(s'.log), k, s'.running[k], oracle) {
        StepCalmThread(s0, s, a, k, oracle);
      }
      forall k ensures Justified(Live(s0.log), Live(s'.log), k, oracle) {
        StepJustified(s0, s, a, k, oracle);
      }
    }
  }

  lemma {:induction false} RunCalm(s0: State, acts: seq<Action>, oracle: Key -> Gen)
    requires Rested(s0) && Calm(acts, oracle)
    ensures CalmInv(s0, Run(s0, acts), oracle)
  {
    if acts != [] {
      var init, a := acts[..|acts| - 1], acts[|acts| - 1];
      assert a in acts && forall b :: b in init ==> b in acts;
      RunCalm(s0, init, oracle);
      StepCalm(s0, Run(s0, init), a, oracle);
    }
  }

  /** A cluster in which a user has just created one object is at rest. */
  lemma NewObjectRests(k: Key, fins: seq<string>, body: Body)
    requires k.name != "" && Fits(k.kind, body)
    ensures Rested(Run(EMPTY, [UserCreate(k, fins, body), Sync(k, 1)]))
    ensures Live(Run(EMPTY, [UserCreate(k, fins, body), Sync(k, 1)]).log).Keys == {k}
  {
    hide Inv, Run;
    EmptyInv();
    RunInv(EMPTY, [UserCreate(k, fins, body), Sync(k, 1)]);
    RunTwo(EMPTY, UserCreate(k, fins, body), Sync(k, 1));
    var s1 := Step(EMPTY, UserCreate(k, fins, body));
    var s2 := Step(s1, Sync(k, 1));
    assert |s2.log| == 2 && s2.log[0] == map[] && Pos(s2, k) == 1;
  }

  // ---------------------------------------------------------------- theorems

  /** At every moment of a calm run the store holds the start store, alike, and nothing beyond
      the closure of its keys. */
  lemma StaysInClosure(s0: State, acts: seq<Action>, oracle: Key -> Gen)
    requires Rested(s0) && Calm(acts, oracle)
    ensures Live(s0.log).Keys <= Live(Run(s0, acts).log).Keys <= KeyClosure(Live(s0.log).Keys)
    ensures forall k :: k in Live(s0.log) ==> Alike(k, Live(Run(s0, acts).log)[k], Live(s0.log)[k])
  {
    RunCalm(s0, acts, oracle);
    var base, live := Live(s0.log), Live(Run(s0, acts).log);
    forall k | k in base ensures k in live && Alike(k, live[k], base[k]) {
      assert Kept(Run(s0, acts).log[|s0.log| - 1], live, k);
    }
    forall k | k in live ensures k in KeyClosure(base.Keys) {
      JustifiedInside(base, live, k, oracle);
    }
  }

  /** Confluence: two calm runs from one state at rest, in whatever order and with whatever faults their
      calls were made, agree on every object once each parent has all its parts: their keys are exactly
      the closure of the start store's keys, and the objects are alike. */
  lemma CalmRunsAgree(s0: State, acts1: seq<Action>, acts2: seq<Action>, oracle: Key -> Gen)
    requires Rested(s0) && Calm(acts1, oracle) && Calm(acts2, oracle)
    requires UniqueExts(KeyClosure(Live(s0.log).Keys))
    requires ClosedKeys(Live(Run(s0, acts1).log).Keys) && ClosedKeys(Live(Run(s0, acts2).log).Keys)
    ensures var a, b := Live(Run(s0, acts1).log), Live(Run(s0, acts2).log);
            && a.Keys == b.Keys == KeyClosure(Live(s0.log).Keys)
            && (forall k :: k in a ==> Alike(k, a[k], b[k]))
  {
    hide Run, CalmInv, KeyClosure, ClosedKeys, UniqueExts;
    var base := Live(s0.log);
    StaysInClosure(s0, acts1, oracle);
    StaysInClosure(s0, acts2, oracle);
    var a, b := Live(Run(s0, acts1).log), Live(Run(s0, acts2).log);
    ClosureIsLeast(base.Keys, a.Keys);
    ClosureIsLeast(base.Keys, b.Keys);
    RunJustified(s0, acts1, oracle);
    RunJustified(s0, acts2, oracle);
    forall k | k in a ensures Alike(k, a[k], b[k]) {
      JustifiedUnique(base, a, b, k, oracle);
    }
  }

  lemma RunJustified(s0: State, acts: seq<Action>, oracle: Key -> Gen)
    requires Rested(s0) && Calm(acts, oracle)
    ensures forall k :: Justified(Live(s0.log), Live(Run(s0, acts).log), k, oracle)
  {
    RunCalm(s0, acts, oracle);
  }
}
