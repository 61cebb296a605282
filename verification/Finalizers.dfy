/** The finalizer protocol and the deletion gates, over whole runs. */
module Finalizers {
  import opened Names
  import opened ApiServer
  import opened Machine
  import opened History
  import opened Protocol
  import opened ProtocolProofs

  ghost predicate GatesSeenBy(log: seq<Store>, j: int, parent: Key) {
    forall g :: g in Gates(parent) ==> SeenBy(log, j, g)
  }

  /** An incarnation that held its finalizer at version i and no longer does at version j is gone or
      being deleted, and every gated resource was in the store by then. */
  ghost predicate Accounted(log: seq<Store>, i: int, j: int, parent: Key) {
    0 <= i <= j < |log| && Managed(parent.kind) && parent in log[i] && Holds(log[i], parent, log[i][parent].uid)
    && !Holds(log[j], parent, log[i][parent].uid) ==>
      && (parent in log[j] && log[j][parent].uid == log[i][parent].uid ==> log[j][parent].deleting)
      && GatesSeenBy(log, j, parent)
  }

  /** A finalizer is never put back on an object that is being deleted. */
  ghost predicate NotRegained(log: seq<Store>, c: int, parent: Key) {
    0 < c < |log| && parent in log[c - 1] && log[c - 1][parent].deleting
    && !Holds(log[c - 1], parent, log[c - 1][parent].uid) ==>
      !Holds(log[c], parent, log[c - 1][parent].uid)
  }

  ghost predicate Released(log: seq<Store>) {
    && (forall i, j, k :: Accounted(log, i, j, k))
    && (forall c, k :: NotRegained(log, c, k))
  }

  lemma LiveAccounted(s: State, i: int, parent: Key)
    requires Inv(s)
    ensures Accounted(s.log, i, |s.log| - 1, parent)
  {
    var j := |s.log| - 1;
    if 0 <= i <= j && Managed(parent.kind) && parent in s.log[i] && Holds(s.log[i], parent, s.log[i][parent].uid)
       && !Holds(s.log[j], parent, s.log[i][parent].uid) {
      assert Guarded(s, i, parent);
      assert Traced(s.log, Pos(s, parent), j, parent);
      forall g | g in Gates(parent) ensures SeenBy(s.log, j, g) {
        var n :| 0 <= n < |Gates(parent)| && Gates(parent)[n] == g;
        assert Seen(s.log, Gates(parent)[n]);
      }
    }
  }

  lemma AccountedGrows(log: seq<Store>, log': seq<Store>, i: int, j: int, parent: Key)
    requires log <= log' && j < |log| && Accounted(log, i, j, parent)
    ensures Accounted(log', i, j, parent)
  {
    if 0 <= i <= j && Managed(parent.kind) && parent in log[i] && Holds(log[i], parent, log[i][parent].uid)
       && !Holds(log[j], parent, log[i][parent].uid) {
      forall g | g in Gates(parent) ensures SeenBy(log', j, g) {
        SeenGrows(log, log', j, j, g);
      }
    }
  }

  lemma RequestNotRegained(log: seq<Store>, parent: Key, t: Thread, k: Key)
    requires Historic(log) && Mirrors(log, parent, t.me) && (t.pc.GateWrite? ==> HeldOK(log, t.pc.held))
    requires t.pc.AddFin? ==> !t.me.deleting
    requires k in Live(log) && Live(log)[k].deleting && !Holds(Live(log), k, Live(log)[k].uid)
    ensures !Holds(Apply(Live(log), Request(log, parent, t)), k, Live(log)[k].uid)
  {
    if t.pc.GateWrite? {
      WriteBackIsNoOp(log, t.pc.held, |log|);
    }
    if Current(Live(log), parent, t.me) {
      CurrentIsLive(log, parent, t.me);
    }
  }

  lemma StepNotRegained(s: State, a: Action, k: Key)
    requires Inv(s) && Enabled(s, a)
    ensures NotRegained(Step(s, a).log, |s.log|, k)
  {
    var live := Live(s.log);
    if k in live && live[k].deleting && !Holds(live, k, live[k].uid) {
      assert Traced(s.log, |s.log| - 1, |s.log| - 1, k);
      if a.Call? {
        RequestNotRegained(s.log, a.key, s.running[a.key], k);
      }
    }
  }

  lemma StepReleased(s: State, a: Action)
    requires Inv(s) && Released(s.log)
    ensures Released(Step(s, a).log)
  {
    if Enabled(s, a) {
      var s' := Step(s, a);
      StepGrows(s, a);
      StepInv(s, a);
      forall i, j, k ensures Accounted(s'.log, i, j, k) {
        if j < |s.log| {
          assert Accounted(s.log, i, j, k);
          AccountedGrows(s.log, s'.log, i, j, k);
        } else if j == |s'.log| - 1 {
          LiveAccounted(s', i, k);
        }
      }
      forall c, k ensures NotRegained(s'.log, c, k) {
        if c < |s.log| {
          assert NotRegained(s.log, c, k);
        } else if c == |s.log| {
          StepNotRegained(s, a, k);
        }
      }
    }
  }

  lemma {:induction false} RunReleased(acts: seq<Action>)
    ensures Inv(Run(EMPTY, acts)) && Released(Versions(acts))
  {
    EmptyInv();
    if acts != [] {
      RunReleased(acts[..|acts| - 1]);
      StepInv(Run(EMPTY, acts[..|acts| - 1]), acts[|acts| - 1]);
      StepReleased(Run(EMPTY, acts[..|acts| - 1]), acts[|acts| - 1]);
    }
  }

  lemma {:induction false} StaysReleased(log: seq<Store>, i: nat, d: nat, c: nat, parent: Key)
    requires Historic(log) && Released(log) && Managed(parent.kind)
    requires i <= d <= c < |log| && parent in log[i] && Holds(log[i], parent, log[i][parent].uid)
    requires !Holds(log[d], parent, log[i][parent].uid)
    ensures !Holds(log[c], parent, log[i][parent].uid)
    decreases c
  {
    if d < c {
      StaysReleased(log, i, d, c - 1, parent);
      assert Accounted(log, i, c - 1, parent);
      assert NotRegained(log, c, parent);
      assert Traced(log, i, i, parent);
      assert Traced(log, c - 1, c, parent);
    }
  }

  // ---------------------------------------------------------------- theorems

  /** Finalizer protocol: in every run, whatever a controller ever created was created while the live
      store held the parent incarnation with its finalizer; so nothing was created before the
      finalizer was written, and nothing once it had been dropped. */
  lemma FinalizerProtocol(acts: seq<Action>, j: nat, k: Key)
    requires var log: seq<Store> := Versions(acts);
             j < |log| && k in log[j] && log[j][k].made.Some?
    ensures var log: seq<Store> := Versions(acts);
            var c, creator := log[j][k].uid, log[j][k].made.value.parent;
            && c <= j && k in log[c] && (c > 0 ==> k !in log[c - 1] || log[c - 1][k].uid != c)
            && creator.key in log[c] && log[c][creator.key].uid == creator.uid
            && Finalizer(creator.key.kind) in log[c][creator.key].finalizers
            && (forall i, d :: 0 <= i <= d < |log| && Holds(log[i], creator.key, creator.uid) && !Holds(log[d], creator.key, creator.uid)
                  ==> c < d)
  {
    RunReleased(acts);
    var log: seq<Store> := Versions(acts);
    var c, creator := log[j][k].uid, log[j][k].made.value.parent;
    assert Traced(log, j, j, k);
    assert Traced(log, c, j, k);
    assert Provenance(log, c, k);
    if c > 0 {
      assert Traced(log, c - 1, c - 1, k);
    }
    forall i, d | 0 <= i <= d < |log| && Holds(log[i], creator.key, creator.uid) && !Holds(log[d], creator.key, creator.uid)
      ensures c < d
    {
      if d <= c {
        StaysReleased(log, i, d, c, creator.key);
      }
    }
  }

  /** Deletion gate: whenever an incarnation loses its finalizer, it is being deleted or gone, each of
      the resources its delete branch names has been in the store, and the finalizer never returns. */
  lemma DeletionGate(acts: seq<Action>, i: nat, d: nat, parent: Key)
    requires var log: seq<Store> := Versions(acts);
             i <= d < |log| && Managed(parent.kind) && parent in log[i]
             && Holds(log[i], parent, log[i][parent].uid) && !Holds(log[d], parent, log[i][parent].uid)
    ensures var log: seq<Store> := Versions(acts);
            && (forall g :: g in Gates(parent) ==> SeenBy(log, d, g))
            && (parent in log[d] && log[d][parent].uid == log[i][parent].uid ==> log[d][parent].deleting)
            && (forall c :: d <= c < |log| ==> !Holds(log[c], parent, log[i][parent].uid))
  {
    RunReleased(acts);
    var log: seq<Store> := Versions(acts);
    assert Accounted(log, i, d, parent);
    forall c | d <= c < |log| ensures !Holds(log[c], parent, log[i][parent].uid) {
      StaysReleased(log, i, d, c, parent);
    }
  }

  /** An object no controller created was created by a user action of the run. */
  ghost predicate FromOutside(acts: seq<Action>, k: Key) {
    exists a :: a in acts && a.UserCreate? && a.key == k
  }

  // ---------------------------------------------------------------- the finalizers of others

  /** The finalizers of an object that are not its controller's own. */
  function Foreign(k: Key, o: Obj): seq<string> {
    if Managed(k.kind) then Besides(o.finalizers, Finalizer(k.kind)) else o.finalizers
  }

  /** The object is still there, and so are the finalizers of others, in their order. */
  predicate KeepsForeign(a: Store, b: Store, k: Key) {
    k in a && Foreign(k, a[k]) != [] ==> k in b && b[k].uid == a[k].uid && Foreign(k, b[k]) == Foreign(k, a[k])
  }

  lemma RequestKeepsForeign(log: seq<Store>, parent: Key, t: Thread, k: Key)
    requires Historic(log) && Mirrors(log, parent, t.me) && (t.pc.GateWrite? ==> HeldOK(log, t.pc.held))
    requires Managed(parent.kind)
    ensures KeepsForeign(Live(log), Apply(Live(log), Request(log, parent, t)), k)
  {
    hide Historic, Mirrors, Besides, RemoveAll, WithFin, WithoutFin, Draft, ChildKey, Parts;
    if t.pc.GateWrite? {
      WriteBackIsNoOp(log, t.pc.held, |log|);
    } else if t.pc.AddFin? {
      UpdateKeepsForeign(log, parent, t.me, WithFin(parent, t.me), k);
    } else if t.pc.DropFin? {
      UpdateKeepsForeign(log, parent, t.me, WithoutFin(parent, t.me), k);
    }
  }

  lemma UpdateKeepsForeign(log: seq<Store>, parent: Key, me: Obj, o: Obj, k: Key)
    requires Historic(log) && Mirrors(log, parent, me) && Managed(parent.kind)
    requires o == WithFin(parent, me) || o == WithoutFin(parent, me)
    ensures KeepsForeign(Live(log), Apply(Live(log), UpdateRequest(Live(log), parent, o, |log|)), k)
  {
    hide Besides, RemoveAll;
    if Current(Live(log), parent, me) {
      CurrentIsLive(log, parent, me);
      RemoveAllIsBesides(me.finalizers, Finalizer(parent.kind));
      BesidesTwice(me.finalizers, Finalizer(parent.kind));
      NoneIsNone(Finalizer(parent.kind));
    }
  }

  lemma NoneIsNone(x: string)
    ensures Besides([], x) == []
  {
  }

  lemma EffectKeepsForeign(s: State, a: Action, k: Key)
    requires s.log != [] && Enabled(s, a) && !a.Call? && Traced(s.log, |s.log| - 1, |s.log| - 1, a.key)
    ensures KeepsForeign(Live(s.log), Apply(Live(s.log), Effect(s, a)), k)
  {
  }

  lemma StepKeepsForeign(s: State, a: Action, k: Key)
    requires Inv(s) && s.log != []
    ensures KeepsForeign(Live(s.log), Live(Step(s, a).log), k)
  {
    hide Step, KeepsForeign, ThreadOK, Guarded, Provenance;
    if !Enabled(s, a) {
      Unmoved(s, a, k);
    } else {
      StepWrites(s, a);
      if !a.Call? {
        assert Traced(s.log, |s.log| - 1, |s.log| - 1, a.key);
        EffectKeepsForeign(s, a, k);
      } else if a.out == Error {
        SameKeepsForeign(Live(s.log), k);
      } else {
        ThreadKnows(s, a.key);
        RequestKeepsForeign(s.log, a.key, s.running[a.key], k);
      }
    }
  }

  lemma Unmoved(s: State, a: Action, k: Key)
    requires s.log != [] && !Enabled(s, a)
    ensures KeepsForeign(Live(s.log), Live(Step(s, a).log), k)
  {
  }

  lemma SameKeepsForeign(st: Store, k: Key)
    ensures KeepsForeign(st, st, k)
  {
  }

  lemma ThreadKnows(s: State, parent: Key)
    requires Inv(s) && s.log != [] && parent in s.running
    ensures var t := s.running[parent];
            Managed(parent.kind) && Mirrors(s.log, parent, t.me) && (t.pc.GateWrite? ==> HeldOK(s.log, t.pc.held))
  {
    assert ThreadOK(s, parent, s.running[parent]);
  }

  /** No step of any run takes away the finalizer of someone else: as long as an object has one, the incarnation
      stays, and all of them stay in their order, whatever its own controller adds or drops. */
  lemma {:induction false} ForeignFinalizersStay(acts: seq<Action>, i: nat, j: nat, k: Key)
    requires i <= j < |Versions(acts)|
    ensures KeepsForeign(Versions(acts)[i], Versions(acts)[j], k)
  {
    hide Step, Inv, Foreign;
    if i == j {
      SameKeepsForeign(Versions(acts)[i], k);
    } else {
      var init, a := acts[..|acts| - 1], acts[|acts| - 1];
      RunReleased(init);
      var s := Run(EMPTY, init);
      StepGrows(s, a);
      StepAddsOne(s, a);
      if j < |s.log| {
        ForeignFinalizersStay(init, i, j, k);
      } else {
        ForeignFinalizersStay(init, i, |s.log| - 1, k);
        StepKeepsForeign(s, a, k);
      }
    }
  }

  lemma StepAddsOne(s: State, a: Action)
    requires s.log != []
    ensures |Step(s, a).log| <= |s.log| + 1
  {
  }

  /** What a controller's call removes: an object leaves the store exactly if it is the one whose finalizer the call
      drops, the call is not refused, and its list holds nothing but that finalizer. */
  lemma RemovesExactly(s: State, a: Action, k: Key)
    requires Inv(s) && s.log != [] && Enabled(s, a) && a.Call? && k in Live(s.log)
    ensures k !in Live(Step(s, a).log) <==>
              && a.key == k && s.running[k].pc.DropFin? && a.out != Error
              && Live(s.log)[k].rv == s.running[k].me.rv
              && forall x :: x in Live(s.log)[k].finalizers ==> x == Finalizer(k.kind)
  {
    hide Step, ThreadOK, Guarded, Provenance;
    StepWrites(s, a);
    ThreadKnows(s, a.key);
    if a.out != Error {
      RequestRemoves(s, a.key, k);
    }
  }

  lemma RequestRemoves(s: State, parent: Key, k: Key)
    requires Inv(s) && s.log != [] && parent in s.running && k in Live(s.log)
    ensures var t := s.running[parent];
            k !in Apply(Live(s.log), Request(s.log, parent, t)) <==>
              && parent == k && t.pc.DropFin? && Live(s.log)[k].rv == t.me.rv
              && forall x :: x in Live(s.log)[k].finalizers ==> x == Finalizer(k.kind)
  {
    hide Guarded, Provenance, PointOK;
    var t := s.running[parent];
    ThreadKnows(s, parent);
    assert ThreadOK(s, parent, t);
    assert Traced(s.log, |s.log| - 1, |s.log| - 1, parent);
    if t.pc.GateWrite? {
      WriteBackIsNoOp(s.log, t.pc.held, |s.log|);
    }
    if (t.pc.AddFin? || t.pc.DropFin?) && Current(Live(s.log), parent, t.me) {
      CurrentIsLive(s.log, parent, t.me);
      RemoveAllIsBesides(t.me.finalizers, Finalizer(parent.kind));
      NothingBesides(t.me.finalizers, Finalizer(parent.kind));
    }
  }

  // ---------------------------------------------------------------- where objects come from

  lemma NewRequested(log: seq<Store>, parent: Key, t: Thread, k: Key)
    requires log != [] && k !in Live(log) && k in Apply(Live(log), Request(log, parent, t))
    ensures Apply(Live(log), Request(log, parent, t))[k].made.Some?
  {
  }

  lemma NewOutside(s: State, a: Action, k: Key)
    requires s.log != [] && Enabled(s, a)
    requires k in Live(Step(s, a).log) && k !in Live(s.log) && Live(Step(s, a).log)[k].made.None?
    ensures a.UserCreate? && a.key == k
  {
    if a.Call? {
      NewRequested(s.log, a.key, s.running[a.key], k);
    }
  }

  lemma {:induction false} OutsideOrMade(acts: seq<Action>, j: nat, k: Key)
    requires var log: seq<Store> := Versions(acts); j < |log| && k in log[j] && log[j][k].made.None?
    ensures FromOutside(acts, k)
  {
    hide Released, ThreadOK, Guarded, Provenance, Enabled, Effect, Threads;
    RunReleased(acts);
    if acts != [] {
      var init, a := acts[..|acts| - 1], acts[|acts| - 1];
      RunReleased(init);
      var s := Run(EMPTY, init);
      StepGrows(s, a);
      assert acts == init + [a];
      if j < |s.log| {
        OutsideOrMade(init, j, k);
        assert forall b :: b in init ==> b in acts;
      } else if k in Live(s.log) {
        assert Traced(Step(s, a).log, |s.log| - 1, |s.log|, k);
        assert Traced(s.log, |s.log| - 1, |s.log| - 1, k);
        LiveMadeStays(s, a, k);
        OutsideOrMade(init, |s.log| - 1, k);
        assert forall b :: b in init ==> b in acts;
      } else {
        NewOutside(s, a, k);
        assert a in acts;
      }
    }
  }

  lemma LiveMadeStays(s: State, a: Action, k: Key)
    requires Inv(s) && k in Live(s.log) && k in Live(Step(s, a).log)
    ensures Follows(Live(s.log)[k], Live(Step(s, a).log)[k])
  {
    if Enabled(s, a) {
      if a.Call? {
        ThreadTyped(s, a.key, s.running[a.key]);
      }
      EffectLegal(s, a);
    }
  }

  /** As long as nobody outside creates the one Deployment its delete branch insists on, an OrgPod never
      loses its finalizer: no controller creates that Deployment. */
  lemma OrgPodNeverReleased(acts: seq<Action>, i: nat, d: nat, parent: Key)
    requires forall a :: a in acts && a.UserCreate? ==> a.key != Key(Deployment, parent.ns, parent.name + "-pod")
    requires var log: seq<Store> := Versions(acts);
             i <= d < |log| && parent.kind == OrgPod && parent in log[i]
             && Holds(log[i], parent, log[i][parent].uid)
    ensures Holds(Versions(acts)[d], parent, Versions(acts)[i][parent].uid)
  {
    var log: seq<Store> := Versions(acts);
    RunReleased(acts);
    if !Holds(log[d], parent, log[i][parent].uid) {
      DeletionGate(acts, i, d, parent);
      var g := Gates(parent)[0];
      assert g in Gates(parent);
      var q :| 0 <= q <= d && q < |log| && g in log[q];
      DeploymentFromOutside(acts, q, g);
      assert false;
    }
  }

  /** A Deployment in the store was created by a user action: no part is one. */
  lemma DeploymentFromOutside(acts: seq<Action>, q: nat, k: Key)
    requires q < |Versions(acts)| && k in Versions(acts)[q] && k.kind == Deployment
    ensures FromOutside(acts, k)
  {
    RunReleased(acts);
    var log: seq<Store> := Versions(acts);
    assert Traced(log, q, q, k);
    assert Traced(log, log[q][k].uid, q, k);
    assert Provenance(log, log[q][k].uid, k);
    assert log[q][k].made.None?;
    OutsideOrMade(acts, q, k);
  }
}
