/** Where a run can get stuck: gates that block deletion for good. */
module Liveness {
  import opened Names
  import opened ApiServer
  import opened Machine
  import opened History
  import opened Protocol
  import opened ProtocolProofs
  import opened Finalizers
  import opened Children

  // ---------------------------------------------------------------- deletion that never finishes

  /** The part a gate names, if it names one: the others are the OrgPod's Deployment and node-port
      Service and the volume claims. */
  function GatePart(kind: Kind, n: nat): Option<Part> {
    match kind
    case CorePod => Some(ExtPart)
    case OrgPod => if n == 2 then Some(DbPodPart) else None
    case CoreExt =>
      Some(if n == 0 then BindingPart else if n == 1 then ClusterBindingPart else if n == 2 then RolePart
           else if n == 3 then ClusterRolePart else AccountPart)
    case _ =>
      if n == 0 then Some(MysqlPart) else if n == 1 then Some(SvcPart) else if n == 2 then Some(ReadSvcPart)
      else if n == 6 then Some(CmapPart) else if n == 7 then Some(SecretPart) else if n == 8 then Some(InitDbPart)
      else if n == 9 then Some(ProxyCmapPart) else if n == 10 then Some(ProxySvcPart)
      else if n == 11 then Some(ProxyStsPart) else None
  }

  lemma GateIsPart(parent: Key, n: nat)
    requires Managed(parent.kind) && n < |Gates(parent)| && GatePart(parent.kind, n).Some?
    ensures ParentKind(GatePart(parent.kind, n).value) == parent.kind
    ensures Gates(parent)[n] == ChildKey(parent, GatePart(parent.kind, n).value)
  {
    hide ChildKey, DataClaim, ProxyClaim;
  }

  lemma GateIsOther(parent: Key, n: nat)
    requires Managed(parent.kind) && n < |Gates(parent)| && GatePart(parent.kind, n).None?
    ensures Gates(parent)[n].kind in {Deployment, PersistentVolumeClaim, Service}
    ensures Gates(parent)[n].kind == Service ==> Gates(parent)[n].name == parent.name + "-nodeport"
  {
  }

  lemma NodePortIsNoPart(x: string, y: string, p: Part)
    requires PartKind(p) == Service
    ensures x + "-nodeport" != y + Suffix(p)
  {
    assert FromEnd("-nodeport", 0) != FromEnd(Suffix(p), 0);
    DifferFromEnd(x, "-nodeport", y, Suffix(p), 0);
  }

  /** A resource some delete branch insists on is created by no other parent, except that a cluster-scoped one
      may be created by a CoreExt of the same name in another namespace. */
  lemma GateClaim(parent: Key, g: Key, other: Key, p: Part)
    requires Managed(parent.kind) && g in Gates(parent)
    requires ParentKind(p) == other.kind && ChildKey(other, p) == g
    ensures other.kind == parent.kind && other.name == parent.name
    ensures other == parent || (ClusterScoped(g.kind) && other.kind == CoreExt)
  {
    var n :| 0 <= n < |Gates(parent)| && Gates(parent)[n] == g;
    if GatePart(parent.kind, n).Some? {
      GateIsPart(parent, n);
      ChildKeyInjective(other, p, parent, GatePart(parent.kind, n).value);
    } else {
      GateIsOther(parent, n);
      if g.kind == Service {
        NodePortIsNoPart(parent.name, other.name, p);
      }
    }
  }

  /** An action by which someone else may supply the resource: a user creates it, or it is cluster-scoped and a
      CoreExt of the same name in another namespace makes a call. */
  predicate Supplies(a: Action, parent: Key, g: Key) {
    || (a.UserCreate? && a.key == g)
    || (a.Call? && ClusterScoped(g.kind) && a.key.kind == CoreExt && a.key.name == parent.name && a.key != parent)
  }

  /** The delete branch has not got past the lookup of this resource. */
  ghost predicate BeforeGate(parent: Key, pc: PC, g: Key) {
    GateBranch(pc) && forall n :: 0 <= n < |Gates(parent)| && Gates(parent)[n] == g ==> GatesPassed(parent, pc) <= n
  }

  /** The incarnation is being deleted, its cache shows so, no creating reconcile of it is left over, and
      a resource its delete branch insists on, and has not passed, is missing. */
  ghost predicate Blocked(s: State, parent: Key, uid: nat, g: Key)
    requires s.log != []
  {
    && Managed(parent.kind) && g in Gates(parent) && Absent(s, g)
    && Holds(Live(s.log), parent, uid) && Live(s.log)[parent].deleting
    && PastDeletion(s.log, Pos(s, parent), parent, uid)
    && (parent in s.running ==> BeforeGate(parent, s.running[parent].pc, g))
  }

  predicate GateBranch(pc: PC) {
    pc.GateLook? || pc.GateWrite? || pc.DropFin?
  }

  lemma NewKey(s: State, a: Action, k: Key)
    requires Inv(s) && Enabled(s, a) && k !in Live(s.log) && k in Live(Step(s, a).log)
    ensures (a.UserCreate? && a.key == k)
            || (a.Call? && s.running[a.key].pc.Make? && ThreadOK(s, a.key, s.running[a.key])
                && k == ChildKey(a.key, Parts(a.key.kind)[s.running[a.key].pc.part]))
  {
    if Live(Step(s, a).log)[k].made.None? {
      NewOutside(s, a, k);
    } else {
      if a.Call? {
        ThreadTyped(s, a.key, s.running[a.key]);
      }
      EffectLegal(s, a);
      NewIsDraft(s, a, k);
    }
  }

  lemma GateNotMade(s: State, a: Action, parent: Key, g: Key)
    requires Inv(s) && Enabled(s, a) && Managed(parent.kind) && g in Gates(parent)
    requires parent in s.running ==> GateBranch(s.running[parent].pc)
    requires g !in Live(s.log) && !Supplies(a, parent, g)
    ensures g !in Live(Step(s, a).log)
  {
    hide Gates, ChildKey, Step, Guarded, Provenance, Mirrors, PhaseOK, BuiltFrom, PartsSeen, GatesSeen;
    if g in Live(Step(s, a).log) {
      NewKey(s, a, g);
      GateClaim(parent, g, a.key, Parts(a.key.kind)[s.running[a.key].pc.part]);
      assert false;
    }
  }

  lemma StillAbsent(s: State, a: Action, parent: Key, uid: nat, g: Key)
    requires Inv(s) && Enabled(s, a) && Blocked(s, parent, uid, g)
    requires !Supplies(a, parent, g)
    ensures Absent(Step(s, a), g)
  {
    hide ThreadOK, Guarded, Provenance, Gates, Effect, Enabled, Threads;
    StepGrows(s, a);
    assert g !in s.log[|s.log| - 1];
    GateNotMade(s, a, parent, g);
  }

  /** A reconcile of an incarnation whose deletion the cache shows takes the delete branch. */
  lemma BeginsAtGates(s: State, parent: Key, uid: nat)
    requires Historic(s.log) && PastDeletion(s.log, Pos(s, parent), parent, uid)
    requires Holds(Live(s.log), parent, uid) && parent in Cache(s, parent)
    requires Begin(parent, Cache(s, parent)[parent]).Some?
    ensures Begin(parent, Cache(s, parent)[parent]) == Some(GateLook(0))
  {
    assert Traced(s.log, Pos(s, parent), |s.log| - 1, parent);
  }

  /** The lookup of a missing resource ends the reconcile; so it never gets past it. */
  lemma StaysBeforeGate(s: State, parent: Key, t: Thread, out: Outcome, gen: Gen, g: Key)
    requires s.log != [] && BeforeGate(parent, t.pc, g) && Absent(s, g) && g in Gates(parent)
    requires Resume(s, parent, t, out, gen).Some?
    ensures BeforeGate(parent, Resume(s, parent, t, out, gen).value.pc, g)
  {
    hide Gates, Request, Reply, Looked, SecretRead;
    assert g !in Cache(s, g);
  }

  lemma StillBeforeGate(s: State, a: Action, parent: Key, uid: nat, g: Key)
    requires Inv(s) && Enabled(s, a) && Blocked(s, parent, uid, g) && parent in Step(s, a).running
    ensures BeforeGate(parent, Step(s, a).running[parent].pc, g)
  {
    hide ThreadOK, Guarded, Provenance, Traced, Effect, Resume, Gates, Begin;
    if a.Call? && a.key == parent {
      StaysBeforeGate(s, parent, s.running[parent], a.out, a.gen, g);
    } else if a.Start? && a.key == parent && parent !in s.running {
      BeginsAtGates(s, parent, uid);
    }
  }

  lemma StillDeleting(s: State, a: Action, parent: Key, uid: nat, g: Key)
    requires Inv(s) && Blocked(s, parent, uid, g) && Enabled(s, a)
    ensures Holds(Live(Step(s, a).log), parent, uid) && Live(Step(s, a).log)[parent].deleting
    ensures PastDeletion(Step(s, a).log, Pos(Step(s, a), parent), parent, uid)
  {
    hide ThreadOK, Guarded, Provenance, Gates, Effect;
    var s' := Step(s, a);
    StepGrows(s, a);
    StepHistoric(s, a);
    var n :| 0 <= n < |Gates(parent)| && Gates(parent)[n] == g;
    assert !Drops(s, a, parent, uid);
    StepKeepsFin(s, a, parent, uid);
    LiveMadeStays(s, a, parent);
    PastDeletionGrows(s.log, s'.log, Pos(s, parent), Pos(s', parent), parent, uid);
  }

  lemma StepBlocked(s: State, a: Action, parent: Key, uid: nat, g: Key)
    requires Inv(s) && Blocked(s, parent, uid, g) && !Supplies(a, parent, g)
    ensures Blocked(Step(s, a), parent, uid, g)
  {
    if Enabled(s, a) {
      hide Step, Inv, Absent, PastDeletion, BeforeGate, Gates;
      StillAbsent(s, a, parent, uid, g);
      StillDeleting(s, a, parent, uid, g);
      if parent in Step(s, a).running {
        StillBeforeGate(s, a, parent, uid, g);
      }
    }
  }

  /** Nothing the controllers do can unblock a deletion that misses a resource: the finalizer stays in
      every continuation in which nobody else supplies that resource. */
  lemma {:induction false} BlockedForever(s: State, acts: seq<Action>, parent: Key, uid: nat, g: Key)
    requires Inv(s) && Blocked(s, parent, uid, g)
    requires forall a :: a in acts ==> !Supplies(a, parent, g)
    ensures Blocked(Run(s, acts), parent, uid, g) && Holds(Live(Run(s, acts).log), parent, uid)
  {
    if acts != [] {
      var init, a := acts[..|acts| - 1], acts[|acts| - 1];
      assert a in acts && forall b :: b in init ==> b in acts;
      BlockedForever(s, init, parent, uid, g);
      RunInv(s, init);
      StepBlocked(Run(s, init), a, parent, uid, g);
    }
  }

  /** Such a state is one deletion away: deleting an object while a gated resource is missing and none of its
      reconciles is under way blocks it, as soon as the cache shows the deletion. */
  lemma EarlyDeletionBlocks(s: State, parent: Key, uid: nat, g: Key)
    requires Inv(s) && Managed(parent.kind) && g in Gates(parent) && Absent(s, g)
    requires Holds(Live(s.log), parent, uid) && !Live(s.log)[parent].deleting && parent !in s.running
    ensures Blocked(Run(s, [UserDelete(parent), Sync(parent, |s.log|)]), parent, uid, g)
  {
    hide ThreadOK, Guarded, Provenance, Gates, Run;
    assert Traced(s.log, |s.log| - 1, |s.log| - 1, parent);
    RunTwo(s, UserDelete(parent), Sync(parent, |s.log|));
    var s1 := Step(s, UserDelete(parent));
    assert s1 == s.(log := s.log + [Live(s.log)[parent := Live(s.log)[parent].(deleting := true, rv := |s.log|)]]);
    var s2 := Step(s1, Sync(parent, |s.log|));
    assert Enabled(s1, Sync(parent, |s.log|));
    assert s2 == s1.(pos := s1.pos[parent := |s.log|]);
    assert g !in s.log[|s.log| - 1];
  }
}
