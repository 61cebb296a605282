/** The delete branch on fresh reads and without faults: the finalizer is dropped exactly if every resource the
    branch looks up is in the store. */
module Deletion {
  import opened Names
  import opened ApiServer
  import opened Machine
  import opened Protocol
  import opened ProtocolProofs
  import opened Liveness
  import opened Confluence
  import opened Solitude

  /** Every resource the delete branch looks up is there. */
  predicate AllGates(st: Store, key: Key) {
    forall g :: g in Gates(key) ==> g in st
  }

  /** The incarnation is marked for deletion and still holds its finalizer. */
  predicate Marked(st: Store, key: Key, uid: nat) {
    Holds(st, key, uid) && st[key].deleting
  }

  /** The reconcile works on the live object and has found every resource it has passed. */
  ghost predicate Checking(st: Store, key: Key, t: Thread) {
    && key in st && t.me == st[key] && GateBranch(t.pc)
    && (t.pc.GateLook? || t.pc.GateWrite? ==> t.pc.gate < |Gates(key)|)
    && (forall j :: 0 <= j < GatesPassed(key, t.pc) && j < |Gates(key)| ==> Gates(key)[j] in st)
  }

  /** Either nothing has changed, and with all resources there the reconcile is still at it; or all were
      there and the finalizer is gone. */
  ghost predicate DeleteInv(base: Store, s: State, key: Key, uid: nat) {
    && Inv(s) && Marked(base, key, uid) && Managed(key.kind)
    && (|| (Live(s.log) == base && (key in s.running ==> Checking(base, key, s.running[key]))
            && (AllGates(base, key) ==> key in s.running))
        || (AllGates(base, key) && key !in s.running && Live(s.log) - {key} == base - {key}
            && LetGo(base, Live(s.log), key)))
  }

  /** The object is gone if its list held nothing but its controller's finalizer; otherwise it is still there, marked,
      with the finalizers of others in their order. */
  predicate LetGo(a: Store, b: Store, key: Key)
    requires key in a
  {
    if forall x :: x in a[key].finalizers ==> x == Finalizer(key.kind) then key !in b
    else
      && key in b && b[key].uid == a[key].uid && b[key].deleting && b[key].body == a[key].body
      && b[key].finalizers == Besides(a[key].finalizers, Finalizer(key.kind))
  }

  lemma LookAtGate(base: Store, s: State, key: Key, uid: nat, gen: Gen)
    requires DeleteInv(base, s, key, uid) && key in s.running && s.running[key].pc.GateLook? && LooksFresh(s, key)
    ensures DeleteInv(base, Step(s, Call(key, Success, gen)), key, uid)
  {
    hide Gates, Inv, Looked, SecretRead;
    StepInv(s, Call(key, Success, gen));
    var t := s.running[key];
    assert s.log != [] && Checking(base, key, t) by {
      NotEmpty(s);
    }
    var g := Gates(key)[t.pc.gate];
    assert SameAt(Cache(s, g), Live(s.log), g);
    var s' := Step(s, Call(key, Success, gen));
    assert s'.log == s.log;
    if g in base {
      assert s'.running[key] == Opened(key, t, Cache(s, g)[g]);
    }
  }

  lemma NotEmpty(s: State)
    requires Inv(s)
    ensures s.log != []
  {
  }

  lemma PassGateWrite(base: Store, s: State, key: Key, uid: nat, gen: Gen)
    requires DeleteInv(base, s, key, uid) && key in s.running && s.running[key].pc.GateWrite?
    ensures DeleteInv(base, Step(s, Call(key, Success, gen)), key, uid)
  {
    hide Step, Inv, AllGates, Gates, Holds;
    StepInv(s, Call(key, Success, gen));
    assert s.log != [] by { InvHasLog(s); }
    GateWriteMoves(s, key, gen);
  }

  lemma InvHasLog(s: State)
    requires Inv(s)
    ensures s.log != []
  {
  }

  lemma GateWriteMoves(s: State, key: Key, gen: Gen)
    requires Inv(s) && s.log != [] && key in s.running && s.running[key].pc.GateWrite?
    ensures var s' := Step(s, Call(key, Success, gen)); var t := s.running[key];
            s'.log == s.log && s'.running == s.running[key := t.(pc := NextGate(key, t.pc.gate))]
  {
    hide PhaseOK, PartsSeen, GatesSeen, BuiltFrom, Mirrors, Gates, Guarded, Provenance;
    assert ThreadOK(s, key, s.running[key]);
    WriteBackIsNoOp(s.log, s.running[key].pc.held, |s.log|);
  }

  lemma Drop(base: Store, s: State, key: Key, uid: nat, gen: Gen)
    requires DeleteInv(base, s, key, uid) && key in s.running && s.running[key].pc.DropFin?
    ensures DeleteInv(base, Step(s, Call(key, Success, gen)), key, uid)
  {
    hide Step, Inv, Gates, AllGates;
    NotEmpty(s);
    StepInv(s, Call(key, Success, gen));
    AllChecked(base, key, s.running[key]);
    DropMoves(s, key, gen);
  }

  lemma AllChecked(base: Store, key: Key, t: Thread)
    requires Checking(base, key, t) && t.pc.DropFin?
    ensures AllGates(base, key)
  {
    hide Gates;
    forall g | g in Gates(key) ensures g in base {
      var n :| 0 <= n < |Gates(key)| && Gates(key)[n] == g;
      assert Gates(key)[n] in base;
    }
  }

  lemma DropMoves(s: State, key: Key, gen: Gen)
    requires s.log != [] && key in s.running && s.running[key].pc.DropFin?
    requires key in Live(s.log) && s.running[key].me == Live(s.log)[key] && Live(s.log)[key].deleting
    requires Finalizer(key.kind) in Live(s.log)[key].finalizers
    ensures var s' := Step(s, Call(key, Success, gen));
            key !in s'.running && LetGo(Live(s.log), Live(s'.log), key) && Live(s'.log) - {key} == Live(s.log) - {key}
  {
    hide Gates, RemoveAll, Besides, ChildKey, Parts;
    var me, own := s.running[key].me, Finalizer(key.kind);
    RemoveAllIsBesides(me.finalizers, own);
    NothingBesides(me.finalizers, own);
    assert own !in Besides(me.finalizers, own);
    assert Live(Step(s, Call(key, Success, gen)).log) ==
           Apply(Live(s.log), UpdateRequest(Live(s.log), key, WithoutFin(key, me), |s.log|));
  }

  lemma StartsChecking(base: Store, s: State, key: Key, uid: nat)
    requires DeleteInv(base, s, key, uid) && s.log != [] && Enabled(s, Start(key))
    requires SameAt(Cache(s, key), Live(s.log), key)
    ensures DeleteInv(base, Step(s, Start(key)), key, uid)
  {
    hide Inv;
    StepInv(s, Start(key));
    HasGates(key);
  }

  lemma HasGates(key: Key)
    requires Managed(key.kind)
    ensures |Gates(key)| > 0
  {
  }

  lemma StepDeletes(base: Store, s: State, a: Action, key: Key, uid: nat)
    requires DeleteInv(base, s, key, uid) && s.log != [] && SoloStep(s, a, key)
    ensures DeleteInv(base, Step(s, a), key, uid)
  {
    if Enabled(s, a) {
      if a.Call? {
        hide Inv, Checking, Gates;
        BranchOf(base, s, key, uid);
        if s.running[key].pc.GateLook? {
          LookAtGate(base, s, key, uid, a.gen);
        } else if s.running[key].pc.GateWrite? {
          PassGateWrite(base, s, key, uid, a.gen);
        } else {
          Drop(base, s, key, uid, a.gen);
        }
      } else if a.Start? {
        StartsChecking(base, s, key, uid);
      } else {
        StepInv(s, a);
      }
    }
  }

  lemma BranchOf(base: Store, s: State, key: Key, uid: nat)
    requires DeleteInv(base, s, key, uid) && key in s.running
    ensures GateBranch(s.running[key].pc)
  {
  }

  lemma {:induction false} RunDeletes(base: Store, s: State, acts: seq<Action>, key: Key, uid: nat)
    requires DeleteInv(base, s, key, uid) && s.log != [] && Solo(s, acts, key)
    ensures DeleteInv(base, Run(s, acts), key, uid)
  {
    hide DeleteInv, SoloStep, Step;
    if acts != [] {
      RunDeletes(base, s, acts[..|acts| - 1], key, uid);
      StepDeletes(base, Run(s, acts[..|acts| - 1]), acts[|acts| - 1], key, uid);
    }
  }

  // ---------------------------------------------------------------- theorems

  /** A reconcile has just read an object that is marked for deletion. */
  ghost predicate AtFirstGate(s: State, key: Key, uid: nat) {
    Inv(s) && Managed(key.kind) && s.log != [] && Marked(Live(s.log), key, uid)
    && key in s.running && s.running[key].pc == GateLook(0) && s.running[key].me == Live(s.log)[key]
  }

  lemma InvAtFirstGate(s: State, key: Key, uid: nat)
    requires AtFirstGate(s, key, uid)
    ensures DeleteInv(Live(s.log), s, key, uid)
  {
    hide Inv;
    HasGates(key);
  }

  /** Once the pass is over, the finalizer is gone exactly if every resource its branch looks up was in the store;
      otherwise nothing has changed. The object is gone with it exactly if no other finalizer is left; else it stays,
      with those of others in their order. No other object is touched. */
  lemma DeletionExact(s: State, acts: seq<Action>, key: Key, uid: nat)
    requires AtFirstGate(s, key, uid) && Solo(s, acts, key) && key !in Run(s, acts).running
    ensures !Holds(Live(Run(s, acts).log), key, uid) <==> AllGates(Live(s.log), key)
    ensures !AllGates(Live(s.log), key) ==> Live(Run(s, acts).log) == Live(s.log)
    ensures Live(Run(s, acts).log) - {key} == Live(s.log) - {key}
    ensures AllGates(Live(s.log), key) ==> LetGo(Live(s.log), Live(Run(s, acts).log), key)
  {
    hide Inv, Gates, Checking, Solo, Run;
    InvAtFirstGate(s, key, uid);
    RunDeletes(Live(s.log), s, acts, key, uid);
  }

  /** How many calls the delete branch is away from its end. */
  function GateDistance(key: Key, pc: PC): nat {
    match pc
    case GateLook(i) => if i < |Gates(key)| then 2 * (|Gates(key)| - i) + 1 else 0
    case GateWrite(i, _) => if i < |Gates(key)| then 2 * (|Gates(key)| - i) else 0
    case _ => 1
  }

  lemma GateAdvances(base: Store, s: State, key: Key, uid: nat, gen: Gen)
    requires DeleteInv(base, s, key, uid) && key in s.running
    ensures var s' := Step(s, Call(key, Success, gen));
            key in s'.running ==> GateDistance(key, s'.running[key].pc) < GateDistance(key, s.running[key].pc)
  {
    hide Inv, Gates, Request;
    NotEmpty(s);
  }

  lemma {:induction false} FinishDeletion(base: Store, s: State, key: Key, uid: nat) returns (acts: seq<Action>)
    requires DeleteInv(base, s, key, uid) && s.log != []
    ensures Solo(s, acts, key) && key !in Run(s, acts).running
    decreases if key in s.running then GateDistance(key, s.running[key].pc) else 0
  {
    hide Step, SoloStep, DeleteInv, GateDistance, Gates, LooksFresh;
    if key !in s.running {
      acts := [];
    } else {
      var sync := SyncAll(s, Gates(key), key);
      var s1 := Run(s, sync);
      SyncedGatesFresh(s1, key);
      RunDeletes(base, s, sync, key, uid);
      BranchOf(base, s1, key, uid);
      OnlyDeleting(s1, key);
      var call := Call(key, Success, Gen("", ""));
      GateAdvances(base, s1, key, uid, call.gen);
      CallIsSolo(s1, key, call.gen);
      StepDeletes(base, s1, call, key, uid);
      OneAction(s1, call, key);
      SoloJoin(s, sync, [call], key);
      if key !in Step(s1, call).running {
        acts := sync + [call];
      } else {
        PositiveDistance(base, s1, key, uid);
        var rest := FinishDeletion(base, Step(s1, call), key, uid);
        SoloJoin(s, sync + [call], rest, key);
        acts := sync + [call] + rest;
      }
    }
  }

  lemma OnlyDeleting(s: State, key: Key)
    requires s.log != [] && key in s.running && GateBranch(s.running[key].pc) && GatesFresh(s, key)
    ensures LooksFresh(s, key)
  {
  }

  lemma PositiveDistance(base: Store, s: State, key: Key, uid: nat)
    requires DeleteInv(base, s, key, uid) && key in s.running
    ensures GateDistance(key, s.running[key].pc) > 0
  {
    hide Gates, Inv;
  }

  /** From every state in which an object is marked for deletion and no reconcile of it is under way, a pass
      can be made; at its end the finalizer is gone exactly if every gated resource is in the store. */
  lemma DeletionFinishes(s: State, key: Key, uid: nat) returns (acts: seq<Action>)
    requires Inv(s) && s.log != [] && Managed(key.kind) && Marked(Live(s.log), key, uid) && key !in s.running
    ensures Solo(s, acts, key) && key !in Run(s, acts).running
    ensures !Holds(Live(Run(s, acts).log), key, uid) <==> AllGates(Live(s.log), key)
    ensures !AllGates(Live(s.log), key) ==> Live(Run(s, acts).log) == Live(s.log)
    ensures Live(Run(s, acts).log) - {key} == Live(s.log) - {key}
    ensures AllGates(Live(s.log), key) ==> LetGo(Live(s.log), Live(Run(s, acts).log), key)
    ensures Run(s, acts).running == s.running
  {
    hide Step, Solo, Run, AllGates, Inv, Gates;
    SyncIsSolo(s, key, |s.log| - 1, key);
    var sync := Sync(key, |s.log| - 1);
    OneAction(s, sync, key);
    SyncMoves(s, key);
    RunInv(s, [sync]);
    var s1 := Run(s, [sync]);
    StartsAtGate(s1, key, uid);
    OneAction(s1, Start(key), key);
    SoloJoin(s, [sync], [Start(key)], key);
    var s2 := Step(s1, Start(key));
    InvAtFirstGate(s2, key, uid);
    var rest := FinishDeletion(Live(s.log), s2, key, uid);
    DeletionExact(s2, rest, key, uid);
    SoloJoin(s, [sync] + [Start(key)], rest, key);
    acts := [sync] + [Start(key)] + rest;
    OthersRest(s, acts, key);
    assert Run(s, acts).running == Run(s, acts).running - {key} && s.running == s.running - {key};
  }

  lemma StartsAtGate(s: State, key: Key, uid: nat)
    requires Inv(s) && s.log != [] && Managed(key.kind) && Marked(Live(s.log), key, uid) && key !in s.running
    requires Pos(s, key) == |s.log| - 1
    ensures SoloStep(s, Start(key), key) && Step(s, Start(key)).log == s.log
    ensures AtFirstGate(Step(s, Start(key)), key, uid)
  {
    hide Inv, Gates;
    StepInv(s, Start(key));
  }
}
