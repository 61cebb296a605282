/** Every step keeps the protocol invariant. */
module ProtocolProofs {
  import opened Names
  import opened ApiServer
  import opened Machine
  import opened History
  import opened Protocol

  // ---------------------------------------------------------------- facts that only grow

  lemma SeenGrows(log: seq<Store>, log': seq<Store>, c: int, c': int, k: Key)
    requires log <= log' && c <= c' && SeenBy(log, c, k)
    ensures SeenBy(log', c', k)
  {
    var q :| 0 <= q <= c && q < |log| && k in log[q];
    assert k in log'[q];
  }

  lemma PartsSeenGrows(log: seq<Store>, log': seq<Store>, c: int, c': int, parent: Key, upto: nat)
    requires log <= log' && c <= c' && PartsSeen(log, c, parent, upto)
    ensures PartsSeen(log', c', parent, upto)
  {
    forall j | 0 <= j < upto && j < |Parts(parent.kind)| && !NeedsSecret(Parts(parent.kind)[j])
      ensures SeenBy(log', c', ChildKey(parent, Parts(parent.kind)[j]))
    {
      SeenGrows(log, log', c, c', ChildKey(parent, Parts(parent.kind)[j]));
    }
  }

  lemma GatesSeenGrows(log: seq<Store>, log': seq<Store>, parent: Key, upto: nat)
    requires log <= log' && GatesSeen(log, parent, upto)
    ensures GatesSeen(log', parent, upto)
  {
    forall j | 0 <= j < upto && j < |Gates(parent)| ensures Seen(log', Gates(parent)[j]) {
      SeenGrows(log, log', |log| - 1, |log'| - 1, Gates(parent)[j]);
    }
  }

  lemma BuiltFromGrows(log: seq<Store>, log': seq<Store>, p: Part, parent: Key, uid: nat, spec: Body,
                       body: Body, secAt: nat, gen: Gen)
    requires log <= log' && BuiltFrom(log, p, parent, uid, spec, body, secAt, gen)
    ensures BuiltFrom(log', p, parent, uid, spec, body, secAt, gen)
  {
    if NeedsSecret(p) {
      assert log[secAt] == log'[secAt];
    }
  }

  lemma PointGrows(log: seq<Store>, log': seq<Store>, parent: Key, t: Thread)
    requires log <= log' && PointOK(log, parent, t)
    ensures PointOK(log', parent, t)
  {
    PartsSeenGrows(log, log', |log| - 1, |log'| - 1, parent, Passed(parent.kind, t.pc));
    GatesSeenGrows(log, log', parent, GatesPassed(parent, t.pc));
    if t.pc.Make? {
      BuiltFromGrows(log, log', Parts(parent.kind)[t.pc.part], parent, t.me.uid, t.me.body, t.pc.body,
                     t.pc.secAt, t.pc.gen);
    }
  }

  lemma ThreadGrows(s: State, s': State, parent: Key, t: Thread)
    requires s.log != [] && s.log <= s'.log && Pos(s, parent) <= Pos(s', parent)
    requires ThreadOK(s, parent, t)
    requires Creating(t.pc) ==> Holds(Live(s'.log), parent, t.me.uid)
    ensures ThreadOK(s', parent, t)
  {
    PointGrows(s.log, s'.log, parent, t);
  }

  lemma StepGrows(s: State, a: Action)
    requires Inv(s)
    ensures s.log <= Step(s, a).log
    ensures forall k :: Pos(s, k) <= Pos(Step(s, a), k)
    ensures Enabled(s, a) && !a.Sync? ==> Step(s, a).pos == s.pos
  {
  }

  lemma StepHistoric(s: State, a: Action)
    requires Inv(s)
    ensures Historic(Step(s, a).log)
  {
    if Enabled(s, a) {
      if a.Call? {
        ThreadTyped(s, a.key, s.running[a.key]);
      }
      EffectLegal(s, a);
      WriteHistoric(s.log, Effect(s, a));
    }
  }

  // ---------------------------------------------------------------- a reconcile starts

  /** A copy read from the cache that is not being deleted and has the finalizer is the live incarnation. */
  lemma ReadIsHeld(s: State, parent: Key)
    requires Inv(s) && Managed(parent.kind) && parent in Cache(s, parent)
    requires !Cache(s, parent)[parent].deleting
    requires Finalizer(parent.kind) in Cache(s, parent)[parent].finalizers
    ensures Holds(Live(s.log), parent, Cache(s, parent)[parent].uid)
  {
    assert Guarded(s, Pos(s, parent), parent);
    assert Traced(s.log, Pos(s, parent), Pos(s, parent), parent);
  }

  lemma StartOK(s: State, parent: Key, t: Thread)
    requires Inv(s) && Managed(parent.kind) && parent in Cache(s, parent)
    requires Begin(parent, Cache(s, parent)[parent]).Some?
    requires t == Thread(Pos(s, parent), |s.log| - 1, Cache(s, parent)[parent],
                         Begin(parent, Cache(s, parent)[parent]).value, None)
    ensures ThreadOK(s, parent, t)
  {
    var o := Cache(s, parent)[parent];
    assert Traced(s.log, Pos(s, parent), Pos(s, parent), parent);
    assert Traced(s.log, o.rv, Pos(s, parent), parent);
    if !o.deleting && Finalizer(parent.kind) in o.finalizers {
      ReadIsHeld(s, parent);
    }
  }

  // ---------------------------------------------------------------- a reconcile goes on

  /** An accepted finalizer write puts the copy, with the finalizer, into the store. */
  lemma AddFinWrites(log: seq<Store>, parent: Key, me: Obj)
    requires Historic(log) && Mirrors(log, parent, me) && !me.deleting && Current(Live(log), parent, me)
    ensures var sent := WithFin(parent, me);
            var c := UpdateRequest(Live(log), parent, sent, |log|);
            && c.Put? && c.key == parent && c.obj == Reply(log, c, parent, sent, Success)
            && c.obj == sent.(status := Live(log)[parent].status, rv := |log|)
  {
    CurrentIsLive(log, parent, me);
  }

  lemma AddFinOK(s: State, s': State, parent: Key, t: Thread)
    requires Historic(s.log) && ThreadOK(s, parent, t) && t.pc.AddFin? && Current(Live(s.log), parent, t.me)
    requires s'.log == Write(s.log, UpdateRequest(Live(s.log), parent, WithFin(parent, t.me), |s.log|))
    requires s'.pos == s.pos
    ensures var sent := WithFin(parent, t.me);
            var me := Reply(s.log, UpdateRequest(Live(s.log), parent, sent, |s.log|), parent, sent, Success);
            ThreadOK(s', parent, t.(me := me, pc := AfterFin(parent, me)))
  {
    AddFinWrites(s.log, parent, t.me);
    PointGrows(s.log, s'.log, parent, t);
  }

  lemma PassOne(log: seq<Store>, parent: Key, i: nat)
    requires i < |Parts(parent.kind)| && PartsSeen(log, |log| - 1, parent, i)
    requires NeedsSecret(Parts(parent.kind)[i]) || Seen(log, ChildKey(parent, Parts(parent.kind)[i]))
    ensures PartsSeen(log, |log| - 1, parent, Passed(parent.kind, NextPart(parent, i)))
  {
  }

  /** A status write leaves the copy a mirror of the version the server answered with, or of the old one. */
  lemma StatusMirrors(log: seq<Store>, parent: Key, sent: Obj, out: Outcome)
    requires Historic(log) && Mirrors(log, parent, sent)
    ensures var c := if out == Error then Same else StatusRequest(Live(log), parent, sent, |log|);
            var me := Reply(log, StatusRequest(Live(log), parent, sent, |log|), parent, sent, out);
            && Mirrors(Write(log, c), parent, me) && me.uid == sent.uid && me.deleting == sent.deleting
            && me.finalizers == sent.finalizers && me.body == sent.body
  {
    assert Traced(log, |log| - 1, |log| - 1, parent);
    if Current(Live(log), parent, sent) {
      CurrentIsLive(log, parent, sent);
    }
  }

  lemma StatusOK(s: State, parent: Key, t: Thread, sent: Obj, pc: PC, out: Outcome, s': State)
    requires Historic(s.log) && ThreadOK(s, parent, t) && Creating(t.pc)
    requires sent == t.me.(status := sent.status)
    requires s'.log == Write(s.log, if out == Error then Same else StatusRequest(Live(s.log), parent, sent, |s.log|))
    requires s'.pos == s.pos
    requires pc.SetInit? || pc.Done? || (pc.Look? && pc.part < |Parts(parent.kind)|)
    requires PartsSeen(s.log, |s.log| - 1, parent, Passed(parent.kind, pc))
    requires Holds(Live(s'.log), parent, t.me.uid)
    ensures var me := Reply(s.log, StatusRequest(Live(s.log), parent, sent, |s.log|), parent, sent, out);
            ThreadOK(s', parent, t.(me := me, pc := pc))
  {
    StatusMirrors(s.log, parent, sent, out);
    PartsSeenGrows(s.log, s'.log, |s.log| - 1, |s'.log| - 1, parent, Passed(parent.kind, pc));
  }

  /** The copy a status call sends and the position after it. */
  function Sent(parent: Key, t: Thread): Obj {
    if t.pc.SetName? then Named(parent, t.me) else if t.pc.SetInit? then Initiating(parent, t.me) else Ready(t.me)
  }

  function AfterStatus(parent: Key, t: Thread, me: Obj): PC {
    if t.pc.SetName? then AfterName(parent, me) else if t.pc.SetReady? then NextPart(parent, t.pc.part) else Look(0)
  }

  lemma AfterStatusOK(log: seq<Store>, parent: Key, t: Thread, me: Obj)
    requires Managed(parent.kind) && PointOK(log, parent, t) && (t.pc.SetName? || t.pc.SetInit? || t.pc.SetReady?)
    ensures var pc := AfterStatus(parent, t, me);
            && (pc.SetInit? || pc.Done? || (pc.Look? && pc.part < |Parts(parent.kind)|))
            && PartsSeen(log, |log| - 1, parent, Passed(parent.kind, pc))
  {
  }

  lemma SetCallOK(s: State, s': State, parent: Key, t: Thread, out: Outcome)
    requires Historic(s.log) && ThreadOK(s, parent, t) && (t.pc.SetName? || t.pc.SetInit? || t.pc.SetReady?)
    requires s'.log == Write(s.log, if out == Error then Same else Request(s.log, parent, t)) && s'.pos == s.pos
    requires Holds(Live(s'.log), parent, t.me.uid)
    ensures var me := Reply(s.log, Request(s.log, parent, t), parent, Sent(parent, t), out);
            ThreadOK(s', parent, t.(me := me, pc := AfterStatus(parent, t, me)))
  {
    var me := Reply(s.log, Request(s.log, parent, t), parent, Sent(parent, t), out);
    AfterStatusOK(s.log, parent, t, me);
    StatusOK(s, parent, t, Sent(parent, t), AfterStatus(parent, t, me), out, s');
  }

  /** Moving on within the creation phase needs only the facts about the new position. */
  lemma MoveOn(s: State, parent: Key, t: Thread, pc: PC)
    requires s.log != [] && ThreadOK(s, parent, t) && Creating(t.pc) && Creating(pc)
    requires PointOK(s.log, parent, t.(pc := pc))
    ensures ThreadOK(s, parent, t.(pc := pc))
  {
  }

  lemma FoundPoint(log: seq<Store>, parent: Key, t: Thread, i: nat)
    requires log != [] && PointOK(log, parent, t) && t.pc == Look(i)
    requires Seen(log, ChildKey(parent, Parts(parent.kind)[i]))
    ensures PointOK(log, parent, t.(pc := NextPart(parent, i)))
    ensures PointOK(log, parent, t.(pc := SetReady(i)))
  {
    PassOne(log, parent, i);
  }

  lemma MissingPoint(log: seq<Store>, parent: Key, t: Thread, i: nat, gen: Gen)
    requires log != [] && PointOK(log, parent, t) && t.pc == Look(i)
    ensures var p := Parts(parent.kind)[i];
            if NeedsSecret(p) then PointOK(log, parent, t.(pc := ReadSecret(i)))
            else PointOK(log, parent, t.(pc := Make(i, Build(p, parent, t.me.body, Other, gen), 0, gen)))
  {
  }

  lemma LookOK(s: State, parent: Key, t: Thread, gen: Gen)
    requires s.log != [] && ThreadOK(s, parent, t) && t.pc.Look?
    ensures ThreadOK(s, parent, Looked(s, parent, t, gen))
  {
    var i := t.pc.part;
    var k := ChildKey(parent, Parts(parent.kind)[i]);
    if k in Cache(s, k) {
      assert Seen(s.log, k);
      FoundPoint(s.log, parent, t, i);
    } else {
      MissingPoint(s.log, parent, t, i, gen);
    }
    MoveOn(s, parent, t, Looked(s, parent, t, gen).pc);
  }

  lemma SecretReadOK(s: State, parent: Key, t: Thread, out: Outcome, gen: Gen)
    requires s.log != [] && ThreadOK(s, parent, t) && t.pc.ReadSecret?
    ensures ThreadOK(s, parent, SecretRead(s, parent, t, out, gen))
  {
    hide Mirrors, Holds, HeldOK, GatesSeen, Gates, Build;
    var i := t.pc.part;
    PassOne(s.log, parent, i);
    if out == Success && ChildKey(parent, SecretPart) in Live(s.log) {
      var k := ChildKey(parent, SecretPart);
      assert SecretBody(s.log, Parts(parent.kind)[i], parent, |s.log| - 1) == Live(s.log)[k].body;
    }
  }

  lemma MadeOK(s: State, s': State, parent: Key, t: Thread)
    requires s.log != [] && ThreadOK(s, parent, t) && t.pc.Make?
    requires s.log <= s'.log && Pos(s, parent) <= Pos(s', parent)
    requires Holds(Live(s'.log), parent, t.me.uid)
    requires ChildKey(parent, Parts(parent.kind)[t.pc.part]) in Live(s'.log)
    ensures ThreadOK(s', parent, t.(pc := NextPart(parent, t.pc.part)))
  {
    ThreadGrows(s, s', parent, t);
    var k := ChildKey(parent, Parts(parent.kind)[t.pc.part]);
    assert k in s'.log[|s'.log| - 1];
    assert Seen(s'.log, k);
    PassOne(s'.log, parent, t.pc.part);
  }

  lemma MakeOK(s: State, parent: Key, out: Outcome, gen: Gen)
    requires Inv(s) && parent in s.running && s.running[parent].pc.Make?
    requires Resume(s, parent, s.running[parent], out, gen).Some?
    ensures ThreadOK(Step(s, Call(parent, out, gen)), parent, Resume(s, parent, s.running[parent], out, gen).value)
  {
    var t := s.running[parent];
    var a := Call(parent, out, gen);
    StepGrows(s, a);
    assert ThreadOK(s, parent, t);
    StepKeepsFin(s, a, parent, t.me.uid);
    MadeLands(s, parent, t, out, gen);
    hide Resume, Effect, Guarded, Provenance, Traced;
    MadeOK(s, Step(s, a), parent, t);
  }

  lemma MadeLands(s: State, parent: Key, t: Thread, out: Outcome, gen: Gen)
    requires s.log != [] && parent in s.running && t == s.running[parent] && t.pc.Make?
    requires t.pc.part < |Parts(parent.kind)| && Resume(s, parent, t, out, gen).Some?
    ensures Resume(s, parent, t, out, gen) == Some(t.(pc := NextPart(parent, t.pc.part)))
    ensures ChildKey(parent, Parts(parent.kind)[t.pc.part]) in Live(Step(s, Call(parent, out, gen)).log)
  {
    hide Parts, Draft, ChildKey;
  }

  lemma PassGate(log: seq<Store>, parent: Key, i: nat)
    requires i < |Gates(parent)| && GatesSeen(log, parent, i + 1)
    ensures GatesSeen(log, parent, GatesPassed(parent, NextGate(parent, i)))
  {
  }

  lemma CachedHeld(s: State, k: Key)
    requires Historic(s.log) && k in Cache(s, k)
    ensures HeldOK(s.log, Held(k, Cache(s, k)[k])) && Seen(s.log, k)
  {
    var o := Cache(s, k)[k];
    assert Traced(s.log, Pos(s, k), Pos(s, k), k);
    assert Traced(s.log, o.rv, Pos(s, k), k);
  }

  lemma GateLookOK(s: State, parent: Key, t: Thread)
    requires Historic(s.log) && ThreadOK(s, parent, t) && t.pc.GateLook? && t.pc.gate < |Gates(parent)|
    requires GateLooked(s, parent, t).Some?
    ensures ThreadOK(s, parent, GateLooked(s, parent, t).value)
  {
    var i := t.pc.gate;
    var k := Gates(parent)[i];
    CachedHeld(s, k);
    var t' := GateLooked(s, parent, t).value;
    assert HeldOK(s.log, t'.pc.held);
    assert t'.pvc.Some? ==> HeldOK(s.log, t'.pvc.value);
    OpenGate(s, parent, t, t', i);
  }

  lemma OpenGate(s: State, parent: Key, t: Thread, t': Thread, i: nat)
    requires s.log != [] && ThreadOK(s, parent, t) && t.pc == GateLook(i) && i < |Gates(parent)|
    requires Seen(s.log, Gates(parent)[i])
    requires t'.pc.GateWrite? && t'.pc.gate == i && HeldOK(s.log, t'.pc.held)
    requires t' == t.(pc := t'.pc, pvc := t'.pvc) && (t'.pvc.Some? ==> HeldOK(s.log, t'.pvc.value))
    ensures ThreadOK(s, parent, t')
  {
    hide Gates, Parts, Mirrors, HeldOK, PartsSeen, BuiltFrom;
    assert GatesSeen(s.log, parent, i + 1);
  }

  lemma GateWriteOK(s: State, parent: Key, t: Thread)
    requires Historic(s.log) && ThreadOK(s, parent, t) && t.pc.GateWrite?
    ensures Request(s.log, parent, t).Same?
    ensures ThreadOK(s, parent, t.(pc := NextGate(parent, t.pc.gate)))
  {
    WriteBackIsNoOp(s.log, t.pc.held, |s.log|);
    if t.pc.gate < |Gates(parent)| {
      PassGate(s.log, parent, t.pc.gate);
    }
  }

  lemma NoWriteStep(s: State, parent: Key, out: Outcome, gen: Gen)
    requires s.log != [] && parent in s.running && Request(s.log, parent, s.running[parent]).Same?
    ensures Step(s, Call(parent, out, gen)).log == s.log && Step(s, Call(parent, out, gen)).pos == s.pos
  {
  }

  lemma QuietThreadOK(s: State, parent: Key, t: Thread, out: Outcome, gen: Gen)
    requires Historic(s.log) && ThreadOK(s, parent, t)
    requires t.pc.Look? || t.pc.ReadSecret? || t.pc.GateLook? || t.pc.GateWrite?
    requires Resume(s, parent, t, out, gen).Some?
    ensures Request(s.log, parent, t).Same?
    ensures ThreadOK(s, parent, Resume(s, parent, t, out, gen).value)
  {
    if t.pc.Look? {
      LookOK(s, parent, t, gen);
    } else if t.pc.ReadSecret? {
      SecretReadOK(s, parent, t, out, gen);
    } else if t.pc.GateLook? {
      GateLookOK(s, parent, t);
    } else {
      GateWriteOK(s, parent, t);
    }
  }

  lemma ResumeOK(s: State, parent: Key, out: Outcome, gen: Gen)
    requires Inv(s) && parent in s.running
    requires Resume(s, parent, s.running[parent], out, gen).Some?
    ensures ThreadOK(Step(s, Call(parent, out, gen)), parent, Resume(s, parent, s.running[parent], out, gen).value)
  {
    hide PointOK, Mirrors, Provenance, Guarded, Traced;
    var pc := s.running[parent].pc;
    if pc.AddFin? {
      AddFinOK(s, Step(s, Call(parent, out, gen)), parent, s.running[parent]);
    } else if pc.SetName? || pc.SetInit? || pc.SetReady? {
      StepKeepsFin(s, Call(parent, out, gen), parent, s.running[parent].me.uid);
      SetCallOK(s, Step(s, Call(parent, out, gen)), parent, s.running[parent], out);
    } else if pc.Make? {
      MakeOK(s, parent, out, gen);
    } else {
      QuietResumeOK(s, parent, out, gen);
    }
  }

  lemma QuietResumeOK(s: State, parent: Key, out: Outcome, gen: Gen)
    requires Historic(s.log) && parent in s.running && ThreadOK(s, parent, s.running[parent])
    requires Resume(s, parent, s.running[parent], out, gen).Some?
    requires var pc := s.running[parent].pc; pc.Look? || pc.ReadSecret? || pc.GateLook? || pc.GateWrite?
    ensures ThreadOK(Step(s, Call(parent, out, gen)), parent, Resume(s, parent, s.running[parent], out, gen).value)
  {
    hide PointOK, Mirrors, Traced, Resume, Request, Step;
    var t := s.running[parent];
    QuietThreadOK(s, parent, t, out, gen);
    NoWriteStep(s, parent, out, gen);
    ThreadGrows(s, Step(s, Call(parent, out, gen)), parent, Resume(s, parent, t, out, gen).value);
  }

  // ---------------------------------------------------------------- the invariant is kept

  /** A reconcile other than the acting one is not disturbed. */
  lemma OthersOK(s: State, a: Action, parent: Key)
    requires Inv(s) && Enabled(s, a) && parent in s.running && (a.Call? ==> a.key != parent)
    ensures ThreadOK(Step(s, a), parent, s.running[parent])
  {
    var t := s.running[parent];
    StepGrows(s, a);
    if Creating(t.pc) {
      StepKeepsFin(s, a, parent, t.me.uid);
    }
    ThreadGrows(s, Step(s, a), parent, t);
  }

  lemma StepThread(s: State, a: Action, parent: Key)
    requires Inv(s) && Enabled(s, a) && parent in Step(s, a).running
    ensures ThreadOK(Step(s, a), parent, Step(s, a).running[parent])
  {
    hide Guarded, Provenance, Mirrors, PhaseOK, PointOK;
    if a.Call? && a.key == parent {
      ResumeOK(s, parent, a.out, a.gen);
    } else if a.Start? && a.key == parent && parent !in s.running {
      StartOK(s, parent, Step(s, a).running[parent]);
    } else {
      OthersOK(s, a, parent);
    }
  }

  /** When a reconcile is about to drop the finalizer, its cache is past the deletion and all gates were seen. */
  lemma DropIsLate(s: State, parent: Key)
    requires Inv(s) && parent in s.running && s.running[parent].pc.DropFin?
    ensures PastDeletion(s.log, Pos(s, parent), parent, s.running[parent].me.uid)
    ensures GatesSeen(s.log, parent, |Gates(parent)|)
  {
    var t := s.running[parent];
    assert ThreadOK(s, parent, t);
    assert Traced(s.log, t.at, Pos(s, parent), parent);
    assert Traced(s.log, t.at, t.at, parent);
  }

  lemma PastDeletionGrows(log: seq<Store>, log': seq<Store>, p: nat, p': nat, parent: Key, uid: nat)
    requires Historic(log') && log <= log' && p <= p' < |log'| && PastDeletion(log, p, parent, uid)
    ensures PastDeletion(log', p', parent, uid)
  {
    assert Traced(log', p, p', parent);
  }

  lemma StepGuarded(s: State, a: Action, i: int, parent: Key)
    requires Inv(s) && Enabled(s, a)
    ensures Guarded(Step(s, a), i, parent)
  {
    hide ThreadOK, Provenance, Traced;
    var s' := Step(s, a);
    StepGrows(s, a);
    StepHistoric(s, a);
    if 0 <= i < |s'.log| && Managed(parent.kind) && parent in s'.log[i]
       && Holds(s'.log[i], parent, s'.log[i][parent].uid) && i < |s.log| {
      var uid := s.log[i][parent].uid;
      assert Guarded(s, i, parent);
      if Holds(Live(s.log), parent, uid) {
        if Drops(s, a, parent, uid) {
          DropIsLate(s, parent);
          GatesSeenGrows(s.log, s'.log, parent, |Gates(parent)|);
          PastDeletionGrows(s.log, s'.log, Pos(s, parent), Pos(s', parent), parent, uid);
        } else {
          StepKeepsFin(s, a, parent, uid);
        }
      } else {
        GatesSeenGrows(s.log, s'.log, parent, |Gates(parent)|);
        PastDeletionGrows(s.log, s'.log, Pos(s, parent), Pos(s', parent), parent, uid);
      }
    }
  }

  lemma ProvenanceGrows(log: seq<Store>, log': seq<Store>, c: int, k: Key)
    requires log <= log' && 0 <= c < |log| && Provenance(log, c, k)
    ensures Provenance(log', c, k)
  {
    assert log[..c + 1] == log'[..c + 1];
    if k in log[c] && log[c][k].uid == c && log[c][k].made.Some? {
      var m := log[c][k].made.value;
      PartsSeenGrows(log, log', c, c, m.parent.key, m.step);
      assert log[m.seenRv] == log'[m.seenRv];
    }
  }

  /** The object a create call adds comes from the acting reconcile's parent. */
  lemma CreatedOK(s: State, s': State, parent: Key, t: Thread, k: Key)
    requires Historic(s.log) && ThreadOK(s, parent, t) && t.pc.Make?
    requires k == ChildKey(parent, Parts(parent.kind)[t.pc.part])
    requires s'.log == s.log + [Live(s.log)[k := Draft(parent, t, |s.log|)]]
    requires Holds(Live(s'.log), parent, t.me.uid)
    ensures Provenance(s'.log, |s.log|, k)
  {
    hide PhaseOK, GatesSeen, Build, PartsSeen, BuiltFrom;
    var c := |s.log|;
    assert Traced(s.log, c - 1, c - 1, parent);
    CreatedFrom(s.log, s'.log, parent, t);
    assert s'.log[..c + 1] == s'.log;
  }

  lemma CreatedFrom(log: seq<Store>, log': seq<Store>, parent: Key, t: Thread)
    requires log != [] && PointOK(log, parent, t) && t.pc.Make? && log <= log' && |log'| == |log| + 1
    ensures PartsSeen(log', |log|, parent, t.pc.part)
    ensures BuiltFrom(log', Parts(parent.kind)[t.pc.part], parent, t.me.uid, t.me.body, t.pc.body, t.pc.secAt, t.pc.gen)
  {
    hide PartsSeen, BuiltFrom, GatesSeen;
    PartsSeenGrows(log, log', |log| - 1, |log|, parent, t.pc.part);
    BuiltFromGrows(log, log', Parts(parent.kind)[t.pc.part], parent, t.me.uid, t.me.body, t.pc.body, t.pc.secAt, t.pc.gen);
  }

  lemma StepProvenance(s: State, a: Action, c: int, k: Key)
    requires Inv(s) && Enabled(s, a)
    ensures Provenance(Step(s, a).log, c, k)
  {
    hide Step;
    var s' := Step(s, a);
    StepGrows(s, a);
    StepWrites(s, a);
    if 0 <= c < |s.log| {
      assert Provenance(s.log, c, k);
      ProvenanceGrows(s.log, s'.log, c, k);
    } else if c == |s.log| < |s'.log| && k in s'.log[c] && s'.log[c][k].uid == c && s'.log[c][k].made.Some? {
      assert Traced(s.log, c - 1, c - 1, k);
      NewIsDraft(s, a, k);
      var parent := a.key;
      var t := s.running[parent];
      StepKeepsFin(s, a, parent, t.me.uid);
      CreatedOK(s, s', parent, t, k);
    }
  }

  /** The version a step adds, if it adds one. */
  lemma StepWrites(s: State, a: Action)
    requires s.log != [] && Enabled(s, a)
    ensures Step(s, a).log == Write(s.log, Effect(s, a))
  {
  }

  predicate NewlyMade(live: Store, c: Change, k: Key, n: nat) {
    var st := Apply(live, c);
    k in st && st[k].uid == n && st[k].made.Some? && (k in live ==> live[k].uid < n)
  }

  lemma NewlyMadeByRequest(log: seq<Store>, parent: Key, t: Thread, k: Key)
    requires log != [] && NewlyMade(Live(log), Request(log, parent, t), k, |log|)
    ensures t.pc.Make? && t.pc.part < |Parts(parent.kind)|
    ensures k == ChildKey(parent, Parts(parent.kind)[t.pc.part])
    ensures Request(log, parent, t) == Put(k, Draft(parent, t, |log|))
  {
  }

  lemma NewlyMadeByEffect(s: State, a: Action, k: Key)
    requires s.log != [] && Enabled(s, a) && NewlyMade(Live(s.log), Effect(s, a), k, |s.log|)
    ensures a.Call? && a.out != Error
  {
  }

  /** Only a create call of a reconcile makes an object with a creator. */
  lemma NewIsDraft(s: State, a: Action, k: Key)
    requires Inv(s) && Enabled(s, a)
    requires |Step(s, a).log| == |s.log| + 1
    requires k in Step(s, a).log[|s.log|] && Step(s, a).log[|s.log|][k].uid == |s.log|
    requires Step(s, a).log[|s.log|][k].made.Some?
    requires k in Live(s.log) ==> Live(s.log)[k].uid < |s.log|
    ensures a.Call? && s.running[a.key].pc.Make? && ThreadOK(s, a.key, s.running[a.key])
    ensures k == ChildKey(a.key, Parts(a.key.kind)[s.running[a.key].pc.part])
    ensures Step(s, a).log == s.log + [Live(s.log)[k := Draft(a.key, s.running[a.key], |s.log|)]]
  {
    StepWrites(s, a);
    NewlyMadeByEffect(s, a, k);
    NewlyMadeByRequest(s.log, a.key, s.running[a.key], k);
  }

  lemma StepInv(s: State, a: Action)
    requires Inv(s)
    ensures Inv(Step(s, a))
  {
    if Enabled(s, a) {
      var s' := Step(s, a);
      StepHistoric(s, a);
      forall k | k in s'.running ensures ThreadOK(s', k, s'.running[k]) {
        StepThread(s, a, k);
      }
      forall i, k ensures Guarded(s', i, k) {
        StepGuarded(s, a, i, k);
      }
      forall c, k ensures Provenance(s'.log, c, k) {
        StepProvenance(s, a, c, k);
      }
    }
  }

  /** The invariant holds after every run: any users, any interleaving, stale caches, failures, crashes. */
  lemma {:induction false} RunInv(s: State, acts: seq<Action>)
    requires Inv(s)
    ensures Inv(Run(s, acts))
  {
    if acts != [] {
      RunInv(s, acts[..|acts| - 1]);
      StepInv(Run(s, acts[..|acts| - 1]), acts[|acts| - 1]);
    }
  }

  lemma EmptyInv()
    ensures Inv(EMPTY)
  {
  }
}
