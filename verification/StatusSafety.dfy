/** What the status subresource can show in any run. */
module StatusSafety {
  import opened Names
  import opened ApiServer
  import opened Machine
  import opened History
  import opened Protocol
  import opened ProtocolProofs
  import opened Finalizers

  /** EMPTY, initiating, or - for a DbPod only - ready. */
  predicate Reportable(kind: Kind, name: string, s: Status) {
    && (s.name == "" || s.name == name) && s.available == 0
    && (|| (s.progress == "" && s.ready == "")
        || (HasStatus(kind) && s.progress == "Initiating" && s.ready == NotReady(kind))
        || (kind == DbPod && s.progress == "Ready" && s.ready == "1/1"))
  }

  predicate IsReady(o: Obj) {
    o.status.progress == "Ready"
  }

  /** The MySQL StatefulSet of a DbPod had an available replica in some version up to j. */
  ghost predicate WasAvailable(log: seq<Store>, j: int, db: Key) {
    var k := ChildKey(db, MysqlPart);
    exists q :: 0 <= q <= j && q < |log| && k in log[q] && log[q][k].status.available > 0
  }

  ghost predicate Reported(log: seq<Store>, j: int, k: Key) {
    0 <= j < |log| && Managed(k.kind) && k in log[j] ==>
      Reportable(k.kind, k.name, log[j][k].status) && (IsReady(log[j][k]) ==> WasAvailable(log, j, k))
  }

  ghost predicate StillReady(log: seq<Store>, j: int, k: Key) {
    0 < j < |log| && Managed(k.kind) && k in log[j - 1] && k in log[j] ==>
      (log[j - 1][k].uid == log[j][k].uid && IsReady(log[j - 1][k]) ==> IsReady(log[j][k]))
  }

  /** A local copy shows the stored progress until the reconcile has written its own. */
  ghost predicate CopyOK(log: seq<Store>, k: Key, t: Thread) {
    && Reportable(k.kind, k.name, t.me.status)
    && (t.pc.AddFin? || t.pc.SetName? || t.pc.SetInit? ==>
          t.me.rv < |log| && k in log[t.me.rv] && log[t.me.rv][k].status.progress == t.me.status.progress
          && log[t.me.rv][k].status.ready == t.me.status.ready)
    && (t.pc.SetInit? ==> !IsReady(t.me) && HasStatus(k.kind))
    && (t.pc.SetReady? ==> k.kind == DbPod && WasAvailable(log, |log| - 1, k))
  }

  ghost predicate StatusInv(s: State) {
    && (forall j, k :: Reported(s.log, j, k))
    && (forall j, k :: StillReady(s.log, j, k))
    && (forall k :: k in s.running ==> CopyOK(s.log, k, s.running[k]))
  }

  lemma AvailableGrows(log: seq<Store>, log': seq<Store>, j: int, j': int, db: Key)
    requires log <= log' && j <= j' && WasAvailable(log, j, db)
    ensures WasAvailable(log', j', db)
  {
    var k := ChildKey(db, MysqlPart);
    var q :| 0 <= q <= j && q < |log| && k in log[q] && log[q][k].status.available > 0;
    assert log'[q] == log[q];
  }

  // ---------------------------------------------------------------- one write

  /** What a write may do to the status of a managed object. */
  ghost predicate GoodStatus(log: seq<Store>, c: Change, k: Key)
    requires log != []
  {
    var live, live' := Live(log), Apply(Live(log), c);
    k in live' ==>
      if k in live then
        live'[k].status == live[k].status ||
        (Reportable(k.kind, k.name, live'[k].status)
         && (IsReady(live[k]) ==> IsReady(live'[k]))
         && (IsReady(live'[k]) ==> IsReady(live[k]) || WasAvailable(log, |log| - 1, k)))
      else live'[k].status == NO_STATUS
  }

  lemma GoodRequest(log: seq<Store>, parent: Key, t: Thread, k: Key)
    requires Historic(log) && Mirrors(log, parent, t.me) && Managed(k.kind) && CopyOK(log, parent, t)
    requires t.pc.GateWrite? ==> HeldOK(log, t.pc.held)
    ensures GoodStatus(log, Request(log, parent, t), k)
  {
    if t.pc.GateWrite? {
      WriteBackIsNoOp(log, t.pc.held, |log|);
    }
    if Current(Live(log), parent, t.me) {
      assert Traced(log, t.me.rv, |log| - 1, parent);
    }
  }

  lemma GoodEffect(s: State, a: Action, k: Key)
    requires s.log != [] && Enabled(s, a) && !a.Call? && Managed(k.kind)
    ensures GoodStatus(s.log, Effect(s, a), k)
  {
  }

  lemma StepGood(s: State, a: Action, k: Key)
    requires Inv(s) && StatusInv(s) && Enabled(s, a) && Managed(k.kind)
    ensures GoodStatus(s.log, Effect(s, a), k)
  {
    if !a.Call? {
      GoodEffect(s, a, k);
    } else if a.out != Error {
      GoodRequest(s.log, a.key, s.running[a.key], k);
    }
  }

  lemma StepReported(s: State, a: Action, j: int, k: Key)
    requires Inv(s) && StatusInv(s) && Enabled(s, a)
    ensures Reported(Step(s, a).log, j, k) && StillReady(Step(s, a).log, j, k)
  {
    hide ThreadOK, Guarded, Provenance, Effect, Traced;
    var log' := Step(s, a).log;
    StepWrites(s, a);
    StepGrows(s, a);
    if 0 <= j < |log'| && Managed(k.kind) && k in log'[j] {
      if j < |s.log| {
        assert Reported(s.log, j, k) && StillReady(s.log, j, k);
        if IsReady(log'[j][k]) {
          AvailableGrows(s.log, log', j, j, k);
        }
      } else {
        StepGood(s, a, k);
        assert Reported(s.log, j - 1, k);
        if WasAvailable(s.log, j - 1, k) {
          AvailableGrows(s.log, log', j - 1, j, k);
        }
      }
    }
  }

  // ---------------------------------------------------------------- local copies

  lemma CopyGrows(log: seq<Store>, log': seq<Store>, k: Key, t: Thread)
    requires log <= log' && CopyOK(log, k, t)
    ensures CopyOK(log', k, t)
  {
    if t.pc.SetReady? {
      AvailableGrows(log, log', |log| - 1, |log'| - 1, k);
    }
  }

  lemma StatusReply(log: seq<Store>, log': seq<Store>, c: Change, parent: Key, sent: Obj, out: Outcome)
    requires Historic(log) && Mirrors(log, parent, sent) && c == StatusRequest(Live(log), parent, sent, |log|)
    requires out == Success ==> log' == Write(log, c)
    requires log <= log'
    ensures var me := Reply(log, c, parent, sent, out);
            me.status == sent.status && me.rv < |log'| && parent in log'[me.rv]
            && (me.rv == sent.rv ==> log'[me.rv] == log[sent.rv])
            && (me.rv != sent.rv ==> log'[me.rv][parent].status == sent.status)
  {
    assert Traced(log, |log| - 1, |log| - 1, parent);
    if Current(Live(log), parent, sent) {
      assert Traced(log, sent.rv, |log| - 1, parent);
    }
  }

  lemma SetNameCopy(s: State, parent: Key, t: Thread, out: Outcome, log': seq<Store>)
    requires Historic(s.log) && Mirrors(s.log, parent, t.me) && t.pc.SetName? && CopyOK(s.log, parent, t)
    requires Managed(parent.kind) && s.log <= log'
    requires out == Success ==> log' == Write(s.log, Request(s.log, parent, t))
    ensures CopyOK(log', parent, Resume(s, parent, t, out, Gen("", "")).value)
  {
    StatusReply(s.log, log', Request(s.log, parent, t), parent, Named(parent, t.me), out);
  }

  lemma SetOtherCopy(s: State, parent: Key, t: Thread, out: Outcome, log': seq<Store>)
    requires Historic(s.log) && Mirrors(s.log, parent, t.me) && CopyOK(s.log, parent, t)
    requires t.pc.SetInit? || t.pc.SetReady?
    requires s.log <= log' && Managed(parent.kind)
    requires out == Success ==> log' == Write(s.log, Request(s.log, parent, t))
    ensures CopyOK(log', parent, Resume(s, parent, t, out, Gen("", "")).value)
  {
    if t.pc.SetInit? {
      StatusReply(s.log, log', Request(s.log, parent, t), parent, Initiating(parent, t.me), out);
    } else {
      StatusReply(s.log, log', Request(s.log, parent, t), parent, Ready(t.me), out);
    }
  }

  lemma AddFinCopy(s: State, parent: Key, t: Thread, log': seq<Store>)
    requires Historic(s.log) && Mirrors(s.log, parent, t.me) && t.pc.AddFin? && CopyOK(s.log, parent, t)
    requires Managed(parent.kind) && log' == Write(s.log, Request(s.log, parent, t))
    requires Reported(s.log, |s.log| - 1, parent)
    requires Resume(s, parent, t, Success, Gen("", "")).Some?
    ensures CopyOK(log', parent, Resume(s, parent, t, Success, Gen("", "")).value)
  {
    CurrentIsLive(s.log, parent, t.me);
    assert Traced(s.log, |s.log| - 1, |s.log| - 1, parent);
  }

  lemma LookCopy(s: State, parent: Key, t: Thread, gen: Gen)
    requires s.log != [] && t.pc.Look? && CopyOK(s.log, parent, t) && Managed(parent.kind)
    ensures CopyOK(s.log, parent, Looked(s, parent, t, gen))
  {
    var i := t.pc.part;
    if i < |Parts(parent.kind)| && Parts(parent.kind)[i] == MysqlPart {
      var k := ChildKey(parent, MysqlPart);
      if k in Cache(s, k) && Cache(s, k)[k].status.available > 0 {
        assert s.log[Pos(s, k)][k].status.available > 0;
      }
    }
  }

  lemma OtherCopy(s: State, parent: Key, t: Thread, out: Outcome, gen: Gen)
    requires s.log != [] && CopyOK(s.log, parent, t) && Managed(parent.kind)
    requires !t.pc.AddFin? && !t.pc.SetName? && !t.pc.SetInit? && !t.pc.SetReady?
    requires Resume(s, parent, t, out, gen).Some?
    ensures CopyOK(s.log, parent, Resume(s, parent, t, out, gen).value)
  {
    if t.pc.Look? {
      LookCopy(s, parent, t, gen);
    }
  }

  lemma ResumeCopy(s: State, parent: Key, t: Thread, out: Outcome, gen: Gen, log': seq<Store>)
    requires Historic(s.log) && Mirrors(s.log, parent, t.me) && CopyOK(s.log, parent, t) && Managed(parent.kind)
    requires s.log <= log' && (out == Success ==> log' == Write(s.log, Request(s.log, parent, t)))
    requires Reported(s.log, |s.log| - 1, parent)
    requires Resume(s, parent, t, out, gen).Some?
    ensures CopyOK(log', parent, Resume(s, parent, t, out, gen).value)
  {
    if t.pc.AddFin? {
      AddFinCopy(s, parent, t, log');
    } else if t.pc.SetName? {
      SetNameCopy(s, parent, t, out, log');
    } else if t.pc.SetInit? || t.pc.SetReady? {
      SetOtherCopy(s, parent, t, out, log');
    } else {
      OtherCopy(s, parent, t, out, gen);
      CopyGrows(s.log, log', parent, Resume(s, parent, t, out, gen).value);
    }
  }

  lemma StepCopy(s: State, a: Action, k: Key)
    requires Inv(s) && StatusInv(s) && Enabled(s, a) && k in Step(s, a).running
    ensures CopyOK(Step(s, a).log, k, Step(s, a).running[k])
  {
    hide CopyOK, Guarded, Provenance, PhaseOK, PointOK, Resume, Request, Reported, StillReady;
    StepGrows(s, a);
    StepWrites(s, a);
    if a.Call? && a.key == k {
      assert Reported(s.log, |s.log| - 1, k);
      ResumeCopy(s, k, s.running[k], a.out, a.gen, Step(s, a).log);
    } else if a.Start? && a.key == k && k !in s.running {
      StartCopy(s, k);
    } else {
      CopyGrows(s.log, Step(s, a).log, k, s.running[k]);
    }
  }

  lemma StartCopy(s: State, k: Key)
    requires Inv(s) && StatusInv(s) && Enabled(s, Start(k)) && k in Step(s, Start(k)).running
    ensures CopyOK(Step(s, Start(k)).log, k, Step(s, Start(k)).running[k])
  {
    assert Reported(s.log, Pos(s, k), k);
    assert Traced(s.log, Pos(s, k), Pos(s, k), k);
    var o := Cache(s, k)[k];
    assert Traced(s.log, o.rv, Pos(s, k), k);
  }

  lemma {:induction false} RunStatus(acts: seq<Action>)
    ensures Inv(Run(EMPTY, acts)) && StatusInv(Run(EMPTY, acts))
  {
    RunReleased(acts);
    if acts != [] {
      var init, a := acts[..|acts| - 1], acts[|acts| - 1];
      RunReleased(init);
      RunStatus(init);
      var s := Run(EMPTY, init);
      if Enabled(s, a) {
        forall j, k ensures Reported(Step(s, a).log, j, k) && StillReady(Step(s, a).log, j, k) {
          StepReported(s, a, j, k);
        }
        forall k | k in Step(s, a).running ensures CopyOK(Step(s, a).log, k, Step(s, a).running[k]) {
          StepCopy(s, a, k);
        }
      }
    }
  }

  // ---------------------------------------------------------------- theorems

  /** In every run a DbPod shows an empty status, Initiating 0/1 or Ready 1/1, the last only after its
      StatefulSet had an available replica; CorePods and OrgPods never show Ready. */
  lemma StatusIsReportable(acts: seq<Action>, j: nat, k: Key)
    requires j < |Versions(acts)| && k in Versions(acts)[j] && Managed(k.kind)
    ensures Reportable(k.kind, k.name, Versions(acts)[j][k].status)
    ensures IsReady(Versions(acts)[j][k]) ==> k.kind == DbPod && WasAvailable(Versions(acts), j, k)
  {
    RunStatus(acts);
    assert Reported(Run(EMPTY, acts).log, j, k);
  }

  /** Ready is never overwritten: a reconcile that still holds a copy from before it conflicts. */
  lemma {:induction false} ReadyStays(acts: seq<Action>, i: nat, j: nat, k: Key)
    requires i <= j < |Versions(acts)| && Managed(k.kind) && k in Versions(acts)[i] && k in Versions(acts)[j]
    requires Versions(acts)[i][k].uid == Versions(acts)[j][k].uid && IsReady(Versions(acts)[i][k])
    ensures IsReady(Versions(acts)[j][k])
    decreases j
  {
    RunStatus(acts);
    var log: seq<Store> := Versions(acts);
    if i < j {
      assert Traced(log, i, i, k);
      assert Traced(log, j - 1, j, k);
      ReadyStays(acts, i, j - 1, k);
      assert StillReady(log, j, k);
    }
  }
}
