/** The API server as one reconcile sees it: a call at a time, with everyone else acting in between. */
module ApiClient {
  import opened Names
  import opened ApiServer
  import opened Machine
  import opened Protocol
  import opened ProtocolProofs
  import opened Finalizers
  import Children

  /** Actions of the reconcile of this key itself. */
  predicate Own(a: Action, key: Key) {
    (a.Miss? || a.Start? || a.Call? || a.Abort?) && a.key == key
  }

  lemma {:induction false} ForeignRun(s: State, acts: seq<Action>, key: Key)
    requires s.log != [] && forall a :: a in acts ==> !Own(a, key)
    ensures key in s.running <==> key in Run(s, acts).running
    ensures key in s.running ==> Run(s, acts).running[key] == s.running[key]
  {
    hide Step;
    if acts != [] {
      var init, a := acts[..|acts| - 1], acts[|acts| - 1];
      assert a in acts && forall b :: b in init ==> b in acts;
      ForeignRun(s, init, key);
      ForeignStep(Run(s, init), a, key);
    }
  }

  lemma ForeignStep(s: State, a: Action, key: Key)
    requires s.log != [] && !Own(a, key)
    ensures key in s.running <==> key in Step(s, a).running
    ensures key in s.running ==> Step(s, a).running[key] == s.running[key]
  {
    hide Effect, Resume, Begin, Write;
  }

  // ---------------------------------------------------------------- what a reconcile was told

  /** What the read at the top of a reconcile returned, made as this action. */
  function TopRead(acts: seq<Action>, n: nat): Option<Obj>
    requires n < |acts|
  {
    var s, k := Run(EMPTY, acts[..n]), acts[n].key;
    if acts[n].Start? && k in Cache(s, k) then Some(Cache(s, k)[k]) else None
  }

  /** There is nothing to do on what was read: no object, or one that is marked and has been let go. */
  predicate NothingToDo(key: Key, o: Option<Obj>) {
    o == None || (o.value.deleting && Finalizer(key.kind) !in o.value.finalizers)
  }

  /** The call ends the reconcile: an error, a version conflict, a create of what is there, or a missing gate. The
      errors of status updates, of write-backs and of GetSecret do not. */
  predicate Fails(s: State, a: Action, key: Key)
    requires s.log != []
  {
    a.Call? && a.key == key && key in s.running &&
    var t, live := s.running[key], Live(s.log);
    match t.pc
    case AddFin => a.out != Success || !(key in live && live[key].rv == t.me.rv)
    case DropFin => a.out != Success || !(key in live && live[key].rv == t.me.rv)
    case Look(_) => a.out != Success
    case Make(i, _, _, _) =>
      a.out != Success || (i < |Parts(key.kind)| && ChildKey(key, Parts(key.kind)[i]) in live)
    case GateLook(i) => a.out != Success || (i < |Gates(key)| && Gates(key)[i] !in Cache(s, Gates(key)[i]))
    case _ => false
  }

  predicate FailsAt(acts: seq<Action>, n: nat, key: Key)
    requires n < |acts|
  {
    Fails(Run(EMPTY, acts[..n]), acts[n], key)
  }

  /** From this position on the reconcile of the key has been started at m, on an object it has something to do on, and
      none of its calls has failed. */
  ghost predicate BegunAt(acts: seq<Action>, from: nat, m: nat, key: Key, marked: bool)
    requires m < |acts|
  {
    && from <= m && acts[m] == Start(key)
    && !NothingToDo(key, TopRead(acts, m)) && TopRead(acts, m).value.deleting == marked
    && forall n :: from <= n < |acts| && n != m && Own(acts[n], key) ==>
         m < n && acts[n].Call? && !FailsAt(acts, n, key)
  }

  ghost predicate Begun(from: nat, acts: seq<Action>, key: Key, marked: bool) {
    exists m :: 0 <= m < |acts| && BegunAt(acts, from, m, key, marked)
  }

  /** It has made its last call, and that failed or not. */
  ghost predicate Ended(from: nat, acts: seq<Action>, key: Key, marked: bool, failed: bool) {
    exists n :: 0 <= n < |acts| && EndedAt(from, acts, n, key, marked, failed)
  }

  ghost predicate EndedAt(from: nat, acts: seq<Action>, n: nat, key: Key, marked: bool, failed: bool)
    requires n < |acts|
  {
    && Begun(from, acts[..n], key, marked) && acts[n].Call? && acts[n].key == key && FailsAt(acts, n, key) == failed
    && forall k :: n < k < |acts| ==> !Own(acts[k], key)
  }

  lemma SameBefore(acts: seq<Action>, more: seq<Action>, n: nat, key: Key)
    requires n < |acts|
    ensures (acts + more)[..n] == acts[..n] && (acts + more)[n] == acts[n]
    ensures FailsAt(acts + more, n, key) == FailsAt(acts, n, key) && TopRead(acts + more, n) == TopRead(acts, n)
  {
    hide Fails;
    assert (acts + more)[..n] == acts[..n];
  }

  lemma BegunGrows(from: nat, acts: seq<Action>, more: seq<Action>, key: Key, marked: bool)
    requires from <= |acts| && Begun(from, acts, key, marked)
    requires forall n :: |acts| <= n < |acts + more| && Own((acts + more)[n], key) ==>
               (acts + more)[n].Call? && !FailsAt(acts + more, n, key)
    ensures Begun(from, acts + more, key, marked)
  {
    hide FailsAt, TopRead, NothingToDo;
    var m :| 0 <= m < |acts| && BegunAt(acts, from, m, key, marked);
    SameBefore(acts, more, m, key);
    forall n | from <= n < |acts + more| && n != m && Own((acts + more)[n], key)
      ensures m < n && (acts + more)[n].Call? && !FailsAt(acts + more, n, key)
    {
      if n < |acts| {
        SameBefore(acts, more, n, key);
      }
    }
    assert BegunAt(acts + more, from, m, key, marked);
  }

  lemma BegunOn(from: nat, acts: seq<Action>, more: seq<Action>, key: Key, marked: bool)
    requires from <= |acts| && Begun(from, acts, key, marked) && forall a :: a in more ==> !Own(a, key)
    ensures Begun(from, acts + more, key, marked)
  {
    hide Begun, FailsAt;
    forall n | |acts| <= n < |acts + more| ensures !Own((acts + more)[n], key) {
      assert (acts + more)[n] == more[n - |acts|] && more[n - |acts|] in more;
    }
    BegunGrows(from, acts, more, key, marked);
  }

  /** One more call: if it does not fail the reconcile goes on, and either way this may have been its last. */
  lemma CallEnds(from: nat, acts: seq<Action>, a: Action, key: Key, marked: bool)
    requires from <= |acts| && Begun(from, acts, key, marked) && a.Call? && a.key == key
    ensures Ended(from, acts + [a], key, marked, Fails(Run(EMPTY, acts), a, key))
    ensures !Fails(Run(EMPTY, acts), a, key) ==> Begun(from, acts + [a], key, marked)
  {
    hide Begun, Fails, Run;
    var all := acts + [a];
    assert all[..|acts|] == acts && all[|acts|] == a;
    assert FailsAt(all, |acts|, key) == Fails(Run(EMPTY, acts), a, key);
    assert EndedAt(from, all, |acts|, key, marked, FailsAt(all, |acts|, key));
    if !Fails(Run(EMPTY, acts), a, key) {
      BegunGrows(from, acts, [a], key, marked);
    }
  }

  lemma StartBegins(from: nat, acts: seq<Action>, key: Key)
    requires from <= |acts| && forall n :: from <= n < |acts| ==> !Own(acts[n], key)
    requires !NothingToDo(key, TopRead(acts + [Start(key)], |acts|))
    ensures Begun(from, acts + [Start(key)], key, TopRead(acts + [Start(key)], |acts|).value.deleting)
  {
    hide TopRead, FailsAt;
    var all := acts + [Start(key)];
    assert BegunAt(all, from, |acts|, key, TopRead(all, |acts|).value.deleting);
  }

  /** What a read returns. */
  datatype Fetched = Found(obj: Obj) | NotFound | Failed

  class Client {
    var state: State
    ghost var trace: seq<Action>

    /** Everything that ever happened is a run of the machine, and it starts with this past. */
    ghost predicate Since(past: seq<Action>)
      reads this
    {
      past <= trace && state == Run(EMPTY, trace)
    }

    /** The reconcile of the key holds this copy of its object and is about to make this call. */
    predicate At(key: Key, me: Obj, pc: PC)
      reads this
    {
      key in state.running && state.running[key].me == me && state.running[key].pc == pc
    }

    constructor ()
      ensures Since([]) && trace == [] && state == EMPTY
    {
      state := EMPTY;
      trace := [];
    }

    /** A reconcile of the key that was started since then is under way, on a marked object or not, and none of its
        calls has failed. */
    ghost predicate Going(past: seq<Action>, key: Key, marked: bool)
      reads this
    {
      Since(past) && key in state.running && Begun(|past|, trace, key, marked)
    }

    /** It is over, and its last call failed or not. */
    ghost predicate Over(past: seq<Action>, key: Key, marked: bool, failed: bool)
      reads this
    {
      Since(past) && key !in state.running && Ended(|past|, trace, key, marked, failed)
    }

    /** One step of the machine. */
    method Act(ghost past: seq<Action>, a: Action)
      requires Since(past)
      modifies this
      ensures Since(past) && trace == old(trace) + [a] && state == Step(old(state), a)
    {
      state := Step(state, a);
      trace := trace + [a];
      assert trace[..|trace| - 1] == old(trace);
    }

    /** Any number of steps of everyone but the reconcile of the key. */
    method Others(ghost past: seq<Action>, key: Key)
      requires Since(past)
      modifies this
      ensures Since(past)
      ensures key in state.running <==> key in old(state).running
      ensures key in state.running ==> state.running[key] == old(state).running[key]
      ensures old(state).log <= state.log
      ensures old(trace) <= trace && forall n :: |old(trace)| <= n < |trace| ==> !Own(trace[n], key)
      ensures forall marked :: old(Going(past, key, marked)) ==> Going(past, key, marked)
    {
      var acts: seq<Action> := *;
      if forall a :: a in acts ==> !Own(a, key) {
        ForeignRun(state, acts, key);
        RunGrows(state, acts);
        RunAppend(EMPTY, trace, acts);
        forall marked | Going(past, key, marked) ensures Begun(|past|, trace + acts, key, marked) {
          BegunOn(|past|, trace, acts, key, marked);
        }
        assert forall n :: |trace| <= n < |trace + acts| ==> (trace + acts)[n] in acts;
        state := Run(state, acts);
        trace := trace + acts;
      }
    }

    /** The next call of the reconcile; it may fail or lose its reply. */
    method NextCall(ghost past: seq<Action>, key: Key, gen: Gen, ghost marked: bool) returns (before: State, out: Outcome)
      requires Going(past, key, marked)
      modifies this
      ensures Since(past)
      ensures before.log != [] && key in before.running && before.running[key] == old(state).running[key]
      ensures old(state).log <= before.log <= state.log
      ensures trace != [] && before == Run(EMPTY, trace[..|trace| - 1]) && state == Step(before, Call(key, out, gen))
      ensures Ended(|past|, trace, key, marked, Fails(before, Call(key, out, gen), key))
      ensures !Fails(before, Call(key, out, gen), key) ==> Begun(|past|, trace, key, marked)
    {
      hide Begun, Ended, Fails;
      Others(past, key);
      before := state;
      out := *;
      CallEnds(|past|, trace, Call(key, out, gen), key, marked);
      Act(past, Call(key, out, gen));
    }

    /** The read at the top of a reconcile, whose error is ignored. It is the first thing the reconcile does; if there is
        something to do on what it returns, the reconcile is under way. */
    method GetParent(ghost past: seq<Action>, key: Key) returns (me: Option<Obj>)
      requires Since(past) && trace == past && Managed(key.kind) && key !in state.running
      modifies this
      ensures Since(past)
      ensures |past| < |trace| && (forall n :: |past| <= n < |trace| - 1 ==> !Own(trace[n], key))
      ensures trace[|trace| - 1] == (if trace[|trace| - 1].Start? then Start(key) else Miss(key))
      ensures me == TopRead(trace, |trace| - 1)
      ensures if NothingToDo(key, me) then key !in state.running
              else Going(past, key, me.value.deleting) && At(key, me.value, Begin(key, me.value).value)
                   && state.running[key].pvc == None
    {
      hide Begun, Run, FailsAt;
      Others(past, key);
      var ok: bool := *;
      assert trace[..|trace|] == trace;
      if !ok {
        Act(past, Miss(key));
        return None;
      }
      var shown := Cache(state, key);
      ghost var before := trace;
      Act(past, Start(key));
      assert trace[..|trace| - 1] == before;
      me := if key in shown then Some(shown[key]) else None;
      if !NothingToDo(key, me) {
        StartBegins(|past|, before, key);
      }
    }

    /** Update of the object itself, to add or drop its finalizer. */
    method Update(ghost past: seq<Action>, key: Key, o: Obj) returns (r: Obj, err: bool)
      requires key in state.running && Going(past, key, state.running[key].pc.DropFin?)
      requires var t := state.running[key];
               (t.pc.AddFin? && o == WithFin(key, t.me)) || (t.pc.DropFin? && o == WithoutFin(key, t.me))
      modifies this
      ensures Since(past)
      ensures old(state).running[key].pc.AddFin? ==>
                if err then Over(past, key, false, true) else Going(past, key, false) && At(key, r, AfterFin(key, r))
      ensures old(state).running[key].pc.DropFin? ==> Over(past, key, true, err) && GatesSeen(state.log, key, |Gates(key)|)
    {
      hide Run, GatesSeen, Inv, Released, Gates, Begun, Ended;
      ghost var drops := state.running[key].pc.DropFin?;
      var before, out := NextCall(past, key, Gen("", ""), drops);
      var t := before.running[key];
      err := out != Success || !Current(Live(before.log), key, t.me);
      r := Machine.Reply(before.log, Request(before.log, key, t), key, o, out);
      if t.pc.DropFin? {
        RunReleased(trace[..|trace| - 1]);
        DroppedLate(before, key, Call(key, out, Gen("", "")));
      }
    }

    /** Status().Update, whose error is ignored. */
    method UpdateStatus(ghost past: seq<Action>, key: Key, o: Obj) returns (r: Obj)
      requires Going(past, key, false)
      requires var t := state.running[key];
               (t.pc.SetName? && o == Named(key, t.me)) || (t.pc.SetInit? && o == Initiating(key, t.me))
               || (t.pc.SetReady? && o == Ready(t.me))
      modifies this
      ensures Going(past, key, false)
      ensures At(key, r, match old(state).running[key].pc
                         case SetName => AfterName(key, r)
                         case SetInit => Look(0)
                         case SetReady(i) => NextPart(key, i)
                         case pc => pc)
    {
      hide Run, Begun, Ended;
      var before, out := NextCall(past, key, Gen("", ""), false);
      r := Machine.Reply(before.log, Request(before.log, key, before.running[key]), key, o, out);
    }

    /** Get of the next part. */
    method Get(ghost past: seq<Action>, key: Key, me: Obj, i: nat, k: Key, gen: Gen) returns (r: Fetched)
      requires Going(past, key, false) && At(key, me, Look(i))
      requires i < |Parts(key.kind)| && k == ChildKey(key, Parts(key.kind)[i])
      modifies this
      ensures if r.Failed? then Over(past, key, false, true) else Going(past, key, false)
      ensures r.Found? ==> At(key, me, AfterFound(key, i, r.obj))
      ensures r.NotFound? ==> At(key, me, AfterMissing(key, me.body, i, gen))
    {
      hide Run, Begun, Ended;
      var before, out := NextCall(past, key, gen, false);
      var shown := Cache(before, k);
      r := if out != Success then Failed else if k in shown then Found(shown[k]) else NotFound;
    }

    /** GetSecret: a read of the live store, None on any failure. */
    method GetSecret(ghost past: seq<Action>, key: Key, me: Obj, i: nat, gen: Gen) returns (secret: Option<Body>)
      requires Going(past, key, false) && At(key, me, ReadSecret(i)) && i < |Parts(key.kind)|
      modifies this
      ensures Going(past, key, false)
      ensures secret.None? ==> At(key, me, NextPart(key, i))
      ensures secret.Some? ==> WasLive(ChildKey(key, SecretPart), secret.value)
      ensures secret.Some? ==> exists at ::
                At(key, me, Make(i, Build(Parts(key.kind)[i], key, me.body, secret.value, gen), at, gen))
    {
      hide Run, Begun, Ended;
      var before, out := NextCall(past, key, gen, false);
      var k := ChildKey(key, SecretPart);
      secret := if out == Success && k in Live(before.log) then Some(Live(before.log)[k].body) else None;
      assert secret.Some? ==> At(key, me, Make(i, Build(Parts(key.kind)[i], key, me.body, secret.value, gen),
                                              |before.log| - 1, gen));
      assert state.log == before.log;
    }

    /** Some version of the store had this key with this body. */
    ghost predicate WasLive(k: Key, body: Body)
      reads this
    {
      exists at :: 0 <= at < |state.log| && k in state.log[at] && state.log[at][k].body == body
    }

    /** The newest version of the store has just got this key, with this body. */
    predicate Created(k: Key, body: Body)
      reads this
    {
      state.log != [] && k in Live(state.log) && Live(state.log)[k].body == body
      && Live(state.log)[k].uid == |state.log| - 1
    }

    /** Create of the next part. */
    method Create(ghost past: seq<Action>, key: Key, me: Obj, i: nat, k: Key, body: Body) returns (err: bool)
      requires Going(past, key, false) && state.running[key].me == me
      requires var pc := state.running[key].pc; pc.Make? && pc.part == i && pc.body == body
      requires i < |Parts(key.kind)| && k == ChildKey(key, Parts(key.kind)[i])
      modifies this
      ensures if err then Over(past, key, false, true)
              else Going(past, key, false) && At(key, me, NextPart(key, i)) && Created(k, body)
      ensures forall x, b :: old(WasLive(x, b)) ==> WasLive(x, b)
    {
      hide Run, Begun, Ended;
      var before, out := NextCall(past, key, Gen("", ""), false);
      err := out != Success || k in Live(before.log);
      forall x, b | old(WasLive(x, b)) ensures WasLive(x, b) {
        var at :| 0 <= at < |old(state).log| && x in old(state).log[at] && old(state).log[at][x].body == b;
        assert state.log[at] == old(state).log[at];
      }
    }

    /** Get of the next gated resource. */
    method GetGate(ghost past: seq<Action>, key: Key, i: nat, k: Key) returns (r: Fetched)
      requires Going(past, key, true) && state.running[key].pc == GateLook(i)
      requires i < |Gates(key)| && k == Gates(key)[i]
      modifies this
      ensures if r.Found? then Going(past, key, true) && state.running[key] == Opened(key, old(state).running[key], r.obj)
              else Over(past, key, true, true)
    {
      hide Run, Gates, Opened, Begun, Ended;
      var before, out := NextCall(past, key, Gen("", ""), true);
      var shown := Cache(before, k);
      r := if out != Success then Failed else if k in shown then Found(shown[k]) else NotFound;
    }

    /** Update of a gated resource with what was read, its error ignored. */
    method WriteBack(ghost past: seq<Action>, key: Key, i: nat, k: Key, o: Obj)
      requires Going(past, key, true) && state.running[key].pc == GateWrite(i, Held(k, o))
      modifies this
      ensures Going(past, key, true) && key in state.running
      ensures state.running[key] == old(state).running[key].(pc := NextGate(key, i))
    {
      hide Run, Gates, Begun, Ended;
      var before, out := NextCall(past, key, Gen("", ""), true);
    }

    /** The reconcile returns without an error. */
    method Return(ghost past: seq<Action>, key: Key, me: Obj)
      requires Going(past, key, false) && At(key, me, Done)
      modifies this
      ensures Over(past, key, false, false)
      ensures forall p :: ParentKind(p) == key.kind && !NeedsSecret(p) ==> Seen(state.log, ChildKey(key, p))
    {
      hide Run, Guarded, Provenance, Begun, Ended;
      RunReleased(trace);
      AllSeen(state, key);
      CallEnds(|past|, trace, Call(key, Success, Gen("", "")), key, false);
      Act(past, Call(key, Success, Gen("", "")));
    }
  }

  /** What is proved of all runs of the machine holds of everything the programs do through a client. */
  lemma HistoryIsRun(c: Client, past: seq<Action>)
    requires c.Since(past)
    ensures c.state.log == Versions(c.trace) && Inv(c.state) && Released(c.state.log)
  {
    RunReleased(c.trace);
  }

  lemma DroppedLate(s: State, key: Key, a: Action)
    requires Inv(s) && key in s.running && s.running[key].pc.DropFin?
    ensures GatesSeen(Step(s, a).log, key, |Gates(key)|)
  {
    hide Guarded, Provenance, ThreadOK, Gates;
    DropIsLate(s, key);
    StepKeepsLog(s, a);
    GatesSeenGrows(s.log, Step(s, a).log, key, |Gates(key)|);
  }

  lemma AllSeen(s: State, key: Key)
    requires Inv(s) && key in s.running && s.running[key].pc.Done?
    ensures forall p :: ParentKind(p) == key.kind && !NeedsSecret(p) ==> Seen(s.log, ChildKey(key, p))
  {
    hide Gates, Build;
    forall p | ParentKind(p) == key.kind && !NeedsSecret(p) ensures Seen(s.log, ChildKey(key, p)) {
      var n := Children.PartAt(key.kind, p);
      assert ThreadOK(s, key, s.running[key]);
      assert SeenBy(s.log, |s.log| - 1, ChildKey(key, Parts(key.kind)[n]));
    }
  }
}
