/** Passes can be made: every call on fresh reads brings a reconcile closer to its end, and what it creates
    is what its functions build. */
module Passes {
  import opened Names
  import opened ApiServer
  import opened Machine
  import opened Liveness
  import opened Solitude
  import opened Convergence

  // ---------------------------------------------------------------- every pass comes to its end

  /** How many successful calls a creating reconcile is at most away from its end. */
  function Distance(key: Key, pc: PC): nat {
    var n := 4 * |Parts(key.kind)|;
    match pc
    case AddFin => n + 4
    case SetName => n + 3
    case SetInit => n + 2
    case Look(i) => if i < |Parts(key.kind)| then n - 4 * i else 1
    case ReadSecret(i) => if i < |Parts(key.kind)| then n - 4 * i - 1 else 1
    case Make(i, _, _, _) => if i < |Parts(key.kind)| then n - 4 * i - 2 else 1
    case SetReady(i) => if i < |Parts(key.kind)| then n - 4 * i - 2 else 1
    case _ => 0
  }

  predicate Closer(key: Key, t: Thread, next: Option<Thread>) {
    next.Some? && next.value.began == t.began && Distance(key, next.value.pc) < Distance(key, t.pc)
  }

  lemma PartAdvances(s: State, key: Key, t: Thread, gen: Gen)
    requires s.log != [] && InStep(Live(s.log), key, t) && (t.pc.Look? || t.pc.ReadSecret? || t.pc.Make?)
    ensures Closer(key, t, Resume(s, key, t, Success, gen))
  {
    hide Gates, Build, Answers, Titled, Begun, ChildKey, Cache, Draft, Reply, GateLooked;
  }

  lemma WriteAdvances(s: State, key: Key, t: Thread, gen: Gen)
    requires s.log != [] && InStep(Live(s.log), key, t)
    requires t.pc.AddFin? || t.pc.SetName? || t.pc.SetInit? || t.pc.SetReady?
    ensures Closer(key, t, Resume(s, key, t, Success, gen))
  {
    hide Gates, Answers, Titled, Begun, ChildKey, Reply, Looked, SecretRead, GateLooked;
    assert Current(Live(s.log), key, t.me);
  }

  /** On fresh reads a successful call always gets the reconcile closer to its end. */
  lemma CallAdvances(s: State, key: Key, gen: Gen)
    requires SoloRunning(s, key) && LooksFresh(s, key) && !s.running[key].pc.Done?
    ensures var s' := Step(s, Call(key, Success, gen));
            && key in s'.running && s'.running[key].began == s.running[key].began
            && Distance(key, s'.running[key].pc) < Distance(key, s.running[key].pc)
  {
    hide PartsFound, Resume, Distance, Effect;
    var t := s.running[key];
    assert !GateBranch(t.pc);
    if t.pc.Look? || t.pc.ReadSecret? || t.pc.Make? {
      PartAdvances(s, key, t, gen);
    } else {
      WriteAdvances(s, key, t, gen);
    }
  }

  /** A reconcile that has started can always be brought to its end. */
  lemma {:induction false} Finish(s: State, key: Key, gen: Gen) returns (acts: seq<Action>)
    requires SoloRunning(s, key)
    ensures Solo(s, acts, key) && Calls(acts, gen) && key in Run(s, acts).running && Run(s, acts).running[key].pc.Done?
    ensures Run(s, acts).running[key].began == s.running[key].began
    decreases Distance(key, s.running[key].pc)
  {
    hide Step, SoloStep, InStep, PartsFound, Distance, Parts, LooksFresh;
    if s.running[key].pc.Done? {
      acts := [];
    } else {
      var sync := SyncAll(s, PartKeys(key), key);
      var s1 := Run(s, sync);
      SyncedPartsFresh(s1, key);
      SoloKeeps(s, sync, key);
      OnlyCreating(s1, key);
      var call := Call(key, Success, gen);
      CallAdvances(s1, key, call.gen);
      CallIsSolo(s1, key, call.gen);
      SoloStepKeeps(s1, call, key);
      OneAction(s1, call, key);
      SoloJoin(s, sync, [call], key);
      var rest := Finish(Step(s1, call), key, gen);
      SoloJoin(s, sync + [call], rest, key);
      acts := sync + [call] + rest;
    }
  }

  /** A creating reconcile looks at parts only. */
  lemma OnlyCreating(s: State, key: Key)
    requires SoloRunning(s, key) && PartsFresh(s, key)
    ensures LooksFresh(s, key)
  {
    hide PartsFresh, PartsFound;
  }

  /** A pass can be made from any state in which no reconcile of the object is under way. */
  lemma MakePass(s: State, key: Key, gen: Gen) returns (acts: seq<Action>)
    requires Idle(s, key)
    ensures Solo(s, acts, key) && Calls(acts, gen) && key in Run(s, acts).running && Run(s, acts).running[key].pc.Done?
    ensures Run(s, acts).running[key].began == |s.log| - 1
  {
    hide Step, InStep, PartsFound, Parts;
    IdleInv(s, key);
    var sync, start := Sync(key, |s.log| - 1), Start(key);
    OneAction(s, sync, key);
    SyncMoves(s, key);
    var s1 := Run(s, [sync]);
    OneAction(s1, start, key);
    SoloJoin(s, [sync], [start], key);
    SoloKeeps(s, [sync] + [start], key);
    Started(s1, key);
    var rest := Finish(Step(s1, start), key, gen);
    SoloJoin(s, [sync] + [start], rest, key);
    acts := [sync] + [start] + rest;
  }

  lemma Started(s: State, key: Key)
    requires Idle(s, key) && Pos(s, key) == |s.log| - 1
    ensures key in Step(s, Start(key)).running && Step(s, Start(key)).running[key].began == |s.log| - 1
    ensures Step(s, Start(key)).log == s.log
  {
    hide ChildKey, Parts;
  }

  /** A completed reconcile returns, and the next one can start. */
  lemma Returns(s: State, key: Key, gen: Gen)
    requires SoloRunning(s, key) && s.running[key].pc.Done?
    ensures var s' := Step(s, Call(key, Success, gen));
            Idle(s', key) && s'.log == s.log && s'.running == s.running - {key}
    ensures SoloStep(s, Call(key, Success, gen), key)
  {
    hide InStep, PartsFound, Parts;
  }

  /** Two passes can always be made; so the situation of Converges is reached from every state in which the
      object is live and no reconcile of it is under way. */
  lemma PassesExist(s: State, key: Key, gen: Gen) returns (acts: seq<Action>, more: seq<Action>)
    requires Idle(s, key)
    ensures Solo(s, acts + more, key) && Calls(acts + more, gen)
    ensures key in Run(s, acts).running && Run(s, acts).running[key].pc.Done?
    ensures key in Run(s, acts + more).running && Run(s, acts + more).running[key].pc.Done?
    ensures Run(s, acts + more).running[key].began >= |Run(s, acts).log| - 1
    ensures Settled(Live(Run(s, acts + more).log), key, {})
  {
    hide Step, SoloInv, Solo, Run, Settled;
    acts := MakePass(s, key, gen);
    IdleInv(s, key);
    SoloKeeps(s, acts, key);
    var s1 := Run(s, acts);
    var call := Call(key, Success, gen);
    Returns(s1, key, gen);
    OneAction(s1, call, key);
    var again := MakePass(Step(s1, call), key, gen);
    SoloJoin(s1, [call], again, key);
    more := [call] + again;
    SoloJoin(s, acts, more, key);
    TwoPasses(s, acts, more, key);
  }

  // ---------------------------------------------------------------- what a pass makes

  /** What the reconcile builds a part from: the spec, and for two of the parts the Secret of this store. */
  function Built(base: Store, key: Key, p: Part, gen: Gen): Body
    requires key in base
  {
    var sec := ChildKey(key, SecretPart);
    Build(p, key, base[key].body, if NeedsSecret(p) && sec in base then base[sec].body else Other, gen)
  }

  /** The body of a part to be made is known from this store on. */
  predicate Determined(base: Store, key: Key, p: Part) {
    NeedsSecret(p) ==> ChildKey(key, SecretPart) in base
  }

  /** A part made since this store is a new object of this incarnation, as its reconcile builds it. */
  predicate MadePart(base: Store, st: Store, key: Key, p: Part, gen: Gen)
    requires key in base
  {
    var k := ChildKey(key, p);
    ParentKind(p) == key.kind && k !in base && k in st ==>
      && st[k].finalizers == [] && !st[k].deleting
      && st[k].owner == (if Owned(p) then Some(Ref(key, base[key].uid)) else None)
      && (Determined(base, key, p) ==> st[k].body == Built(base, key, p, gen))
  }

  /** Only parts have been added. */
  ghost predicate AddedPart(base: Store, st: Store, key: Key, k: Key) {
    k in st && k !in base ==> exists p :: ParentKind(p) == key.kind && k == ChildKey(key, p)
  }

  /** The parts made since this store, and the one the reconcile is about to create, are as it builds them. */
  ghost predicate MadeSince(base: Store, s: State, key: Key, gen: Gen)
    requires s.log != []
  {
    && key in base && key in Live(s.log) && (forall k :: Steady(base, Live(s.log), key, k))
    && (forall p :: MadePart(base, Live(s.log), key, p, gen)) && (forall k :: AddedPart(base, Live(s.log), key, k))
    && (key in s.running && s.running[key].pc.Make? && s.running[key].pc.part < |Parts(key.kind)| ==>
          var p := Parts(key.kind)[s.running[key].pc.part];
          Determined(base, key, p) ==> s.running[key].pc.body == Built(base, key, p, gen))
  }

  lemma CallMakes(base: Store, s: State, key: Key, gen: Gen)
    requires SoloRunning(s, key) && LooksFresh(s, key) && MadeSince(base, s, key, gen)
    requires s.running[key].pc.Make?
    ensures MadeSince(base, Step(s, Call(key, Success, gen)), key, gen)
  {
    hide PartsFound, InStep, Built, Steady;
    var t := s.running[key];
    assert InStep(Live(s.log), key, t);
    MakePoint(s, key, t);
    MakeGrows(s, key, gen);
    var s' := Step(s, Call(key, Success, gen));
    StillSteady(base, s, key, gen);
    SameIncarnation(base, Live(s.log), key, t);
    forall p ensures MadePart(base, Live(s'.log), key, p, gen) {
      assert MadePart(base, Live(s.log), key, p, gen);
      NewPart(base, Live(s.log), key, t, |s.log|, p, gen);
    }
    var q := Parts(key.kind)[t.pc.part];
    forall k ensures AddedPart(base, Live(s'.log), key, k) {
      assert AddedPart(base, Live(s.log), key, k);
      assert ParentKind(q) == key.kind;
    }
  }

  lemma SameIncarnation(base: Store, live: Store, key: Key, t: Thread)
    requires key in base && InStep(live, key, t) && Steady(base, live, key, key)
    ensures t.me.uid == base[key].uid
  {
    hide Titled, Begun, Answers, ChildKey;
  }

  lemma NewPart(base: Store, live: Store, key: Key, t: Thread, n: nat, p: Part, gen: Gen)
    requires key in base && t.me.uid == base[key].uid && t.pc.Make? && t.pc.part < |Parts(key.kind)|
    requires MadePart(base, live, key, p, gen)
    requires var q := Parts(key.kind)[t.pc.part]; Determined(base, key, q) ==> t.pc.body == Built(base, key, q, gen)
    ensures MadePart(base, live[ChildKey(key, Parts(key.kind)[t.pc.part]) := Draft(key, t, n)], key, p, gen)
  {
    hide Built, Determined, Parts, ChildKey;
    var q := Parts(key.kind)[t.pc.part];
    if ParentKind(p) == key.kind && ChildKey(key, p) == ChildKey(key, q) {
      ChildKeyInjective(key, p, key, q);
    }
  }

  lemma StillSteady(base: Store, s: State, key: Key, gen: Gen)
    requires SoloRunning(s, key) && LooksFresh(s, key) && (forall k :: Steady(base, Live(s.log), key, k))
    ensures forall k :: Steady(base, Live(Step(s, Call(key, Success, gen)).log), key, k)
  {
    hide Step, PartsFound, InStep;
    var a := Call(key, Success, gen);
    CallIsSolo(s, key, gen);
    SoloStepGrows(s, a, key);
    forall k ensures Steady(base, Live(Step(s, a).log), key, k) {
      assert Steady(base, Live(s.log), key, k) && Steady(Live(s.log), Live(Step(s, a).log), key, k);
    }
  }

  lemma CallMakesNothing(base: Store, s: State, key: Key, gen: Gen)
    requires SoloRunning(s, key) && LooksFresh(s, key) && MadeSince(base, s, key, gen)
    requires !s.running[key].pc.Make?
    ensures MadeSince(base, Step(s, Call(key, Success, gen)), key, gen)
  {
    hide PartsFound, Built, Determined;
    var a := Call(key, Success, gen);
    var s' := Step(s, a);
    CallIsSolo(s, key, gen);
    SoloStepGrows(s, a, key);
    StillSteady(base, s, key, gen);
    SameKeys(s, key, gen);
    forall p ensures MadePart(base, Live(s'.log), key, p, gen) {
      assert MadePart(base, Live(s.log), key, p, gen);
      OldPart(base, Live(s.log), Live(s'.log), key, p, gen);
    }
    forall k ensures AddedPart(base, Live(s'.log), key, k) {
      assert AddedPart(base, Live(s.log), key, k);
      assert k in Live(s'.log).Keys <==> k in Live(s.log).Keys;
    }
    NextBody(base, s, key, gen);
  }

  lemma OldPart(base: Store, st: Store, st': Store, key: Key, p: Part, gen: Gen)
    requires key in base && MadePart(base, st, key, p, gen) && st.Keys == st'.Keys
    requires Steady(st, st', key, ChildKey(key, p))
    ensures MadePart(base, st', key, p, gen)
  {
    hide Built, Determined;
    RankDescends(p);
    assert ChildKey(key, p) in st'.Keys <==> ChildKey(key, p) in st.Keys;
  }

  lemma NextBody(base: Store, s: State, key: Key, gen: Gen)
    requires SoloRunning(s, key) && !s.running[key].pc.Make? && key in base
    requires forall k :: Steady(base, Live(s.log), key, k)
    ensures var s' := Step(s, Call(key, Success, gen));
            key in s'.running && s'.running[key].pc.Make? && s'.running[key].pc.part < |Parts(key.kind)| ==>
              var p := Parts(key.kind)[s'.running[key].pc.part];
              Determined(base, key, p) ==> s'.running[key].pc.body == Built(base, key, p, gen)
  {
    hide PartsFound, Build, Gates, Titled, Begun, Answers, ChildKey, Cache;
    assert Steady(base, Live(s.log), key, key);
    assert Steady(base, Live(s.log), key, ChildKey(key, SecretPart));
  }

  lemma StepMakes(base: Store, s: State, a: Action, key: Key, gen: Gen)
    requires SoloInv0(s, key) && SoloStep(s, a, key) && MadeSince(base, s, key, gen) && (a.Call? ==> a.gen == gen)
    ensures MadeSince(base, Step(s, a), key, gen)
  {
    if Enabled(s, a) && a.Call? {
      if s.running[key].pc.Make? {
        CallMakes(base, s, key, gen);
      } else {
        CallMakesNothing(base, s, key, gen);
      }
    } else {
      OthersMakeNothing(s, a, key);
    }
  }

  lemma OthersMakeNothing(s: State, a: Action, key: Key)
    requires SoloInv0(s, key) && SoloStep(s, a, key) && !(Enabled(s, a) && a.Call?)
    ensures Step(s, a).log == s.log
    ensures key in Step(s, a).running ==>
              (key in s.running && Step(s, a).running[key] == s.running[key]) || !Step(s, a).running[key].pc.Make?
  {
    hide ChildKey, Parts, Gates, PartsFound;
  }

  lemma {:induction false} RunMakes(base: Store, s: State, acts: seq<Action>, key: Key, gen: Gen)
    requires SoloInv0(s, key) && Solo(s, acts, key) && Calls(acts, gen) && MadeSince(base, s, key, gen)
    ensures MadeSince(base, Run(s, acts), key, gen)
  {
    hide SoloInv, SoloStep, Step, MadeSince;
    if acts != [] {
      var init, a := acts[..|acts| - 1], acts[|acts| - 1];
      assert a in acts && forall b :: b in init ==> b in acts;
      RunMakes(base, s, init, key, gen);
      SoloKeeps(s, init, key);
      StepMakes(base, Run(s, init), a, key, gen);
    }
  }

  /** What a pass adds is what its reconcile builds, with the random strings the generator gave it; nothing
      that was there is lost or changed, but for the status and the finalizer of the object itself. */
  lemma PassMakes(s: State, acts: seq<Action>, key: Key, gen: Gen)
    requires Idle(s, key) && Solo(s, acts, key) && Calls(acts, gen)
    ensures var base, live := Live(s.log), Live(Run(s, acts).log);
            && (forall k :: Steady(base, live, key, k)) && (forall k :: AddedPart(base, live, key, k))
            && (forall p :: MadePart(base, live, key, p, gen))
  {
    hide Run, Solo, MadePart, Steady, AddedPart;
    IdleInv(s, key);
    NothingMade(s, key, gen);
    RunMakes(Live(s.log), s, acts, key, gen);
  }

  lemma NothingMade(s: State, key: Key, gen: Gen)
    requires Idle(s, key)
    ensures MadeSince(Live(s.log), s, key, gen)
  {
  }

  /** The first m actions complete a pass that started at this state's version or later. */
  predicate CompletedBy(s: State, acts: seq<Action>, m: nat, key: Key)
    requires s.log != [] && m <= |acts|
  {
    var t := Run(s, acts[..m]).running;
    key in t && t[key].pc.Done? && |s.log| - 1 <= t[key].began
  }

  /** A whole pass, from its start to its return. */
  lemma FullPass(s: State, key: Key, gen: Gen) returns (acts: seq<Action>)
    requires Idle(s, key)
    ensures Solo(s, acts, key) && Calls(acts, gen) && Idle(Run(s, acts), key) && Run(s, acts).running == s.running
    ensures exists m :: 0 <= m <= |acts| && CompletedBy(s, acts, m, key)
    ensures var base, live := Live(s.log), Live(Run(s, acts).log);
            && Settled(live, key, {InitDbPart})
            && (key.kind == DbPod ==> (ChildKey(key, InitDbPart) in live <==> !NoCredentials(base, key)))
            && (forall k :: Steady(base, live, key, k)) && (forall k :: AddedPart(base, live, key, k))
            && (forall p :: MadePart(base, live, key, p, gen))
  {
    hide Step, Settled, Steady, MadePart, AddedPart, NoCredentials, Solo, InStep, PartsFound;
    var pass := MakePass(s, key, gen);
    OnePass(s, pass, key);
    PassMakes(s, pass, key, gen);
    RunGrows(s, pass);
    IdleInv(s, key);
    SoloKeeps(s, pass, key);
    var s1 := Run(s, pass);
    var call := Call(key, Success, gen);
    Returns(s1, key, gen);
    OneAction(s1, call, key);
    SoloJoin(s, pass, [call], key);
    acts := pass + [call];
    assert acts[..|pass|] == pass && CompletedBy(s, acts, |pass|, key);
    OthersRest(s, pass, key);
    assert s.running == s.running - {key};
  }
}
