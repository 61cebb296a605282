/** Reconciles of one object on fresh reads, one after the other and without faults: two passes bring all
    parts and the reported status, and after that no pass writes anything. */
module Convergence {
  import opened Names
  import opened ApiServer
  import opened Machine
  import opened Protocol
  import opened Liveness
  import opened Confluence
  import opened Solitude
  import opened StatusSafety
  import Children

  // ---------------------------------------------------------------- what a pass knows

  /** The status says what the reconcile found: named, and ready once the MySQL set was available. */
  predicate Titled(key: Key, o: Obj) {
    HasStatus(key.kind) ==> o.status.name == key.name
  }

  predicate Begun(key: Key, o: Obj) {
    HasStatus(key.kind) ==>
      o.status.progress == "Ready" || (o.status.progress == "Initiating" && o.status.ready == NotReady(key.kind))
  }

  predicate Answers(st: Store, key: Key, o: Obj) {
    key.kind == DbPod ==>
      var k := ChildKey(key, MysqlPart);
      k in st && (st[k].status.available > 0 ==> o.status.progress == "Ready" && o.status.ready == "1/1")
  }

  predicate PastTitle(pc: PC) {
    !pc.AddFin? && !pc.SetName?
  }

  predicate PastBegin(pc: PC) {
    PastTitle(pc) && !pc.SetInit?
  }

  /** The local copy is the live object, and the status is as far as the pass has come. */
  predicate InStep(st: Store, key: Key, t: Thread) {
    && key in st && t.me == st[key] && !t.me.deleting && !GateBranch(t.pc)
    && (t.pc.AddFin? <==> Finalizer(key.kind) !in t.me.finalizers)
    && (t.pc.Look? || t.pc.ReadSecret? || t.pc.Make? || t.pc.SetReady? ==> t.pc.part < |Parts(key.kind)|)
    && (t.pc.ReadSecret? ==> NeedsSecret(Parts(key.kind)[t.pc.part]))
    && (t.pc.SetReady? ==>
          Parts(key.kind)[t.pc.part] == MysqlPart && ChildKey(key, MysqlPart) in st
          && st[ChildKey(key, MysqlPart)].status.available > 0)
    && (t.pc.ReadSecret? || t.pc.Make? ==> ChildKey(key, Parts(key.kind)[t.pc.part]) !in st)
    && (t.pc.Make? && NeedsSecret(Parts(key.kind)[t.pc.part]) ==> ChildKey(key, SecretPart) in st)
    && (t.pc.SetInit? ==> HasStatus(key.kind) && t.me.status.progress != "Ready")
    && (PastTitle(t.pc) ==> Titled(key, t.me))
    && (PastBegin(t.pc) ==> Begun(key, t.me))
    && (Passed(key.kind, t.pc) > 5 && !t.pc.SetReady? ==> Answers(st, key, t.me))
  }

  /** The parts passed are in the store; only init-db may have been skipped, for want of a Secret. */
  ghost predicate PartsFound(log: seq<Store>, key: Key, t: Thread)
    requires log != []
  {
    && t.began < |log|
    && (ChildKey(key, SecretPart) in log[t.began] ==> ChildKey(key, SecretPart) in Live(log))
    && (ChildKey(key, InitDbPart) in log[t.began] ==> ChildKey(key, InitDbPart) in Live(log))
    && (forall j :: 0 <= j < Passed(key.kind, t.pc) && j < |Parts(key.kind)| ==>
          ChildKey(key, Parts(key.kind)[j]) in Live(log)
          || (Parts(key.kind)[j] == InitDbPart && ChildKey(key, SecretPart) !in log[t.began]))
  }

  ghost predicate SoloInv(s: State, key: Key)
    requires s.log != []
  {
    && Managed(key.kind) && key in Live(s.log) && !Live(s.log)[key].deleting
    && (key in s.running ==> InStep(Live(s.log), key, s.running[key]) && PartsFound(s.log, key, s.running[key]))
  }

  // ---------------------------------------------------------------- one step

  lemma PartsFoundMoves(log: seq<Store>, log': seq<Store>, key: Key, t: Thread, t': Thread)
    requires log != [] && log <= log' && PartsFound(log, key, t) && t'.began == t.began
    requires Live(log).Keys <= Live(log').Keys
    requires Passed(key.kind, t'.pc) <= Passed(key.kind, t.pc) + 1
    requires var j := Passed(key.kind, t.pc);
             j < Passed(key.kind, t'.pc) && j < |Parts(key.kind)| ==>
               ChildKey(key, Parts(key.kind)[j]) in Live(log')
               || (Parts(key.kind)[j] == InitDbPart && ChildKey(key, SecretPart) !in log[t.began])
    ensures PartsFound(log', key, t')
  {
    hide Parts, Passed, ChildKey;
  }

  /** Writes of the object itself: the copy and the live object stay the same thing. */
  lemma OwnWrite(s: State, key: Key, gen: Gen)
    requires SoloRunning(s, key) && Passed(key.kind, s.running[key].pc) == 0
    requires var pc := s.running[key].pc; pc.AddFin? || pc.SetName? || pc.SetInit?
    ensures SoloInv(Step(s, Call(key, Success, gen)), key)
  {
    hide Step, InStep, PartsFound, ChildKey, Answers, Begin;
    var s', t := Step(s, Call(key, Success, gen)), s.running[key];
    assert InStep(Live(s.log), key, t) && PartsFound(s.log, key, t);
    OwnWriteInStep(s, key, gen);
    PartsFoundMoves(s.log, s'.log, key, t, s'.running[key]);
  }

  lemma OwnWriteInStep(s: State, key: Key, gen: Gen)
    requires s.log != [] && Managed(key.kind) && key in s.running && InStep(Live(s.log), key, s.running[key])
    requires var pc := s.running[key].pc; pc.AddFin? || pc.SetName? || pc.SetInit?
    ensures var s' := Step(s, Call(key, Success, gen));
            && key in s'.running && InStep(Live(s'.log), key, s'.running[key])
            && s'.running[key].began == s.running[key].began && Passed(key.kind, s'.running[key].pc) == 0
            && s.log <= s'.log && Live(s'.log).Keys == Live(s.log).Keys
            && key in Live(s'.log) && !Live(s'.log)[key].deleting
  {
    hide Step, ChildKey, Gates, Answers;
    OwnWriteMoves(s, key, gen);
  }

  /** A successful write of the object itself: what is in the store afterwards is what the code had put into its copy. */
  lemma OwnWriteMoves(s: State, key: Key, gen: Gen)
    requires s.log != [] && key in s.running && key in Live(s.log) && s.running[key].me == Live(s.log)[key]
    requires !Live(s.log)[key].deleting
    requires var pc := s.running[key].pc; pc.AddFin? || pc.SetName? || pc.SetInit?
    ensures var s' := Step(s, Call(key, Success, gen)); var t := s.running[key];
            && s.log <= s'.log && key in Live(s'.log) && key in s'.running
            && Live(s'.log).Keys == Live(s.log).Keys
            && (var me := Live(s'.log)[key];
                && !me.deleting && me.finalizers == (if t.pc.AddFin? then WithFin(key, t.me) else t.me).finalizers
                && me.status == (if t.pc.AddFin? then t.me
                                 else if t.pc.SetName? then Named(key, t.me) else Initiating(key, t.me)).status
                && s'.running[key] == t.(me := me, pc := if t.pc.AddFin? then AfterFin(key, me)
                                                         else if t.pc.SetName? then AfterName(key, me) else Look(0)))
  {
    hide Gates, Parts, ChildKey, SecretRead, Looked, GateLooked, AfterFin, AfterName;
    assert Live(Step(s, Call(key, Success, gen)).log) == Apply(Live(s.log), Request(s.log, key, s.running[key]));
  }

  ghost predicate SoloRunning(s: State, key: Key) {
    s.log != [] && key in s.running && SoloInv(s, key)
  }

  lemma MarkReady(s: State, key: Key, gen: Gen)
    requires SoloRunning(s, key) && s.running[key].pc.SetReady?
    ensures SoloInv(Step(s, Call(key, Success, gen)), key)
  {
    hide Step, InStep, PartsFound, Parts, ChildKey, Answers;
    var s', t := Step(s, Call(key, Success, gen)), s.running[key];
    assert InStep(Live(s.log), key, t) && PartsFound(s.log, key, t);
    ReadyInStep(s, key, gen);
    PartsFoundMoves(s.log, s'.log, key, t, s'.running[key]);
  }

  lemma ReadyInStep(s: State, key: Key, gen: Gen)
    requires s.log != [] && key in s.running && InStep(Live(s.log), key, s.running[key]) && s.running[key].pc.SetReady?
    ensures var s' := Step(s, Call(key, Success, gen)); var t := s.running[key];
            && key in s'.running && InStep(Live(s'.log), key, s'.running[key]) && s'.running[key].began == t.began
            && Passed(key.kind, s'.running[key].pc) == Passed(key.kind, t.pc)
            && s.log <= s'.log && Live(s'.log).Keys == Live(s.log).Keys
            && key in Live(s'.log) && !Live(s'.log)[key].deleting
  {
    hide Gates, SecretRead, Looked, GateLooked;
    assert Live(Step(s, Call(key, Success, gen)).log) == Apply(Live(s.log), Request(s.log, key, s.running[key]));
  }

  lemma LookUp(s: State, key: Key, gen: Gen)
    requires SoloRunning(s, key) && s.running[key].pc.Look? && LooksFresh(s, key)
    ensures SoloInv(Step(s, Call(key, Success, gen)), key)
  {
    hide Gates, SecretRead, GateLooked, Build, Looked, InStep, PartsFound;
    var t := s.running[key];
    var s' := Step(s, Call(key, Success, gen));
    assert InStep(Live(s.log), key, t) && PartsFound(s.log, key, t);
    assert s'.log == s.log && s'.running[key] == Looked(s, key, t, gen);
    LookedInStep(s, key, t, gen);
    LookedFound(s, key, t, gen);
  }

  lemma LookedInStep(s: State, key: Key, t: Thread, gen: Gen)
    requires s.log != [] && InStep(Live(s.log), key, t) && t.pc.Look?
    requires PartsFresh(s, key)
    ensures t.pc.part < |Parts(key.kind)| && InStep(Live(s.log), key, Looked(s, key, t, gen))
  {
    hide Gates, Build, Cache, Live, ChildKey, Titled, Begun;
    var p := Parts(key.kind)[t.pc.part];
    assert SameAt(Cache(s, ChildKey(key, p)), Live(s.log), ChildKey(key, p));
    assert key.kind == DbPod ==> (p == MysqlPart <==> t.pc.part == 5);
  }

  lemma LookedFound(s: State, key: Key, t: Thread, gen: Gen)
    requires s.log != [] && PartsFound(s.log, key, t) && t.pc.Look? && t.pc.part < |Parts(key.kind)|
    requires PartsFresh(s, key)
    ensures PartsFound(s.log, key, Looked(s, key, t, gen))
  {
    hide Gates, Build, Cache, Live, ChildKey, PartsFound;
    var p := Parts(key.kind)[t.pc.part];
    assert SameAt(Cache(s, ChildKey(key, p)), Live(s.log), ChildKey(key, p));
    PartsFoundMoves(s.log, s.log, key, t, Looked(s, key, t, gen));
  }

  lemma ReadsSecret(s: State, key: Key, gen: Gen)
    requires SoloRunning(s, key) && s.running[key].pc.ReadSecret?
    ensures SoloInv(Step(s, Call(key, Success, gen)), key)
  {
    hide Gates, Looked, GateLooked, Build, SecretRead, InStep, PartsFound;
    var t := s.running[key];
    var s' := Step(s, Call(key, Success, gen));
    assert InStep(Live(s.log), key, t) && PartsFound(s.log, key, t);
    assert s'.log == s.log && s'.running[key] == SecretRead(s, key, t, Success, gen);
    ReadInStep(s, key, t, gen);
    ReadFound(s, key, t, gen);
  }

  lemma ReadInStep(s: State, key: Key, t: Thread, gen: Gen)
    requires s.log != [] && InStep(Live(s.log), key, t) && t.pc.ReadSecret?
    ensures t.pc.part < |Parts(key.kind)| && NeedsSecret(Parts(key.kind)[t.pc.part])
    ensures InStep(Live(s.log), key, SecretRead(s, key, t, Success, gen))
  {
    hide Gates, Build, ChildKey, Titled, Begun;
  }

  lemma ReadFound(s: State, key: Key, t: Thread, gen: Gen)
    requires s.log != [] && PartsFound(s.log, key, t) && t.pc.ReadSecret?
    requires t.pc.part < |Parts(key.kind)| && NeedsSecret(Parts(key.kind)[t.pc.part])
    ensures PartsFound(s.log, key, SecretRead(s, key, t, Success, gen))
  {
    hide Gates, Build, ChildKey;
    assert Parts(DbPod)[4] == SecretPart;
    assert t.pc.part == 6 ==> ChildKey(key, Parts(key.kind)[4]) in Live(s.log);
    PartsFoundMoves(s.log, s.log, key, t, SecretRead(s, key, t, Success, gen));
  }

  lemma Makes(s: State, key: Key, gen: Gen)
    requires SoloRunning(s, key) && s.running[key].pc.Make?
    ensures SoloInv(Step(s, Call(key, Success, gen)), key)
  {
    hide Gates, Looked, SecretRead, GateLooked, Build, PartsFound, InStep;
    var t := s.running[key];
    var s' := Step(s, Call(key, Success, gen));
    assert InStep(Live(s.log), key, t) && PartsFound(s.log, key, t);
    MakePoint(s, key, t);
    var p := Parts(key.kind)[t.pc.part];
    assert s'.log == s.log + [Live(s.log)[ChildKey(key, p) := Draft(key, t, |s.log|)]];
    assert s'.running[key] == t.(pc := NextPart(key, t.pc.part));
    MadeInStep(Live(s.log), key, t, |s.log|);
    MadeFound(s.log, s'.log, key, t);
  }

  lemma MakePoint(s: State, key: Key, t: Thread)
    requires s.log != [] && InStep(Live(s.log), key, t) && t.pc.Make?
    ensures key in Live(s.log) && t.pc.part < |Parts(key.kind)|
    ensures ChildKey(key, Parts(key.kind)[t.pc.part]) !in Live(s.log)
  {
  }

  lemma MadeInStep(live: Store, key: Key, t: Thread, n: nat)
    requires InStep(live, key, t) && t.pc.Make?
    ensures InStep(live[ChildKey(key, Parts(key.kind)[t.pc.part]) := Draft(key, t, n)], key,
                   t.(pc := NextPart(key, t.pc.part)))
  {
    var p := Parts(key.kind)[t.pc.part];
    RankDescends(p);
    assert key.kind == DbPod ==> (p == MysqlPart <==> t.pc.part == 5);
    assert ChildKey(key, p) == ChildKey(key, MysqlPart) && key.kind == DbPod ==> p == MysqlPart by {
      if ChildKey(key, p) == ChildKey(key, MysqlPart) && key.kind == DbPod {
        ChildKeyInjective(key, p, key, MysqlPart);
      }
    }
  }

  lemma MadeFound(log: seq<Store>, log': seq<Store>, key: Key, t: Thread)
    requires log != [] && log < log' && PartsFound(log, key, t) && t.pc.Make? && t.pc.part < |Parts(key.kind)|
    requires Live(log').Keys == Live(log).Keys + {ChildKey(key, Parts(key.kind)[t.pc.part])}
    ensures PartsFound(log', key, t.(pc := NextPart(key, t.pc.part)))
  {
    hide Parts, ChildKey;
    assert ChildKey(key, Parts(key.kind)[t.pc.part]) in Live(log').Keys;
    PartsFoundMoves(log, log', key, t, t.(pc := NextPart(key, t.pc.part)));
  }

  lemma SoloStepKeeps(s: State, a: Action, key: Key)
    requires s.log != [] && SoloInv(s, key) && SoloStep(s, a, key)
    ensures SoloInv(Step(s, a), key)
  {
    if Enabled(s, a) && a.Call? {
      var pc := s.running[key].pc;
      if pc.AddFin? || pc.SetName? || pc.SetInit? {
        OwnWrite(s, key, a.gen);
      } else if pc.SetReady? {
        MarkReady(s, key, a.gen);
      } else if pc.Look? {
        LookUp(s, key, a.gen);
      } else if pc.ReadSecret? {
        ReadsSecret(s, key, a.gen);
      } else if pc.Make? {
        Makes(s, key, a.gen);
      }
    } else if Enabled(s, a) && a.Start? {
      SoloStart(s, key);
    }
  }

  lemma SoloStart(s: State, key: Key)
    requires s.log != [] && SoloInv(s, key) && SameAt(Cache(s, key), Live(s.log), key) && Enabled(s, Start(key))
    ensures SoloInv(Step(s, Start(key)), key)
  {
    hide ChildKey, Gates;
  }

  lemma {:induction false} SoloKeeps(s: State, acts: seq<Action>, key: Key)
    requires s.log != [] && SoloInv(s, key) && Solo(s, acts, key)
    ensures SoloInv(Run(s, acts), key)
  {
    hide SoloStep, SoloInv, Step;
    if acts != [] {
      SoloKeeps(s, acts[..|acts| - 1], key);
      SoloStepKeeps(Run(s, acts[..|acts| - 1]), acts[|acts| - 1], key);
    }
  }

  // ---------------------------------------------------------------- what a pass without a Secret cannot do

  predicate NoCredentials(st: Store, key: Key) {
    ChildKey(key, InitDbPart) !in st && ChildKey(key, SecretPart) !in st
  }

  /** A pass that began without init-db and without the Secret has no Secret until it has made one, and no
      init-db at all. */
  ghost predicate Lags(log: seq<Store>, key: Key, t: Thread)
    requires log != []
  {
    key.kind == DbPod && t.began < |log| && NoCredentials(log[t.began], key) ==>
      && ChildKey(key, InitDbPart) !in Live(log)
      && (Passed(DbPod, t.pc) <= 4 ==> ChildKey(key, SecretPart) !in Live(log))
  }

  lemma LagsQuietly(log: seq<Store>, log': seq<Store>, key: Key, t: Thread, t': Thread)
    requires log != [] && log <= log' && t.began < |log| && Lags(log, key, t) && t'.began == t.began
    requires Live(log').Keys == Live(log).Keys && Passed(key.kind, t.pc) <= Passed(key.kind, t'.pc)
    ensures Lags(log', key, t')
  {
    hide Passed, ChildKey;
    assert ChildKey(key, InitDbPart) in Live(log).Keys <==> ChildKey(key, InitDbPart) in Live(log').Keys;
    assert ChildKey(key, SecretPart) in Live(log).Keys <==> ChildKey(key, SecretPart) in Live(log').Keys;
  }

  lemma LagsMaking(log: seq<Store>, log': seq<Store>, key: Key, t: Thread, t': Thread)
    requires log != [] && log <= log' && t.began < |log| && Lags(log, key, t) && t'.began == t.began
    requires InStep(Live(log), key, t) && t.pc.Make? && t'.pc == NextPart(key, t.pc.part)
    requires Live(log').Keys == Live(log).Keys + {ChildKey(key, Parts(key.kind)[t.pc.part])}
    ensures Lags(log', key, t')
  {
    hide Gates, Titled, Begun, Answers, Suffix;
    var i := t.pc.part;
    if key.kind == DbPod && NoCredentials(log[t.began], key) {
      assert Parts(DbPod)[2] == InitDbPart && Parts(DbPod)[4] == SecretPart;
      if ChildKey(key, Parts(DbPod)[i]) == ChildKey(key, InitDbPart) {
        ChildKeyInjective(key, Parts(DbPod)[i], key, InitDbPart);
      }
      if ChildKey(key, Parts(DbPod)[i]) == ChildKey(key, SecretPart) {
        ChildKeyInjective(key, Parts(DbPod)[i], key, SecretPart);
      }
      assert ChildKey(key, InitDbPart) !in Live(log').Keys;
      assert i < 4 ==> ChildKey(key, SecretPart) !in Live(log').Keys;
    }
  }

  lemma PassedGrows(s: State, key: Key, gen: Gen)
    requires SoloRunning(s, key)
    ensures var s' := Step(s, Call(key, Success, gen));
            key in s'.running ==> Passed(key.kind, s.running[key].pc) <= Passed(key.kind, s'.running[key].pc)
    ensures var s' := Step(s, Call(key, Success, gen));
            key in s'.running ==> s'.running[key].began == s.running[key].began
  {
    hide PartsFound, Gates, Build, Answers, Titled, Begun, ChildKey, Cache, Draft;
  }

  lemma CallLags(s: State, key: Key, gen: Gen)
    requires SoloRunning(s, key) && LooksFresh(s, key) && Lags(s.log, key, s.running[key])
    ensures var s' := Step(s, Call(key, Success, gen)); key in s'.running ==> Lags(s'.log, key, s'.running[key])
  {
    hide Lags, InStep, PartsFound, Passed;
    var s' := Step(s, Call(key, Success, gen));
    var t := s.running[key];
    assert InStep(Live(s.log), key, t) && PartsFound(s.log, key, t);
    PassedGrows(s, key, gen);
    PartsFoundBegan(s.log, key, t);
    StepKeepsLog(s, Call(key, Success, gen));
    if key in s'.running {
      if t.pc.Make? {
        MakePoint(s, key, t);
        MakeGrows(s, key, gen);
        LagsMaking(s.log, s'.log, key, t, s'.running[key]);
      } else {
        SameKeys(s, key, gen);
        LagsQuietly(s.log, s'.log, key, t, s'.running[key]);
      }
    }
  }

  lemma MakeGrows(s: State, key: Key, gen: Gen)
    requires s.log != [] && key in s.running && s.running[key].pc.Make?
    requires s.running[key].pc.part < |Parts(key.kind)|
    requires ChildKey(key, Parts(key.kind)[s.running[key].pc.part]) !in Live(s.log)
    ensures var s' := Step(s, Call(key, Success, gen)); var t := s.running[key];
            && Live(s'.log) == Live(s.log)[ChildKey(key, Parts(key.kind)[t.pc.part]) := Draft(key, t, |s.log|)]
            && key in s'.running && s'.running[key] == t.(pc := NextPart(key, t.pc.part))
  {
    hide Parts, ChildKey, Draft, Gates;
  }

  lemma SameKeys(s: State, key: Key, gen: Gen)
    requires SoloRunning(s, key) && !s.running[key].pc.Make?
    ensures Live(Step(s, Call(key, Success, gen)).log).Keys == Live(s.log).Keys
  {
    hide PartsFound, ChildKey, Parts, Gates, Answers, Titled, Begun;
    assert Step(s, Call(key, Success, gen)).log == Write(s.log, Request(s.log, key, s.running[key]));
  }

  lemma StartLags(s: State, key: Key)
    requires s.log != [] && key !in s.running && Enabled(s, Start(key)) && key in Step(s, Start(key)).running
    ensures Lags(Step(s, Start(key)).log, key, Step(s, Start(key)).running[key])
  {
    hide ChildKey, Parts, Gates;
  }

  lemma {:induction false} SoloLags(s: State, acts: seq<Action>, key: Key)
    requires SoloInv0(s, key) && key !in s.running && Solo(s, acts, key)
    ensures key in Run(s, acts).running ==> Lags(Run(s, acts).log, key, Run(s, acts).running[key])
  {
    hide SoloInv, SoloStep, Step, Lags;
    if acts != [] {
      var init, a := acts[..|acts| - 1], acts[|acts| - 1];
      SoloLags(s, init, key);
      SoloKeeps(s, init, key);
      StepLags(Run(s, init), a, key);
    }
  }

  ghost predicate SoloInv0(s: State, key: Key) {
    s.log != [] && SoloInv(s, key)
  }

  lemma StepLags(s: State, a: Action, key: Key)
    requires SoloInv0(s, key) && SoloStep(s, a, key)
    requires key in s.running ==> Lags(s.log, key, s.running[key])
    ensures key in Step(s, a).running ==> Lags(Step(s, a).log, key, Step(s, a).running[key])
  {
    hide Lags, InStep, PartsFound;
    if Enabled(s, a) && a.Call? {
      CallLags(s, key, a.gen);
    } else if Enabled(s, a) && a.Start? && key in Step(s, a).running {
      StartLags(s, key);
    }
  }

  // ---------------------------------------------------------------- theorems

  /** Finalizer, status and all parts but these are in place. */
  ghost predicate Settled(st: Store, key: Key, but: set<Part>) {
    && key in st && !st[key].deleting && Finalizer(key.kind) in st[key].finalizers
    && Titled(key, st[key]) && Begun(key, st[key]) && Answers(st, key, st[key])
    && (forall p :: ParentKind(p) == key.kind && p !in but ==> ChildKey(key, p) in st)
  }

  ghost predicate Idle(s: State, key: Key) {
    s.log != [] && Managed(key.kind) && key in Live(s.log) && !Live(s.log)[key].deleting && key !in s.running
  }

  lemma DoneSettles(log: seq<Store>, key: Key, t: Thread)
    requires log != [] && InStep(Live(log), key, t) && PartsFound(log, key, t) && t.pc.Done?
    ensures Settled(Live(log), key, {})
            || (key.kind == DbPod && ChildKey(key, SecretPart) !in log[t.began] && Settled(Live(log), key, {InitDbPart}))
  {
    hide Gates, Parts, ChildKey, Titled, Begun, Answers;
    forall p | ParentKind(p) == key.kind && p != InitDbPart ensures ChildKey(key, p) in Live(log) {
      var n := Children.PartAt(key.kind, p);
      assert ChildKey(key, Parts(key.kind)[n]) in Live(log);
    }
    if key.kind == DbPod {
      var n := Children.PartAt(DbPod, InitDbPart);
      assert ChildKey(key, Parts(key.kind)[n]) in Live(log) || ChildKey(key, SecretPart) !in log[t.began];
    }
    assert Settled(Live(log), key, {InitDbPart}) by {
      DoneInPlace(Live(log), key, t);
    }
  }

  lemma DoneInPlace(live: Store, key: Key, t: Thread)
    requires InStep(live, key, t) && t.pc.Done?
    ensures key in live && !live[key].deleting && Finalizer(key.kind) in live[key].finalizers
    ensures Titled(key, live[key]) && Begun(key, live[key]) && Answers(live, key, live[key])
  {
  }

  /** One pass on fresh reads and without faults leaves nothing to do but init-db, which is there at its end
      exactly if init-db or the Secret was there when it began. */
  lemma OnePass(s: State, acts: seq<Action>, key: Key)
    requires Idle(s, key) && Solo(s, acts, key)
    requires key in Run(s, acts).running && Run(s, acts).running[key].pc.Done?
    ensures var s' := Run(s, acts); var live := Live(s'.log); var began := s'.running[key].began;
            && began < |s'.log| && Settled(live, key, {InitDbPart})
            && (Settled(live, key, {}) <==> key.kind != DbPod || !NoCredentials(s'.log[began], key))
            && (key.kind == DbPod ==> (ChildKey(key, InitDbPart) in live <==> !NoCredentials(s'.log[began], key)))
  {
    hide Solo, Titled, Begun, Answers, Lags;
    hide InStep, PartsFound, NoCredentials;
    SoloKeeps(s, acts, key);
    SoloLags(s, acts, key);
    var s' := Run(s, acts);
    var t := s'.running[key];
    assert InStep(Live(s'.log), key, t) && PartsFound(s'.log, key, t);
    PartsFoundBegan(s'.log, key, t);
    DoneSettles(s'.log, key, t);
    if key.kind == DbPod {
      DoneHasInit(s'.log, key, t);
      DoneLacksInit(s'.log, key, t);
    }
  }

  lemma DoneLacksInit(log: seq<Store>, key: Key, t: Thread)
    requires log != [] && t.began < |log| && Lags(log, key, t) && t.pc.Done? && key.kind == DbPod
    ensures NoCredentials(log[t.began], key) ==> ChildKey(key, InitDbPart) !in Live(log)
  {
  }

  lemma DoneHasInit(log: seq<Store>, key: Key, t: Thread)
    requires log != [] && PartsFound(log, key, t) && t.pc.Done? && key.kind == DbPod
    ensures !NoCredentials(log[t.began], key) ==> ChildKey(key, InitDbPart) in Live(log)
  {
    hide Gates, ChildKey;
    var n := Children.PartAt(DbPod, InitDbPart);
    assert ChildKey(key, Parts(key.kind)[n]) in Live(log) || ChildKey(key, SecretPart) !in log[t.began];
  }

  lemma PartsFoundBegan(log: seq<Store>, key: Key, t: Thread)
    requires log != [] && PartsFound(log, key, t)
    ensures t.began < |log|
  {
  }

  // ---------------------------------------------------------------- the second pass

  /** Nothing is lost: the object itself is kept, with a finalizer it holds, and no other object is touched. */
  predicate Steady(a: Store, b: Store, key: Key, k: Key) {
    k in a ==>
      if k == key
      then Kept(a, b, k) && (Finalizer(key.kind) in a[k].finalizers ==> b[k].finalizers == a[k].finalizers)
      else k in b && b[k] == a[k]
  }

  lemma SoloStepGrows(s: State, a: Action, key: Key)
    requires s.log != [] && SoloInv(s, key) && SoloStep(s, a, key)
    ensures |Step(s, a).log| <= |s.log| + 1 && (forall k :: Steady(Live(s.log), Live(Step(s, a).log), key, k))
  {
    hide PartsFound, ChildKey, Parts, Gates, Answers, Titled, Begun;
    if Enabled(s, a) && a.Call? {
      assert Step(s, a).log == Write(s.log, Request(s.log, key, s.running[key]));
    }
  }

  lemma SteadyInOneMore(base: Store, log: seq<Store>, log': seq<Store>, from: nat, i: nat, key: Key, k: Key)
    requires from < |log| && log <= log' && |log'| <= |log| + 1 && from <= i < |log'|
    requires forall j, x :: from <= j < |log| ==> Steady(base, log[j], key, x)
    requires forall x :: Steady(Live(log), Live(log'), key, x)
    ensures Steady(base, log'[i], key, k)
  {
    if i < |log| {
      assert Steady(base, log[i], key, k);
    } else {
      assert Steady(base, log[|log| - 1], key, k);
      assert Steady(Live(log), Live(log'), key, k);
    }
  }

  lemma {:induction false} SoloGrows(s: State, acts: seq<Action>, key: Key)
    requires s.log != [] && SoloInv(s, key) && Solo(s, acts, key)
    ensures s.log <= Run(s, acts).log
    ensures forall i, k :: |s.log| - 1 <= i < |Run(s, acts).log| ==> Steady(Live(s.log), Run(s, acts).log[i], key, k)
  {
    RunGrows(s, acts);
    if acts != [] {
      hide SoloInv, SoloStep, Step, Steady;
      var init := acts[..|acts| - 1];
      SoloGrows(s, init, key);
      SoloKeeps(s, init, key);
      var s1 := Run(s, init);
      SoloStepGrows(s1, acts[|acts| - 1], key);
      StepKeepsLog(s1, acts[|acts| - 1]);
      forall i, k | |s.log| - 1 <= i < |Run(s, acts).log| ensures Steady(Live(s.log), Run(s, acts).log[i], key, k) {
        SteadyInOneMore(Live(s.log), s1.log, Run(s, acts).log, |s.log| - 1, i, key, k);
      }
    }
  }

  /** After a second pass that started when the first had completed, nothing is left to do. */
  lemma TwoPasses(s: State, acts: seq<Action>, more: seq<Action>, key: Key)
    requires Idle(s, key) && Solo(s, acts + more, key)
    requires key in Run(s, acts).running && Run(s, acts).running[key].pc.Done?
    requires key in Run(s, acts + more).running && Run(s, acts + more).running[key].pc.Done?
    requires Run(s, acts + more).running[key].began >= |Run(s, acts).log| - 1
    ensures Settled(Live(Run(s, acts + more).log), key, {})
  {
    hide Solo, SoloInv, Run, Titled, Begun, Answers;
    SoloSplit(s, acts, more, key);
    RunAppend(s, acts, more);
    OnePass(s, acts, key);
    OnePass(s, acts + more, key);
    IdleInv(s, key);
    SoloKeeps(s, acts, key);
    SoloGrows(Run(s, acts), more, key);
    var a, b: State := Run(s, acts), Run(s, acts + more);
    assert key.kind == DbPod ==> ChildKey(key, SecretPart) in Live(a.log);
    assert Steady(Live(a.log), b.log[b.running[key].began], key, ChildKey(key, SecretPart));
  }

  lemma IdleInv(s: State, key: Key)
    requires Idle(s, key)
    ensures SoloInv(s, key)
  {
  }

  // ---------------------------------------------------------------- the third pass

  /** A reconcile of a settled object only looks, or asks for the status that is already there. */
  ghost predicate Quiet(s: State, key: Key) {
    && s.log != [] && SoloInv(s, key) && Settled(Live(s.log), key, {})
    && (key in s.running ==>
          var pc := s.running[key].pc; pc.SetInit? || pc.Look? || pc.SetReady? || pc.Done?)
  }

  lemma QuietCall(s: State, key: Key, gen: Gen)
    requires Quiet(s, key) && key in s.running && LooksFresh(s, key)
    ensures Step(s, Call(key, Success, gen)).log == s.log
    ensures key in Step(s, Call(key, Success, gen)).running ==>
              var pc := Step(s, Call(key, Success, gen)).running[key].pc; pc.Look? || pc.SetReady? || pc.Done?
  {
    hide PartsFound, Gates, Build, SecretRead, GateLooked;
    var t := s.running[key];
    if t.pc.Look? {
      var p := Parts(key.kind)[t.pc.part];
      assert SameAt(Cache(s, ChildKey(key, p)), Live(s.log), ChildKey(key, p));
      assert ChildKey(key, p) in Live(s.log);
    }
  }

  lemma QuietStep(s: State, a: Action, key: Key)
    requires Quiet(s, key) && SoloStep(s, a, key)
    ensures Step(s, a).log == s.log && Quiet(Step(s, a), key)
  {
    SoloStepKeeps(s, a, key);
    hide SoloInv, Settled;
    if Enabled(s, a) && a.Call? {
      QuietCall(s, key, a.gen);
    } else if Enabled(s, a) && a.Start? {
      QuietStart(s, key);
    }
  }

  lemma QuietStart(s: State, key: Key)
    requires Quiet(s, key) && Enabled(s, Start(key)) && SameAt(Cache(s, key), Live(s.log), key)
    ensures Step(s, Start(key)).log == s.log
    ensures key in Step(s, Start(key)).running ==>
              var pc := Step(s, Start(key)).running[key].pc; pc.SetInit? || pc.Look?
  {
    hide PartsFound, Gates, ChildKey, Answers;
  }

  /** Once nothing is left to do, reconciles on fresh reads write nothing, however often they run. */
  lemma {:induction false} SettledIsQuiet(s: State, acts: seq<Action>, key: Key)
    requires Quiet(s, key) && Solo(s, acts, key)
    ensures Run(s, acts).log == s.log && Quiet(Run(s, acts), key)
  {
    hide Quiet, SoloStep, Step;
    if acts != [] {
      assert s.log != [] by { QuietLog(s, key); }
      SettledIsQuiet(s, acts[..|acts| - 1], key);
      QuietStep(Run(s, acts[..|acts| - 1]), acts[|acts| - 1], key);
    }
  }

  lemma QuietLog(s: State, key: Key)
    requires Quiet(s, key)
    ensures s.log != []
  {
  }

  /** The status an object with all its parts shows, kind by kind. */
  predicate ShowsStatus(st: Store, key: Key)
    requires key in st
  {
    var s := st[key].status;
    && (key.kind == CorePod || key.kind == OrgPod ==>
          s.name == key.name && (s.progress == "Ready" || (s.progress == "Initiating" && s.ready == "0/2")))
    && (key.kind == DbPod ==>
          s.name == key.name && (s.progress == "Ready" || (s.progress == "Initiating" && s.ready == "0/1"))
          && ChildKey(key, MysqlPart) in st
          && (st[ChildKey(key, MysqlPart)].status.available > 0 ==> s.progress == "Ready" && s.ready == "1/1"))
  }

  lemma SettledShows(st: Store, key: Key, but: set<Part>)
    requires Settled(st, key, but)
    ensures ShowsStatus(st, key)
  {
    hide ChildKey;
  }

  /** In runs from an empty cluster CorePods and OrgPods end as "Initiating" with "0/2", for they never get ready; a
      DbPod as "Initiating" with "0/1" or, and always once its MySQL set is available, as "Ready" with "1/1". */
  lemma FinalStatus(acts: seq<Action>, key: Key)
    requires Settled(Live(Versions(acts)), key, {}) && Managed(key.kind)
    ensures var live := Live(Versions(acts)); var s := live[key].status;
            && (key.kind == CorePod || key.kind == OrgPod ==> s == Status(key.name, "Initiating", "0/2", 0))
            && (key.kind == DbPod ==>
                  && (s == Status(key.name, "Initiating", "0/1", 0) || s == Status(key.name, "Ready", "1/1", 0))
                  && ChildKey(key, MysqlPart) in live
                  && (live[ChildKey(key, MysqlPart)].status.available > 0 ==> s.progress == "Ready"))
  {
    hide Run, ChildKey, Settled, IsReady;
    SettledShows(Live(Versions(acts)), key, {});
    IsSettled(Live(Versions(acts)), key);
    StatusIsReportable(acts, |Versions(acts)| - 1, key);
    NotReadyKinds(Live(Versions(acts)), key);
  }

  lemma IsSettled(st: Store, key: Key)
    requires Settled(st, key, {})
    ensures key in st
  {
  }

  lemma NotReadyKinds(st: Store, key: Key)
    requires key in st
    ensures IsReady(st[key]) <==> st[key].status.progress == "Ready"
  {
  }

  /** Convergence: on fresh reads and without faults, two passes bring everything, and every later pass
      changes nothing. */
  lemma Converges(s: State, acts: seq<Action>, more: seq<Action>, rest: seq<Action>, key: Key)
    requires Idle(s, key) && Solo(s, acts + more + rest, key)
    requires key in Run(s, acts).running && Run(s, acts).running[key].pc.Done?
    requires key in Run(s, acts + more).running && Run(s, acts + more).running[key].pc.Done?
    requires Run(s, acts + more).running[key].began >= |Run(s, acts).log| - 1
    ensures Settled(Live(Run(s, acts + more).log), key, {}) && key in Live(Run(s, acts + more).log)
    ensures ShowsStatus(Live(Run(s, acts + more).log), key)
    ensures Run(s, acts + more + rest).log == Run(s, acts + more).log
  {
    hide Solo, SoloInv, Run, Settled, ShowsStatus;
    SoloSplit(s, acts + more, rest, key);
    TwoPasses(s, acts, more, key);
    IdleInv(s, key);
    SoloKeeps(s, acts + more, key);
    RunAppend(s, acts + more, rest);
    SettledIsQuiet(Run(s, acts + more), rest, key);
    IsSettled(Live(Run(s, acts + more).log), key);
    SettledShows(Live(Run(s, acts + more).log), key, {});
  }
}
