/** What a completed pass of a controller leaves missing: exactly the parts whose read of the Secret came to nothing.
    So every completed pass either leaves nothing to do for its parent, or saw the store grow, or swallowed a failed
    read; and the store cannot grow beyond its closure. */
module Progress {
  import opened Names
  import opened ApiServer
  import opened Machine
  import opened Protocol
  import opened ProtocolProofs
  import opened Liveness
  import opened Closure
  import opened Confluence
  import Children

  // ---------------------------------------------------------------- reading the Secret

  /** A call of GetSecret for this part, while the part is not in the store. */
  predicate AsksSecret(s: State, a: Action, parent: Key, p: Part)
    requires s.log != []
  {
    && a.Call? && a.key == parent && parent in s.running && s.running[parent].pc.ReadSecret?
    && (var i := s.running[parent].pc.part; i < |Parts(parent.kind)| && Parts(parent.kind)[i] == p)
    && ChildKey(parent, p) !in Live(s.log)
  }

  /** The call gets no Secret: it fails, or there is none. */
  predicate Skips(s: State, a: Action, parent: Key, p: Part)
    requires s.log != []
  {
    AsksSecret(s, a, parent, p) && !(a.out == Success && ChildKey(parent, SecretPart) in Live(s.log))
  }

  /** The call fails though the Secret is there. */
  predicate Swallows(s: State, a: Action, parent: Key, p: Part)
    requires s.log != []
  {
    AsksSecret(s, a, parent, p) && a.out != Success && ChildKey(parent, SecretPart) in Live(s.log)
  }

  /** The reconcile of the parent that is under way has got no Secret for this part. */
  predicate Skipped(s0: State, acts: seq<Action>, parent: Key, p: Part)
    requires s0.log != []
  {
    acts != [] &&
    var init := acts[..|acts| - 1];
    parent in Run(s0, init).running
    && (Skipped(s0, init, parent, p) || Skips(Run(s0, init), acts[|acts| - 1], parent, p))
  }

  /** The reconcile of the parent that is under way has swallowed a failure to read a Secret that was there. */
  predicate Swallowed(s0: State, acts: seq<Action>, parent: Key, p: Part)
    requires s0.log != []
  {
    acts != [] &&
    var init := acts[..|acts| - 1];
    parent in Run(s0, init).running
    && (Swallowed(s0, init, parent, p) || Swallows(Run(s0, init), acts[|acts| - 1], parent, p))
  }

  ghost predicate NothingSwallowed(s0: State, acts: seq<Action>, parent: Key)
    requires s0.log != []
  {
    forall p :: !Swallowed(s0, acts, parent, p)
  }

  /** There was no Secret at some version since the reconcile started. */
  ghost predicate Lacked(log: seq<Store>, began: nat, parent: Key) {
    exists r :: began <= r < |log| && ChildKey(parent, SecretPart) !in log[r]
  }

  lemma LackedGrows(log: seq<Store>, log': seq<Store>, began: nat, parent: Key)
    requires log <= log' && Lacked(log, began, parent)
    ensures Lacked(log', began, parent)
  {
    var r :| began <= r < |log| && ChildKey(parent, SecretPart) !in log[r];
    assert ChildKey(parent, SecretPart) !in log'[r];
  }

  lemma {:induction false} SwallowedIsSkipped(s0: State, acts: seq<Action>, parent: Key, p: Part)
    requires s0.log != [] && Swallowed(s0, acts, parent, p)
    ensures Skipped(s0, acts, parent, p)
  {
    hide Step, AsksSecret;
    var init := acts[..|acts| - 1];
    if Swallowed(s0, init, parent, p) {
      SwallowedIsSkipped(s0, init, parent, p);
    }
  }

  // ---------------------------------------------------------------- the reconcile under way

  lemma StepCall(s: State, parent: Key, out: Outcome, gen: Gen)
    requires s.log != [] && parent in s.running
    ensures var s' := Step(s, Call(parent, out, gen));
            && (out == Success ==> s'.log == Write(s.log, Request(s.log, parent, s.running[parent])))
            && (parent in s'.running ==>
                  Resume(s, parent, s.running[parent], out, gen) == Some(s'.running[parent]))
  {
  }

  lemma StepStart(s: State, parent: Key)
    requires s.log != [] && parent !in s.running && Enabled(s, Start(parent))
    requires parent in Step(s, Start(parent)).running
    ensures var t := Step(s, Start(parent)).running[parent];
            t.began == |s.log| - 1 && (t.pc.Look? ==> t.pc.part == 0) && Passed(parent.kind, t.pc) == 0
  {
  }

  lemma NoStep(s: State, a: Action)
    requires s.log != [] && !Enabled(s, a)
    ensures Step(s, a) == s
  {
  }

  lemma ResumeBegan(s: State, parent: Key, t: Thread, out: Outcome, gen: Gen)
    requires s.log != [] && Resume(s, parent, t, out, gen).Some?
    ensures Resume(s, parent, t, out, gen).value.began == t.began
  {
  }

  /** A reconcile under way after a step was under way before it, unless it has just begun. */
  lemma UnderWayBefore(s: State, a: Action, parent: Key)
    requires s.log != [] && parent in Step(s, a).running
    ensures Step(s, a).running[parent].began < |s.log| - 1 ==> parent in s.running
    ensures a.Call? && a.key == parent ==> parent in s.running
    ensures parent in s.running ==> s.running[parent].began == Step(s, a).running[parent].began
  {
    hide Effect, Request, Begin, Resume;
    if Enabled(s, a) && a.Call? && a.key == parent {
      StepCall(s, parent, a.out, a.gen);
      ResumeBegan(s, parent, s.running[parent], a.out, a.gen);
    } else if !Enabled(s, a) {
      NoStep(s, a);
    }
  }

  lemma {:induction false} BeganSince(s0: State, acts: seq<Action>, parent: Key)
    requires s0.log != [] && parent !in s0.running && parent in Run(s0, acts).running
    ensures |s0.log| - 1 <= Run(s0, acts).running[parent].began
  {
    hide Step;
    var init := acts[..|acts| - 1];
    RunGrows(s0, init);
    UnderWayBefore(Run(s0, init), acts[|acts| - 1], parent);
    if parent in Run(s0, init).running {
      BeganSince(s0, init, parent);
    }
  }

  lemma UnderWayIsSound(s: State, parent: Key)
    requires Inv(s) && s.log != [] && parent in s.running
    ensures s.running[parent].began < |s.log| && ThreadOK(s, parent, s.running[parent])
  {
  }

  /** A part is skipped because the failure was swallowed, or because there was no Secret at the time. */
  lemma {:induction false} WhySkipped(s0: State, acts: seq<Action>, parent: Key, p: Part)
    requires Inv(s0) && s0.log != [] && parent in Run(s0, acts).running && Skipped(s0, acts, parent, p)
    ensures Swallowed(s0, acts, parent, p) || Lacked(Run(s0, acts).log, Run(s0, acts).running[parent].began, parent)
  {
    hide Step, Inv, Lacked, Skips, Swallows;
    var init, a := acts[..|acts| - 1], acts[|acts| - 1];
    var s := Run(s0, init);
    UnderWayBefore(s, a, parent);
    StepKeepsLog(s, a);
    if Skipped(s0, init, parent, p) {
      WhySkipped(s0, init, parent, p);
      if Lacked(s.log, s.running[parent].began, parent) {
        LackedGrows(s.log, Step(s, a).log, s.running[parent].began, parent);
      }
    } else if !Swallows(s, a, parent, p) {
      RunInv(s0, init);
      SkipsNow(s, a, parent, p);
      LackedGrows(s.log, Step(s, a).log, s.running[parent].began, parent);
    }
  }

  lemma SkipsNow(s: State, a: Action, parent: Key, p: Part)
    requires Inv(s) && s.log != [] && parent in s.running && Skips(s, a, parent, p) && !Swallows(s, a, parent, p)
    ensures Lacked(s.log, s.running[parent].began, parent)
  {
    hide Inv, ChildKey, Parts;
    UnderWayIsSound(s, parent);
    assert ChildKey(parent, SecretPart) !in s.log[|s.log| - 1];
  }

  // ---------------------------------------------------------------- what has been passed

  /** The part is reckoned with: once the reconcile has passed it, it is missing exactly if it was skipped. */
  predicate Reckoned(live: Store, parent: Key, t: Thread, j: nat, skipped: bool)
    requires j < |Parts(parent.kind)|
  {
    var p := Parts(parent.kind)[j];
    && (skipped ==> NeedsSecret(p))
    && (if j < Passed(parent.kind, t.pc) then skipped <==> ChildKey(parent, p) !in live else !skipped)
  }

  /** The part a call passes, if it passes one. */
  lemma PassesOne(s: State, parent: Key, t: Thread, out: Outcome, gen: Gen, j: nat)
    requires s.log != [] && Managed(parent.kind) && Resume(s, parent, t, out, gen).Some?
    requires t.pc.Look? || t.pc.ReadSecret? || t.pc.Make? ==> t.pc.part < |Parts(parent.kind)|
    requires Passed(parent.kind, t.pc) <= j < Passed(parent.kind, Resume(s, parent, t, out, gen).value.pc)
    requires j < |Parts(parent.kind)|
    ensures (t.pc.Look? || t.pc.ReadSecret? || t.pc.Make?) && t.pc.part == j
  {
    hide Request, Reply, Build, Cache, Live, Gates, Begin, ChildKey;
  }

  /** A reconcile never goes back, and a call that passes nothing got what it asked for. */
  lemma PassesNone(s: State, parent: Key, t: Thread, out: Outcome, gen: Gen, j: nat)
    requires s.log != [] && Managed(parent.kind) && Resume(s, parent, t, out, gen).Some? && j < |Parts(parent.kind)|
    ensures j < Passed(parent.kind, t.pc) ==> j < Passed(parent.kind, Resume(s, parent, t, out, gen).value.pc)
    ensures t.pc.ReadSecret? && t.pc.part == j && j >= Passed(parent.kind, Resume(s, parent, t, out, gen).value.pc) ==>
              out == Success && ChildKey(parent, SecretPart) in Live(s.log)
  {
    hide Request, Reply, Build, Cache, Live, Gates, Begin, ChildKey;
  }

  /** What a call that passes a part tells about it. */
  lemma PassedIsReckoned(s: State, log': seq<Store>, parent: Key, t: Thread, out: Outcome, gen: Gen, j: nat)
    requires s.log != [] && s.log <= log' && Managed(parent.kind) && Resume(s, parent, t, out, gen).Some?
    requires (t.pc.Look? || t.pc.ReadSecret? || t.pc.Make?) && t.pc.part == j < |Parts(parent.kind)|
    requires Passed(parent.kind, t.pc) <= j < Passed(parent.kind, Resume(s, parent, t, out, gen).value.pc)
    requires var k := ChildKey(parent, Parts(parent.kind)[j]); Kept(Cache(s, k), Live(log'), k)
    requires out == Success ==> log' == Write(s.log, Request(s.log, parent, t))
    requires t.pc.ReadSecret? ==> log' == s.log
    ensures !t.pc.ReadSecret? ==> ChildKey(parent, Parts(parent.kind)[j]) in Live(log')
    ensures t.pc.ReadSecret? ==> !(out == Success && ChildKey(parent, SecretPart) in Live(s.log))
  {
    hide Gates, Build, Reply, Begin, Parts;
  }

  lemma RestedKnows(s0: State)
    requires Rested(s0)
    ensures s0.log != [] && Inv(s0) && s0.running == map[]
  {
  }

  lemma CalmIsSound(s0: State, s: State, oracle: Key -> Gen)
    requires s0.log != [] && CalmInv(s0, s, oracle)
    ensures Inv(s) && s0.log <= s.log
  {
  }

  lemma KeptTwice(a: Store, b: Store, c: Store, k: Key)
    requires Kept(a, b, k) && Kept(b, c, k)
    ensures Kept(a, c, k)
  {
  }

  /** Unless someone outside creates it, a part is created by a reconcile of its parent, at this very part; a
      cluster-scoped one by a reconcile of a CoreExt of that name. */
  lemma MakerOf(s: State, a: Action, parent: Key, p: Part)
    requires Inv(s) && s.log != [] && Enabled(s, a) && ParentKind(p) == parent.kind
    requires a.UserCreate? ==> a.key != ChildKey(parent, p)
    requires ChildKey(parent, p) !in Live(s.log) && ChildKey(parent, p) in Live(Step(s, a).log)
    ensures a.Call? && a.key in s.running && s.running[a.key].pc.Make? && a.key.kind == parent.kind
    ensures var i := s.running[a.key].pc.part; i < |Parts(parent.kind)| && Parts(parent.kind)[i] == p
    ensures Owned(p) ==> a.key == parent
  {
    hide Step, Effect, Parts, ChildKey, Guarded, Provenance, BuiltFrom, PhaseOK, Mirrors, PartsSeen, GatesSeen;
    NewKey(s, a, ChildKey(parent, p));
    ChildKeyInjective(parent, p, a.key, Parts(a.key.kind)[s.running[a.key].pc.part]);
  }

  lemma SamePart(kind: Kind, i: nat, j: nat)
    requires i < |Parts(kind)| && j < |Parts(kind)| && Parts(kind)[i] == Parts(kind)[j]
    ensures i == j
  {
    hide Parts;
    var n := Children.PartAt(kind, Parts(kind)[i]);
  }

  /** A call of the parent's own reconcile creates or skips the part it is at, and no other. */
  lemma CallTells(s0: State, s: State, parent: Key, out: Outcome, gen: Gen, oracle: Key -> Gen, j: nat)
    requires Rested(s0) && CalmInv(s0, s, oracle) && parent in s.running && gen == oracle(parent)
    requires j < |Parts(parent.kind)| && parent in Step(s, Call(parent, out, gen)).running
    ensures var a := Call(parent, out, gen); var s' := Step(s, a); var k := ChildKey(parent, Parts(parent.kind)[j]);
            var before, after := Passed(parent.kind, s.running[parent].pc), Passed(parent.kind, s'.running[parent].pc);
            var skips := Skips(s, a, parent, Parts(parent.kind)[j]);
            && (j < before ==> j < after && !skips && (k in Live(s.log) <==> k in Live(s'.log)))
            && (before <= j < after ==> (skips <==> k !in Live(s'.log)))
            && (j >= after ==> !skips) && (skips ==> NeedsSecret(Parts(parent.kind)[j]))
  {
    hide Step, Resume, Parts, ChildKey, Inv, CalmThread, Justified, Kept, Rested, Request;
    hide BuiltFrom, PhaseOK, Mirrors, PartsSeen, GatesSeen;
    RestedKnows(s0);
    CalmIsSound(s0, s, oracle);
    var a, p := Call(parent, out, gen), Parts(parent.kind)[j];
    var s', t, k := Step(s, a), s.running[parent], ChildKey(parent, p);
    StepCall(s, parent, out, gen);
    UnderWayIsSound(s, parent);
    StepKeepsLog(s, a);
    StepKeeps(s0, s, a, k, oracle);
    CacheIsKept(s0, s, k, oracle);
    KeptTwice(Cache(s, k), Live(s.log), Live(s'.log), k);
    KeptIn(Live(s.log), Live(s'.log), k);
    PassesNone(s, parent, t, out, gen, j);
    if k !in Live(s.log) && k in Live(s'.log) {
      MakerOf(s, a, parent, p);
      SamePart(parent.kind, t.pc.part, j);
    }
    if Skips(s, a, parent, p) {
      SamePart(parent.kind, t.pc.part, j);
    }
    if Passed(parent.kind, t.pc) <= j < Passed(parent.kind, s'.running[parent].pc) {
      PassesOne(s, parent, t, out, gen, j);
      if t.pc.ReadSecret? {
        ReadsKeepLog(s, parent, out, gen);
      }
      PassedIsReckoned(s, s'.log, parent, t, out, gen, j);
    }
  }

  lemma KeptIn(a: Store, b: Store, k: Key)
    requires Kept(a, b, k)
    ensures k in a ==> k in b
  {
  }

  lemma ReadsKeepLog(s: State, parent: Key, out: Outcome, gen: Gen)
    requires s.log != [] && parent in s.running && s.running[parent].pc.ReadSecret?
    ensures Step(s, Call(parent, out, gen)).log == s.log
  {
  }

  /** What anyone else does neither creates nor skips a part that this reconcile has skipped. */
  lemma OthersTell(s0: State, s: State, a: Action, parent: Key, oracle: Key -> Gen, j: nat, skipped: bool)
    requires Rested(s0) && CalmInv(s0, s, oracle) && Enabled(s, a) && CalmAction(a, oracle)
    requires parent in s.running && parent in Step(s, a).running && !(a.Call? && a.key == parent)
    requires j < |Parts(parent.kind)| && Reckoned(Live(s.log), parent, s.running[parent], j, skipped)
    ensures Reckoned(Live(Step(s, a).log), parent, Step(s, a).running[parent], j, skipped)
  {
    hide Step, Parts, ChildKey, Inv, CalmThread, Justified, Kept, Rested, Effect, Resume;
    RestedKnows(s0);
    CalmIsSound(s0, s, oracle);
    var k := ChildKey(parent, Parts(parent.kind)[j]);
    StepRuns(s, a);
    StepKeeps(s0, s, a, k, oracle);
    KeptIn(Live(s.log), Live(Step(s, a).log), k);
    if skipped && k in Live(Step(s, a).log) {
      MakerOf(s, a, parent, Parts(parent.kind)[j]);
      assert false;
    }
  }

  lemma StepReckons(s0: State, s: State, a: Action, parent: Key, oracle: Key -> Gen, j: nat, skipped: bool)
    requires Rested(s0) && CalmInv(s0, s, oracle) && CalmAction(a, oracle) && parent in Step(s, a).running
    requires j < |Parts(parent.kind)|
    requires parent in s.running ==> Reckoned(Live(s.log), parent, s.running[parent], j, skipped)
    ensures Reckoned(Live(Step(s, a).log), parent, Step(s, a).running[parent], j,
                     parent in s.running && (skipped || Skips(s, a, parent, Parts(parent.kind)[j])))
  {
    hide Step, Parts, ChildKey, CalmInv, Rested, CalmAction, Effect, Threads, Inv, Passed;
    RestedKnows(s0);
    CalmIsSound(s0, s, oracle);
    if !Enabled(s, a) {
      NoStep(s, a);
    } else if parent !in s.running {
      StepRuns(s, a);
      OnlyStart(s, a, parent);
      StepStart(s, parent);
    } else if a.Call? && a.key == parent {
      GenIsOracle(a, oracle);
      CallTells(s0, s, parent, a.out, a.gen, oracle, j);
    } else {
      OthersTell(s0, s, a, parent, oracle, j, skipped);
    }
  }

  lemma GenIsOracle(a: Action, oracle: Key -> Gen)
    requires CalmAction(a, oracle) && a.Call?
    ensures a.gen == oracle(a.key)
  {
  }

  lemma OnlyStart(s: State, a: Action, parent: Key)
    requires s.log != [] && Enabled(s, a) && parent !in s.running && parent in Step(s, a).running
    ensures a == Start(parent)
  {
    hide Effect, Resume, Begin;
  }

  /** In every state of a calm run each part is reckoned with by the reconcile under way. */
  lemma {:induction false} RunReckons(s0: State, acts: seq<Action>, parent: Key, oracle: Key -> Gen, j: nat)
    requires Rested(s0) && Calm(acts, oracle) && j < |Parts(parent.kind)|
    ensures CalmInv(s0, Run(s0, acts), oracle)
    ensures parent in Run(s0, acts).running ==>
              Reckoned(Live(Run(s0, acts).log), parent, Run(s0, acts).running[parent], j,
                       Skipped(s0, acts, parent, Parts(parent.kind)[j]))
  {
    RunCalm(s0, acts, oracle);
    if acts != [] {
      hide Step, Reckoned, Skips, Parts, CalmInv, Inv, CalmAction;
      var init, a := acts[..|acts| - 1], acts[|acts| - 1];
      assert a in acts && forall b :: b in init ==> b in acts;
      RunReckons(s0, init, parent, oracle, j);
      if parent in Run(s0, acts).running {
        StepReckons(s0, Run(s0, init), a, parent, oracle, j, Skipped(s0, init, parent, Parts(parent.kind)[j]));
      }
    }
  }

  // ---------------------------------------------------------------- the missing parts

  /** The parts a live parent still lacks. */
  function Missing(st: Store, parent: Key): set<Part> {
    set p: Part | ParentKind(p) == parent.kind && ChildKey(parent, p) !in st
  }

  /** With arbitrary faults, stale reads and crashes the set of missing parts never grows. */
  lemma MissingNeverGrows(s0: State, acts: seq<Action>, more: seq<Action>, oracle: Key -> Gen, parent: Key)
    requires Rested(s0) && Calm(acts + more, oracle)
    ensures Missing(Live(Run(s0, acts + more).log), parent) <= Missing(Live(Run(s0, acts).log), parent)
  {
    hide Calm, Missing;
    CalmPrefix(acts, more, oracle);
    hide Run, CalmInv;
    RunCalm(s0, acts, oracle);
    RunCalm(s0, acts + more, oracle);
    RunAppend(s0, acts, more);
    RunGrows(Run(s0, acts), more);
    LessMissing(s0, Run(s0, acts), Run(s0, acts + more), oracle, parent);
  }

  lemma LessMissing(s0: State, a: State, b: State, oracle: Key -> Gen, parent: Key)
    requires s0.log != [] && a.log != [] && CalmInv(s0, a, oracle) && CalmInv(s0, b, oracle) && a.log <= b.log
    ensures Missing(Live(b.log), parent) <= Missing(Live(a.log), parent)
  {
    hide CalmInv;
    forall p | p in Missing(Live(b.log), parent) ensures p in Missing(Live(a.log), parent) {
      if p !in Missing(Live(a.log), parent) {
        StaysFound(s0, a, b, oracle, parent, p, |b.log| - 1);
        assert false;
      }
    }
  }

  lemma CalmPrefix(acts: seq<Action>, more: seq<Action>, oracle: Key -> Gen)
    requires Calm(acts + more, oracle)
    ensures Calm(acts, oracle) && Calm(more, oracle)
  {
    assert forall a :: a in acts ==> a in acts + more;
    assert forall a :: a in more ==> a in acts + more;
  }

  // ---------------------------------------------------------------- what a completed pass leaves

  /** At the end of a pass, whatever failed, crashed or was read late, a part is missing if and only if the pass
      itself got no Secret for it while it was missing; and that happens to two of the parts only. */
  lemma MissingExactly(s0: State, acts: seq<Action>, oracle: Key -> Gen, parent: Key)
    requires Rested(s0) && Calm(acts, oracle)
    requires parent in Run(s0, acts).running && Run(s0, acts).running[parent].pc.Done?
    ensures forall p :: ParentKind(p) == parent.kind ==>
              (p in Missing(Live(Run(s0, acts).log), parent) <==> Skipped(s0, acts, parent, p))
    ensures forall p :: p in Missing(Live(Run(s0, acts).log), parent) ==> NeedsSecret(p)
  {
    hide Run, Calm, Skipped, Parts, ChildKey, Rested, CalmInv;
    RestedKnows(s0);
    forall p | ParentKind(p) == parent.kind
      ensures p in Missing(Live(Run(s0, acts).log), parent) <==> Skipped(s0, acts, parent, p)
      ensures p in Missing(Live(Run(s0, acts).log), parent) ==> NeedsSecret(p)
    {
      var n := Children.PartAt(parent.kind, p);
      RunReckons(s0, acts, parent, oracle, n);
    }
  }

  /** A completed pass leaves nothing missing; or it got no Secret because there was none, and then the Secret was
      missing at its start and no longer is, so that the set has shrunk; or it swallowed the failure of a read. */
  lemma PassShrinks(s0: State, acts: seq<Action>, oracle: Key -> Gen, parent: Key)
    requires Rested(s0) && Calm(acts, oracle)
    requires parent in Run(s0, acts).running && Run(s0, acts).running[parent].pc.Done?
    ensures var s := Run(s0, acts); var began := s.running[parent].began; var left := Missing(Live(s.log), parent);
            && |s0.log| - 1 <= began < |s.log| && (forall p :: p in left ==> NeedsSecret(p))
            && (|| left == {}
                || (left < Missing(s.log[began], parent) && SecretPart in Missing(s.log[began], parent))
                || exists p :: p in left && Swallowed(s0, acts, parent, p))
  {
    hide Run, Calm, CalmInv, Rested, Inv, Lacked, Skipped, Swallowed;
    RestedKnows(s0);
    MissingExactly(s0, acts, oracle, parent);
    RunCalm(s0, acts, oracle);
    BeganSince(s0, acts, parent);
    var s: State := Run(s0, acts);
    CalmIsSound(s0, s, oracle);
    UnderWayIsSound(s, parent);
    if p :| p in Missing(Live(s.log), parent) {
      WhySkipped(s0, acts, parent, p);
      if !Swallowed(s0, acts, parent, p) {
        WasMissing(s0, s, oracle, parent, s.running[parent].began);
      }
    }
  }

  lemma WasMissing(s0: State, s: State, oracle: Key -> Gen, parent: Key, began: nat)
    requires s0.log != [] && CalmInv(s0, s, oracle) && |s0.log| - 1 <= began
    requires began < |s.log| && parent.kind == DbPod && Lacked(s.log, began, parent)
    ensures SecretPart in Missing(s.log[began], parent)
    ensures Missing(Live(s.log), parent) <= Missing(s.log[began], parent)
  {
    var r :| began <= r < |s.log| && ChildKey(parent, SecretPart) !in s.log[r];
    assert Kept(s.log[began], s.log[r], ChildKey(parent, SecretPart));
    forall p | p in Missing(Live(s.log), parent) ensures p in Missing(s.log[began], parent) {
      assert Kept(s.log[began], s.log[|s.log| - 1], ChildKey(parent, p));
    }
  }

  /** A second completed pass: when a pass that started after another had completed is completed too, then, whatever
      failed, crashed or was read late, a part is missing if and only if this pass's own GetSecret for it failed
      while the part was missing and the Secret was there. So two passes suffice exactly if that does not happen. */
  lemma TwoPassesExact(s0: State, acts: seq<Action>, more: seq<Action>, oracle: Key -> Gen, parent: Key)
    requires Rested(s0) && Calm(acts + more, oracle)
    requires parent in Run(s0, acts).running && Run(s0, acts).running[parent].pc.Done?
    requires parent in Run(s0, acts + more).running && Run(s0, acts + more).running[parent].pc.Done?
    requires Run(s0, acts + more).running[parent].began >= |Run(s0, acts).log| - 1
    ensures forall p :: ParentKind(p) == parent.kind ==>
              (p in Missing(Live(Run(s0, acts + more).log), parent) <==> Swallowed(s0, acts + more, parent, p))
    ensures Missing(Live(Run(s0, acts + more).log), parent) == {} <==>
              forall p :: ParentKind(p) == parent.kind ==> !Swallowed(s0, acts + more, parent, p)
  {
    hide Calm, CalmInv, Run, Rested, Inv, Lacked, Skipped, Swallowed, Missing, ChildKey;
    RestedKnows(s0);
    SecretLastsOn(s0, acts, more, oracle, parent);
    MissingExactly(s0, acts + more, oracle, parent);
    forall p | ParentKind(p) == parent.kind
      ensures p in Missing(Live(Run(s0, acts + more).log), parent) <==> Swallowed(s0, acts + more, parent, p)
    {
      if Swallowed(s0, acts + more, parent, p) {
        SwallowedIsSkipped(s0, acts + more, parent, p);
      } else if Skipped(s0, acts + more, parent, p) {
        WhySkipped(s0, acts + more, parent, p);
      }
    }
    OnlyOwnParts(Live(Run(s0, acts + more).log), parent);
  }

  lemma OnlyOwnParts(st: Store, parent: Key)
    ensures forall p :: p in Missing(st, parent) ==> ParentKind(p) == parent.kind
  {
  }

  /** After one completed pass a DbPod has its Secret, and no later pass lacks it. */
  lemma SecretLastsOn(s0: State, acts: seq<Action>, more: seq<Action>, oracle: Key -> Gen, parent: Key)
    requires Rested(s0) && Calm(acts + more, oracle)
    requires parent in Run(s0, acts).running && Run(s0, acts).running[parent].pc.Done?
    requires parent in Run(s0, acts + more).running
    requires Run(s0, acts + more).running[parent].began >= |Run(s0, acts).log| - 1
    ensures parent.kind == DbPod ==>
              !Lacked(Run(s0, acts + more).log, Run(s0, acts + more).running[parent].began, parent)
  {
    hide Calm, CalmInv, Run, Rested, Lacked, Skipped, Swallowed;
    RestedKnows(s0);
    CalmPrefix(acts, more, oracle);
    MissingExactly(s0, acts, oracle, parent);
    RunAppend(s0, acts, more);
    RunGrows(Run(s0, acts), more);
    RunCalm(s0, acts, oracle);
    RunCalm(s0, acts + more, oracle);
    if parent.kind == DbPod {
      assert SecretPart !in Missing(Live(Run(s0, acts).log), parent);
      SecretThere(s0, Run(s0, acts), Run(s0, acts + more), oracle, parent, Run(s0, acts + more).running[parent].began);
    }
  }

  /** After a pass that left at most the parts that need it, the Secret is never lacked again. */
  lemma SecretThere(s0: State, a: State, b: State, oracle: Key -> Gen, parent: Key, began: nat)
    requires s0.log != [] && a.log != [] && CalmInv(s0, a, oracle) && CalmInv(s0, b, oracle) && a.log <= b.log
    requires parent.kind == DbPod && SecretPart !in Missing(Live(a.log), parent) && |a.log| - 1 <= began
    ensures !Lacked(b.log, began, parent)
  {
    hide CalmInv;
    if Lacked(b.log, began, parent) {
      var r :| began <= r < |b.log| && ChildKey(parent, SecretPart) !in b.log[r];
      StaysFound(s0, a, b, oracle, parent, SecretPart, r);
      assert false;
    }
  }

  lemma StaysFound(s0: State, a: State, b: State, oracle: Key -> Gen, parent: Key, p: Part, j: nat)
    requires s0.log != [] && a.log != [] && CalmInv(s0, a, oracle) && CalmInv(s0, b, oracle) && a.log <= b.log
    requires p !in Missing(Live(a.log), parent) && |a.log| - 1 <= j < |b.log|
    ensures p !in Missing(b.log[j], parent)
  {
    assert Kept(b.log[|a.log| - 1], b.log[j], ChildKey(parent, p));
  }

  // ---------------------------------------------------------------- the end of a fair run

  lemma KeysStay(s0: State, s: State, oracle: Key -> Gen, j: nat)
    requires s0.log != [] && CalmInv(s0, s, oracle) && |s0.log| - 1 <= j < |s.log|
    ensures s.log[j].Keys <= Live(s.log).Keys
  {
    forall k | k in s.log[j].Keys ensures k in Live(s.log).Keys {
      assert Kept(s.log[j], s.log[|s.log| - 1], k);
    }
  }

  /** How many keys of the closure the store still lacks. */
  function Deficit(s0: State, st: Store): nat
    requires s0.log != []
  {
    |KeyClosure(Live(s0.log).Keys) - st.Keys|
  }

  /** A completed pass that leaves its parent without some part has lowered a number that never rises, unless it
      swallowed the failure of a read. */
  lemma PassLowersDeficit(s0: State, acts: seq<Action>, oracle: Key -> Gen, parent: Key)
    requires Rested(s0) && Calm(acts, oracle)
    requires parent in Run(s0, acts).running && Run(s0, acts).running[parent].pc.Done?
    ensures var s := Run(s0, acts); var began := s.running[parent].began; var left := Missing(Live(s.log), parent);
            began < |s.log| &&
            (|| left == {}
             || (s.log[began].Keys < Live(s.log).Keys && Deficit(s0, Live(s.log)) < Deficit(s0, s.log[began]))
             || exists p :: p in left && Swallowed(s0, acts, parent, p))
  {
    hide KeyClosure, Calm, CalmInv, Rested, Run, Swallowed;
    RestedKnows(s0);
    PassShrinks(s0, acts, oracle, parent);
    RunCalm(s0, acts, oracle);
    StaysInClosure(s0, acts, oracle);
    var s: State := Run(s0, acts);
    var began := s.running[parent].began;
    if SecretPart in Missing(s.log[began], parent) {
      KeysStay(s0, s, oracle, began);
      SecretIsNew(Live(s.log), s.log[began], parent);
      SmallerRest(KeyClosure(Live(s0.log).Keys), s.log[began].Keys, Live(s.log).Keys);
    }
  }

  lemma SecretIsNew(now: Store, before: Store, parent: Key)
    requires before.Keys <= now.Keys && SecretPart in Missing(before, parent)
    requires forall p :: p in Missing(now, parent) ==> NeedsSecret(p)
    ensures before.Keys < now.Keys
  {
    assert SecretPart !in Missing(now, parent);
    assert ChildKey(parent, SecretPart) in now.Keys && ChildKey(parent, SecretPart) !in before.Keys;
  }

  lemma SmallerRest(all: set<Key>, a: set<Key>, b: set<Key>)
    requires a < b <= all
    ensures |all - b| < |all - a|
  {
    assert all - a == (all - b) + (b - a);
    assert b - a != {};
  }

  predicate DoneSince(s: State, parent: Key, n: nat) {
    parent in s.running && s.running[parent].pc.Done? && n <= s.running[parent].began
  }

  /** The run has just completed a pass of this parent that started at version n or later and swallowed nothing. */
  ghost predicate Completes(s0: State, acts: seq<Action>, parent: Key, n: nat)
    requires s0.log != []
  {
    DoneSince(Run(s0, acts), parent, n) && NothingSwallowed(s0, acts, parent)
  }

  /** It has done so at some moment. */
  ghost predicate PassedSince(s0: State, acts: seq<Action>, parent: Key, n: nat)
    requires s0.log != []
  {
    exists m :: 0 <= m <= |acts| && Completes(s0, acts[..m], parent, n)
  }

  lemma PassedHasParts(s0: State, acts: seq<Action>, oracle: Key -> Gen, parent: Key, n: nat, m: nat)
    requires Rested(s0) && Calm(acts, oracle) && m <= |acts| && Completes(s0, acts[..m], parent, n)
    requires |s0.log| - 1 <= n < |Run(s0, acts).log| && Live(Run(s0, acts).log).Keys == Run(s0, acts).log[n].Keys
    ensures Missing(Live(Run(s0, acts).log), parent) == {}
  {
    hide Rested, Run, Calm, CalmInv, Swallowed, Deficit;
    RestedKnows(s0);
    var early, more := acts[..m], acts[m..];
    assert acts == early + more;
    MissingNeverGrows(s0, early, more, oracle, parent);
    CalmPrefix(early, more, oracle);
    PassLowersDeficit(s0, early, oracle, parent);
    RunAppend(s0, early, more);
    RunGrows(Run(s0, early), more);
    RunCalm(s0, acts, oracle);
    var a, b: State := Run(s0, early), Run(s0, acts);
    NoGrowth(s0, a.log, b, oracle, n, a.running[parent].began);
  }

  /** If the keys are the same now as at version n, they were the same in between. */
  lemma NoGrowth(s0: State, log: seq<Store>, s: State, oracle: Key -> Gen, n: nat, began: nat)
    requires s0.log != [] && CalmInv(s0, s, oracle) && log != [] && log <= s.log
    requires |s0.log| - 1 <= n <= began < |log| && Live(s.log).Keys == s.log[n].Keys
    ensures !(log[began].Keys < Live(log).Keys)
  {
    var last := |log| - 1;
    forall k | k in Live(log).Keys ensures k in log[began].Keys {
      assert Kept(s.log[last], s.log[|s.log| - 1], k);
      assert k in s.log[n].Keys;
      assert Kept(s.log[n], s.log[began], k);
    }
  }

  /** The end of every fair run: once the set of keys has stopped growing and every parent has since completed a
      pass that swallowed nothing, the keys are exactly the closure of those at the start. */
  lemma FairRunCloses(s0: State, acts: seq<Action>, oracle: Key -> Gen, n: nat)
    requires Rested(s0) && Calm(acts, oracle)
    requires |s0.log| - 1 <= n < |Run(s0, acts).log| && Live(Run(s0, acts).log).Keys == Run(s0, acts).log[n].Keys
    requires forall k :: k in Live(Run(s0, acts).log) && Managed(k.kind) ==> PassedSince(s0, acts, k, n)
    ensures ClosedKeys(Live(Run(s0, acts).log).Keys)
    ensures Live(Run(s0, acts).log).Keys == KeyClosure(Live(s0.log).Keys)
  {
    hide KeyClosure, Calm, Run, Completes;
    var live := Live(Run(s0, acts).log);
    forall k, p | k in live.Keys && ParentKind(p) == k.kind ensures ChildKey(k, p) in live.Keys {
      var m :| 0 <= m <= |acts| && Completes(s0, acts[..m], k, n);
      PassedHasParts(s0, acts, oracle, k, n, m);
      assert p !in Missing(live, k);
    }
    StaysInClosure(s0, acts, oracle);
    ClosureIsLeast(Live(s0.log).Keys, live.Keys);
  }
}
