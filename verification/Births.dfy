/** The order in which the parts of an object appear, and the wake-up that makes up for a Secret that was missing;
    for objects whose names may have been used before, as long as no cache still shows the old parts. */
module Births {
  import opened Names
  import opened ApiServer
  import opened Machine
  import opened History
  import opened Protocol
  import opened ProtocolProofs
  import opened Finalizers
  import opened Children
  import opened Confluence
  import opened Progress

  // ---------------------------------------------------------------- what was seen since the birth

  ghost predicate SeenFrom(log: seq<Store>, from: nat, c: int, k: Key) {
    exists q :: from <= q <= c && q < |log| && k in log[q]
  }

  /** A reconcile of the incarnation born at this version that has passed the m-th part has seen it since; or the
      part is built from the Secret, which, if no failure to read it was swallowed, was missing. */
  ghost predicate Watched(born: nat, log: seq<Store>, parent: Key, t: Thread, m: nat, honest: bool) {
    t.me.uid == born && m < Passed(parent.kind, t.pc) && m < |Parts(parent.kind)| ==>
      || SeenFrom(log, born, |log| - 1, ChildKey(parent, Parts(parent.kind)[m]))
      || (NeedsSecret(Parts(parent.kind)[m]) && (honest ==> Lacked(log, t.began, parent)))
  }

  lemma WatchedGrows(born: nat, log: seq<Store>, log': seq<Store>, parent: Key, t: Thread, m: nat, honest: bool)
    requires log <= log' && Watched(born, log, parent, t, m, honest)
    ensures Watched(born, log', parent, t, m, honest)
  {
    hide Parts, ChildKey, Passed;
    if t.me.uid == born && m < Passed(parent.kind, t.pc) && m < |Parts(parent.kind)| {
      var k := ChildKey(parent, Parts(parent.kind)[m]);
      if SeenFrom(log, born, |log| - 1, k) {
        var q :| born <= q <= |log| - 1 && q < |log| && k in log[q];
        assert k in log'[q];
      } else if honest {
        LackedGrows(log, log', t.began, parent);
      }
    }
  }

  /** What the cache shows of a key that was missing from it is newer. */
  lemma ShownIsNew(s0: State, s: State, k: Key)
    requires s0.log != [] && s0.log <= s.log && Pos(s0, k) <= Pos(s, k) && Absent(s0, k) && k in Cache(s, k)
    ensures |s0.log| <= Pos(s, k)
  {
  }

  lemma LiveIsNew(s0: State, s: State, k: Key)
    requires s0.log != [] && s0.log <= s.log && Absent(s0, k) && k in Live(s.log)
    ensures |s0.log| < |s.log|
  {
    assert k !in s0.log[|s0.log| - 1];
  }

  lemma PassedIsWatched(s0: State, s: State, log': seq<Store>, parent: Key, t: Thread, out: Outcome, gen: Gen, m: nat,
                        honest: bool)
    requires s0.log != [] && s0.log <= s.log <= log' && m < |Parts(parent.kind)|
    requires var k := ChildKey(parent, Parts(parent.kind)[m]); Absent(s0, k) && Pos(s0, k) <= Pos(s, k)
    requires (t.pc.Look? || t.pc.ReadSecret? || t.pc.Make?) && t.pc.part == m && t.began < |s.log|
    requires t.pc.ReadSecret? ==> NeedsSecret(Parts(parent.kind)[m])
    requires Resume(s, parent, t, out, gen).Some? && m < Passed(parent.kind, Resume(s, parent, t, out, gen).value.pc)
    requires out == Success ==> log' == Write(s.log, Request(s.log, parent, t))
    requires var k := ChildKey(parent, Parts(parent.kind)[m]);
             honest && t.pc.ReadSecret? && k !in Live(s.log) && ChildKey(parent, SecretPart) in Live(s.log) ==>
               out == Success
    ensures Watched(|s0.log|, log', parent, Resume(s, parent, t, out, gen).value, m, honest)
  {
    hide Parts, Gates, Build, ChildKey, Absent, Pos;
    var k := ChildKey(parent, Parts(parent.kind)[m]);
    if t.pc.Look? {
      ShownIsNew(s0, s, k);
      assert k in log'[Pos(s, k)];
    } else if t.pc.ReadSecret? {
      if k in Live(s.log) {
        LiveIsNew(s0, s, k);
        assert k in log'[|s.log| - 1];
      } else if ChildKey(parent, SecretPart) !in Live(s.log) {
        assert ChildKey(parent, SecretPart) !in log'[|s.log| - 1];
      }
    } else {
      assert k in log'[|log'| - 1];
    }
  }

  lemma CallWatched(s0: State, s: State, parent: Key, out: Outcome, gen: Gen, m: nat, honest: bool)
    requires s0.log != [] && s0.log <= s.log && Inv(s) && parent in s.running && m < |Parts(parent.kind)|
    requires var k := ChildKey(parent, Parts(parent.kind)[m]); Absent(s0, k) && Pos(s0, k) <= Pos(s, k)
    requires Watched(|s0.log|, s.log, parent, s.running[parent], m, honest)
    requires honest ==> !Swallows(s, Call(parent, out, gen), parent, Parts(parent.kind)[m])
    ensures var s' := Step(s, Call(parent, out, gen));
            parent in s'.running ==> Watched(|s0.log|, s'.log, parent, s'.running[parent], m, honest)
  {
    hide Step, Guarded, Provenance, Watched, Mirrors, PhaseOK, BuiltFrom, PartsSeen, GatesSeen, Resume, Passed;
    var t := s.running[parent];
    assert ThreadOK(s, parent, t);
    StepCall(s, parent, out, gen);
    StepKeepsLog(s, Call(parent, out, gen));
    var s' := Step(s, Call(parent, out, gen));
    if parent in s'.running {
      var t' := s'.running[parent];
      ResumeBegan(s, parent, t, out, gen);
      if m < Passed(parent.kind, t.pc) {
        WatchedGrows(|s0.log|, s.log, s'.log, parent, t, m, honest);
        SameIncarnation(s, parent, t, out, gen);
        StillWatched(|s0.log|, s'.log, parent, t, t', m, honest);
      } else if m < Passed(parent.kind, t'.pc) {
        PassesOne(s, parent, t, out, gen, m);
        PassedIsWatched(s0, s, s'.log, parent, t, out, gen, m, honest);
      } else {
        NotYetWatched(|s0.log|, s'.log, parent, t', m, honest);
      }
    }
  }

  lemma SameIncarnation(s: State, parent: Key, t: Thread, out: Outcome, gen: Gen)
    requires Historic(s.log) && Mirrors(s.log, parent, t.me) && Resume(s, parent, t, out, gen).Some?
    ensures Resume(s, parent, t, out, gen).value.me.uid == t.me.uid
  {
    hide Historic, Looked, SecretRead, GateLooked, ChildKey, Gates, Parts, AfterName, AfterFin;
    if Current(Live(s.log), parent, t.me) {
      CurrentIsLive(s.log, parent, t.me);
    }
    ReadsKeepCopy(s, parent, t, out, gen);
  }

  lemma ReadsKeepCopy(s: State, parent: Key, t: Thread, out: Outcome, gen: Gen)
    requires s.log != []
    ensures t.pc.Look? ==> Looked(s, parent, t, gen).me == t.me
    ensures t.pc.ReadSecret? ==> SecretRead(s, parent, t, out, gen).me == t.me
    ensures t.pc.GateLook? && t.pc.gate < |Gates(parent)| && GateLooked(s, parent, t).Some? ==>
              GateLooked(s, parent, t).value.me == t.me
  {
  }

  lemma StillWatched(born: nat, log: seq<Store>, parent: Key, t: Thread, t': Thread, m: nat, honest: bool)
    requires Watched(born, log, parent, t, m, honest) && m < Passed(parent.kind, t.pc)
    requires t'.began == t.began && t'.me.uid == t.me.uid
    ensures Watched(born, log, parent, t', m, honest)
  {
  }

  lemma NotYetWatched(born: nat, log: seq<Store>, parent: Key, t: Thread, m: nat, honest: bool)
    requires m >= Passed(parent.kind, t.pc) || t.me.uid != born
    ensures Watched(born, log, parent, t, m, honest)
  {
  }

  lemma StepWatched(s0: State, s: State, a: Action, parent: Key, m: nat, honest: bool)
    requires s0.log != [] && s0.log <= s.log && Inv(s) && m < |Parts(parent.kind)|
    requires var k := ChildKey(parent, Parts(parent.kind)[m]); Absent(s0, k) && Pos(s0, k) <= Pos(s, k)
    requires parent in s.running ==> Watched(|s0.log|, s.log, parent, s.running[parent], m, honest)
    requires honest ==> !Swallows(s, a, parent, Parts(parent.kind)[m])
    ensures parent in Step(s, a).running ==> Watched(|s0.log|, Step(s, a).log, parent, Step(s, a).running[parent], m, honest)
  {
    hide Watched, Inv, Effect, Resume, Request;
    if Enabled(s, a) {
      StepKeepsLog(s, a);
      if a.Call? && a.key == parent {
        CallWatched(s0, s, parent, a.out, a.gen, m, honest);
      } else if a.Start? && a.key == parent && parent !in s.running && parent in Step(s, a).running {
        StepStart(s, parent);
        NotYetWatched(|s0.log|, Step(s, a).log, parent, Step(s, a).running[parent], m, honest);
      } else if parent in s.running {
        StepRuns(s, a);
        WatchedGrows(|s0.log|, s.log, Step(s, a).log, parent, s.running[parent], m, honest);
      }
    }
  }

  /** When this incarnation made a part, it had seen the m-th one, if that comes before, since its birth. */
  ghost predicate InOrder(born: nat, log: seq<Store>, parent: Key, c: int, k: Key, m: nat)
    requires m < |Parts(parent.kind)|
  {
    0 <= c < |log| && k in log[c] && log[c][k].uid == c && log[c][k].made.Some?
    && log[c][k].made.value.parent == Ref(parent, born) && m < log[c][k].made.value.step ==>
      SeenFrom(log, born, c, ChildKey(parent, Parts(parent.kind)[m]))
  }

  lemma InOrderGrows(born: nat, log: seq<Store>, log': seq<Store>, parent: Key, c: int, k: Key, m: nat)
    requires m < |Parts(parent.kind)| && log <= log' && c < |log| && InOrder(born, log, parent, c, k, m)
    ensures InOrder(born, log', parent, c, k, m)
  {
    hide Parts, ChildKey;
    var x := ChildKey(parent, Parts(parent.kind)[m]);
    if SeenFrom(log, born, c, x) {
      var q :| born <= q <= c && q < |log| && x in log[q];
      assert x in log'[q];
    }
  }

  lemma StepInOrder(born: nat, s: State, a: Action, parent: Key, c: int, k: Key, m: nat)
    requires Inv(s) && s.log != [] && Enabled(s, a) && m < |Parts(parent.kind)| && !NeedsSecret(Parts(parent.kind)[m])
    requires parent in s.running ==> Watched(born, s.log, parent, s.running[parent], m, false)
    requires c < |s.log| ==> InOrder(born, s.log, parent, c, k, m)
    ensures InOrder(born, Step(s, a).log, parent, c, k, m)
  {
    hide Step, Inv, Watched, Parts, ChildKey;
    var log' := Step(s, a).log;
    StepGrows(s, a);
    StepGrowsByOne(s, a);
    if c < |s.log| {
      InOrderGrows(born, s.log, log', parent, c, k, m);
    } else if c == |s.log| < |log'| && k in log'[c] && log'[c][k].uid == c && log'[c][k].made.Some?
              && log'[c][k].made.value.parent == Ref(parent, born) && m < log'[c][k].made.value.step {
      NewInOrder(born, s, a, parent, k, m);
    }
  }

  lemma NewInOrder(born: nat, s: State, a: Action, parent: Key, k: Key, m: nat)
    requires Inv(s) && Enabled(s, a) && m < |Parts(parent.kind)| && !NeedsSecret(Parts(parent.kind)[m])
    requires parent in s.running ==> Watched(born, s.log, parent, s.running[parent], m, false)
    requires |Step(s, a).log| == |s.log| + 1 && k in Live(Step(s, a).log)
    requires var o := Live(Step(s, a).log)[k];
             o.uid == |s.log| && o.made.Some? && o.made.value.parent == Ref(parent, born) && m < o.made.value.step
    ensures SeenFrom(Step(s, a).log, born, |s.log|, ChildKey(parent, Parts(parent.kind)[m]))
  {
    hide Step, Effect, Parts, Guarded, Provenance, PhaseOK, PointOK, Mirrors, ChildKey;
    StepGrows(s, a);
    assert Traced(s.log, |s.log| - 1, |s.log| - 1, k);
    NewIsDraft(s, a, k);
    var x := ChildKey(parent, Parts(parent.kind)[m]);
    var q :| born <= q <= |s.log| - 1 && q < |s.log| && x in s.log[q];
    assert x in Step(s, a).log[q];
  }

  /** What holds while the run goes on from a state that shows nothing of the m-th part. */
  ghost predicate BirthInv(s0: State, s: State, parent: Key, m: nat, honest: bool)
    requires s0.log != [] && s.log != [] && m < |Parts(parent.kind)|
  {
    && Inv(s) && s0.log <= s.log
    && (var k := ChildKey(parent, Parts(parent.kind)[m]); Pos(s0, k) <= Pos(s, k))
    && (parent in s.running ==>
          Watched(|s0.log|, s.log, parent, s.running[parent], m, false)
          && (honest ==> Watched(|s0.log|, s.log, parent, s.running[parent], m, true)))
    && (!NeedsSecret(Parts(parent.kind)[m]) ==> forall c, k :: InOrder(|s0.log|, s.log, parent, c, k, m))
  }

  lemma StepBirth(s0: State, s: State, a: Action, parent: Key, m: nat, before: bool, honest: bool)
    requires s0.log != [] && s.log != [] && m < |Parts(parent.kind)| && BirthInv(s0, s, parent, m, before)
    requires Absent(s0, ChildKey(parent, Parts(parent.kind)[m]))
    requires honest && parent in s.running ==> before && !Swallows(s, a, parent, Parts(parent.kind)[m])
    ensures BirthInv(s0, Step(s, a), parent, m, honest)
  {
    hide Step, Inv, Absent, Watched, InOrder, Parts, ChildKey, Pos;
    StepInv(s, a);
    StepGrows(s, a);
    StepWatched(s0, s, a, parent, m, false);
    if honest {
      StepWatched(s0, s, a, parent, m, true);
    }
    if !NeedsSecret(Parts(parent.kind)[m]) {
      forall c, k ensures InOrder(|s0.log|, Step(s, a).log, parent, c, k, m) {
        if Enabled(s, a) {
          StepInOrder(|s0.log|, s, a, parent, c, k, m);
        } else {
          NoStep(s, a);
        }
      }
    }
  }

  lemma {:induction false} RunBirth(s0: State, acts: seq<Action>, parent: Key, m: nat)
    requires Inv(s0) && s0.log != [] && m < |Parts(parent.kind)|
    requires Absent(s0, ChildKey(parent, Parts(parent.kind)[m]))
    ensures BirthInv(s0, Run(s0, acts), parent, m, !Swallowed(s0, acts, parent, Parts(parent.kind)[m]))
  {
    hide Step, Absent, Swallows, BirthInv, Parts, ChildKey;
    var p := Parts(parent.kind)[m];
    if acts == [] {
      StartBirth(s0, parent, m, true);
    } else {
      var init, a := acts[..|acts| - 1], acts[|acts| - 1];
      RunBirth(s0, init, parent, m);
      StepBirth(s0, Run(s0, init), a, parent, m, !Swallowed(s0, init, parent, p), !Swallowed(s0, acts, parent, p));
    }
  }

  lemma StartBirth(s0: State, parent: Key, m: nat, honest: bool)
    requires Inv(s0) && s0.log != [] && m < |Parts(parent.kind)|
    ensures BirthInv(s0, s0, parent, m, honest)
  {
    hide Parts, Guarded, Provenance, PhaseOK, PointOK, Mirrors;
    if parent in s0.running {
      var t := s0.running[parent];
      assert ThreadOK(s0, parent, t);
      assert Traced(s0.log, t.at, t.at, parent);
      NotYetWatched(|s0.log|, s0.log, parent, t, m, false);
      NotYetWatched(|s0.log|, s0.log, parent, t, m, true);
    }
    forall c, k ensures InOrder(|s0.log|, s0.log, parent, c, k, m) {
      MadeByOlder(s0, c, k);
    }
  }

  /** Whatever was made so far was made by incarnations that were born before. */
  lemma MadeByOlder(s: State, c: int, k: Key)
    requires Inv(s)
    ensures 0 <= c < |s.log| && k in s.log[c] && s.log[c][k].uid == c && s.log[c][k].made.Some? ==>
              s.log[c][k].made.value.parent.uid < c
  {
    assert Provenance(s.log, c, k);
  }

  /** A version comes from one write. */
  lemma {:induction false} OneWrite(acts: seq<Action>, u: nat, k: Key, x: Key)
    requires u < |Versions(acts)| && k in Versions(acts)[u] && x in Versions(acts)[u]
    requires Versions(acts)[u][k].rv == u && Versions(acts)[u][x].rv == u
    ensures k == x
  {
    hide Step;
    if acts != [] {
      var init, a := acts[..|acts| - 1], acts[|acts| - 1];
      RunReleased(init);
      var s := Run(EMPTY, init);
      StepGrows(s, a);
      StepGrowsByOne(s, a);
      if u < |s.log| {
        OneWrite(init, u, k, x);
      } else {
        NewestWrite(s, a, k, x);
      }
    }
  }

  lemma NewestWrite(s: State, a: Action, k: Key, x: Key)
    requires Inv(s) && |Step(s, a).log| == |s.log| + 1
    requires k in Live(Step(s, a).log) && x in Live(Step(s, a).log)
    requires Live(Step(s, a).log)[k].rv == |s.log| && Live(Step(s, a).log)[x].rv == |s.log|
    ensures k == x
  {
    hide Effect, Enabled, Threads, Guarded, Provenance, ThreadOK;
    assert Traced(s.log, |s.log| - 1, |s.log| - 1, k);
    assert Traced(s.log, |s.log| - 1, |s.log| - 1, x);
    StepGrowsByOne(s, a);
    StepWrites(s, a);
  }

  // ---------------------------------------------------------------- theorems

  /** The parent was created by the write that follows this state. */
  predicate BornAfter(s0: State, log: seq<Store>, j: int, parent: Key) {
    |s0.log| <= j < |log| && parent in log[j] && log[j][parent].uid == |s0.log|
  }

  /** Creation order, under faults, stale reads and crashes: when a parent was created while neither part was
      there, nor any more shown by the cache, then as long as it is in the store the later part implies the
      earlier, unless a failure of the earlier is swallowed. */
  lemma CreationOrder(pre: seq<Action>, post: seq<Action>, parent: Key, m: nat, n: nat, j: nat)
    requires var s0 := Run(EMPTY, pre); var log := Versions(pre + post);
             && m < n < |Parts(parent.kind)| && BornAfter(s0, log, j, parent)
             && Absent(s0, ChildKey(parent, Parts(parent.kind)[m])) && Absent(s0, ChildKey(parent, Parts(parent.kind)[n]))
             && ChildKey(parent, Parts(parent.kind)[n]) in log[j]
    requires Untouched(pre + post, ChildKey(parent, Parts(parent.kind)[m]))
    requires Untouched(pre + post, ChildKey(parent, Parts(parent.kind)[n]))
    requires var early, late := Parts(parent.kind)[m], Parts(parent.kind)[n];
             Owned(early) && Owned(late) && !Managed(PartKind(early)) && !Managed(PartKind(late)) && !NeedsSecret(early)
    ensures ChildKey(parent, Parts(parent.kind)[m]) in Versions(pre + post)[j]
  {
    hide Parts, Run, Inv, Provenance, InOrder;
    var acts, s0 := pre + post, Run(EMPTY, pre);
    var log: seq<Store> := Versions(acts);
    var early, late := Parts(parent.kind)[m], Parts(parent.kind)[n];
    var u := |s0.log|;
    RunAppend(EMPTY, pre, post);
    RunGrows(s0, post);
    RunReleased(pre);
    RunReleased(acts);
    AbsentAtBirth(pre, post, j, parent, early);
    AbsentAtBirth(pre, post, j, parent, late);
    PartOrigin(acts, parent, late, u, j, j);
    RunBirth(s0, post, parent, m);
    var o := log[j][ChildKey(parent, late)];
    StepOf(parent, late, n, o.made.value.step);
    OrderHolds(s0, Run(s0, post), parent, o.uid, ChildKey(parent, late), m, !Swallowed(s0, post, parent, early));
    var q :| u <= q <= o.uid && q < |log| && ChildKey(parent, early) in log[q];
    PartPresent(acts, parent, early, u, q, j);
  }

  lemma StepOf(parent: Key, p: Part, n: nat, step: nat)
    requires n < |Parts(parent.kind)| && Parts(parent.kind)[n] == p
    requires step < |Parts(parent.kind)| && Parts(parent.kind)[step] == p
    ensures step == n
  {
    hide Parts;
    var i := PartAt(parent.kind, p);
  }

  lemma OrderHolds(s0: State, s: State, parent: Key, c: nat, k: Key, m: nat, honest: bool)
    requires s0.log != [] && s.log != [] && m < |Parts(parent.kind)| && BirthInv(s0, s, parent, m, honest)
    requires !NeedsSecret(Parts(parent.kind)[m])
    requires c < |s.log| && k in s.log[c] && s.log[c][k].uid == c && s.log[c][k].made.Some?
    requires s.log[c][k].made.value.parent == Ref(parent, |s0.log|) && m < s.log[c][k].made.value.step
    ensures exists q :: |s0.log| <= q <= c && q < |s.log| && ChildKey(parent, Parts(parent.kind)[m]) in s.log[q]
  {
    hide Parts, Inv, Watched;
    assert InOrder(|s0.log|, s.log, parent, c, k, m);
  }

  /** The write that creates the parent creates nothing else. */
  lemma AbsentAtBirth(pre: seq<Action>, post: seq<Action>, j: nat, parent: Key, p: Part)
    requires BornAfter(Run(EMPTY, pre), Versions(pre + post), j, parent) && ParentKind(p) == parent.kind
    requires Absent(Run(EMPTY, pre), ChildKey(parent, p))
    ensures ChildKey(parent, p) !in Versions(pre + post)[|Run(EMPTY, pre).log|]
  {
    hide Run, Released, Guarded, Provenance, ThreadOK, ChildKey;
    var s0 := Run(EMPTY, pre);
    var log: seq<Store> := Versions(pre + post);
    var u, k := |s0.log|, ChildKey(parent, p);
    RunAppend(EMPTY, pre, post);
    RunGrows(s0, post);
    RunReleased(pre + post);
    assert k !in s0.log[u - 1];
    assert Traced(log, u, j, parent);
    assert Traced(log, u, u, parent);
    assert Traced(log, u - 1, u, k);
    NotItself(parent, p);
    if k in log[u] {
      OneWrite(pre + post, u, k, parent);
    }
  }

  lemma NotItself(parent: Key, p: Part)
    requires ParentKind(p) == parent.kind
    ensures ChildKey(parent, p) != parent
  {
    RankDescends(p);
  }

  // ---------------------------------------------------------------- a pass that begins without a Secret

  /** As long as the reconcile has not passed the Secret, the one that is there is older than the reconcile; and
      init-db is older, or was built from a Secret that is. */
  ghost predicate InitIsLate(log: seq<Store>, db: Key, t: Thread)
    requires log != []
  {
    var cm, sec := ChildKey(db, InitDbPart), ChildKey(db, SecretPart);
    t.began < |log|
    && (Passed(DbPod, t.pc) <= 4 && sec in Live(log) ==> Live(log)[sec].uid <= t.began)
    && (t.pc.Make? && t.pc.part == 2 ==> sec in log[t.began])
    && (cm in Live(log) && Live(log)[cm].uid > t.began ==> sec in log[t.began])
  }

  /** No user creates init-db or the Secret. */
  ghost predicate NotSupplied(acts: seq<Action>, db: Key) {
    forall a :: a in acts && a.UserCreate? ==> a.key != ChildKey(db, InitDbPart) && a.key != ChildKey(db, SecretPart)
  }

  /** A part that is there after a step was there before, or the parent's own reconcile has just made it. */
  lemma OldOrOwn(s: State, a: Action, db: Key, p: Part, n: nat)
    requires Inv(s) && s.log != [] && Enabled(s, a) && ParentKind(p) == db.kind && Owned(p)
    requires n < |Parts(db.kind)| && Parts(db.kind)[n] == p
    requires a.UserCreate? ==> a.key != ChildKey(db, p)
    requires ChildKey(db, p) in Live(Step(s, a).log)
    ensures var k := ChildKey(db, p);
            || (k in Live(s.log) && Live(Step(s, a).log)[k].uid == Live(s.log)[k].uid)
            || (a.Call? && a.key == db && db in s.running && s.running[db].pc.Make? && s.running[db].pc.part == n)
  {
    hide Step, Inv, Parts, ChildKey;
    var k := ChildKey(db, p);
    if k in Live(s.log) {
      LiveMadeStays(s, a, k);
    } else {
      MakerOf(s, a, db, p);
      SamePart(db.kind, s.running[db].pc.part, n);
    }
  }

  /** After its create call a reconcile has passed the part; it comes to create init-db after a Secret was read. */
  lemma MakesInit(s: State, db: Key, t: Thread, out: Outcome, gen: Gen)
    requires s.log != [] && db.kind == DbPod && Resume(s, db, t, out, gen).Some?
    ensures var t' := Resume(s, db, t, out, gen).value;
            && (t.pc.Make? && t.pc.part == 4 ==> Passed(DbPod, t'.pc) == 5)
            && (Passed(DbPod, t'.pc) <= 4 ==> Passed(DbPod, t.pc) <= 4)
            && (t'.pc.Make? && t'.pc.part == 2 ==> Passed(DbPod, t.pc) <= 4 && ChildKey(db, SecretPart) in Live(s.log))
  {
    hide Request, Reply, Build, Cache, Live, Gates, Begin, ChildKey;
  }

  lemma WasThere(log: seq<Store>, began: nat, k: Key)
    requires Historic(log) && began < |log| && k in Live(log) && Live(log)[k].uid <= began
    ensures k in log[began]
  {
    assert Traced(log, began, |log| - 1, k);
  }

  lemma StillLate(log: seq<Store>, log': seq<Store>, db: Key, t: Thread, t': Thread)
    requires log != [] && log <= log' && InitIsLate(log, db, t) && t'.began == t.began
    requires Passed(DbPod, t'.pc) <= 4 ==> Passed(DbPod, t.pc) <= 4
    requires t'.pc.Make? && t'.pc.part == 2 ==> ChildKey(db, SecretPart) in log[t'.began]
    requires var sec := ChildKey(db, SecretPart);
             sec in Live(log') && Passed(DbPod, t'.pc) <= 4 ==> sec in Live(log) && Live(log')[sec].uid == Live(log)[sec].uid
    requires var cm := ChildKey(db, InitDbPart);
             cm in Live(log') ==>
               (cm in Live(log) && Live(log')[cm].uid == Live(log)[cm].uid) || (t.pc.Make? && t.pc.part == 2)
    ensures InitIsLate(log', db, t')
  {
    hide ChildKey, Passed;
  }

  lemma SecretIsOld(s: State, db: Key)
    requires Inv(s) && s.log != [] && db in s.running && InitIsLate(s.log, db, s.running[db])
    requires Passed(DbPod, s.running[db].pc) <= 4 && ChildKey(db, SecretPart) in Live(s.log)
    ensures ChildKey(db, SecretPart) in s.log[s.running[db].began]
  {
    hide ChildKey, Passed, ThreadOK, Guarded, Provenance;
    WasThere(s.log, s.running[db].began, ChildKey(db, SecretPart));
  }

  lemma CallIsLate(s: State, db: Key, out: Outcome, gen: Gen)
    requires Inv(s) && s.log != [] && db.kind == DbPod && db in s.running && InitIsLate(s.log, db, s.running[db])
    ensures var s' := Step(s, Call(db, out, gen)); db in s'.running ==> InitIsLate(s'.log, db, s'.running[db])
  {
    hide Step, Inv, Resume, Request, Write, Gates, Build, ChildKey, Passed, InitIsLate;
    var a := Call(db, out, gen);
    var s', t := Step(s, a), s.running[db];
    StepKeepsLog(s, a);
    if db in s'.running {
      StepCall(s, db, out, gen);
      ResumeBegan(s, db, t, out, gen);
      MakesInit(s, db, t, out, gen);
      BeganBefore(s.log, db, t);
      if Passed(DbPod, t.pc) <= 4 && ChildKey(db, SecretPart) in Live(s.log) {
        SecretIsOld(s, db);
      }
      if ChildKey(db, SecretPart) in Live(s'.log) {
        OldOrOwn(s, a, db, SecretPart, 4);
      }
      if ChildKey(db, InitDbPart) in Live(s'.log) {
        OldOrOwn(s, a, db, InitDbPart, 2);
      }
      StillLate(s.log, s'.log, db, t, s'.running[db]);
    }
  }

  lemma BeganBefore(log: seq<Store>, db: Key, t: Thread)
    requires log != [] && InitIsLate(log, db, t)
    ensures t.began < |log| && (t.pc.Make? && t.pc.part == 2 ==> ChildKey(db, SecretPart) in log[t.began])
  {
  }

  lemma OthersAreLate(s: State, a: Action, db: Key)
    requires Inv(s) && s.log != [] && Enabled(s, a) && db.kind == DbPod && NotSupplied([a], db)
    requires db in s.running && InitIsLate(s.log, db, s.running[db]) && !(a.Call? && a.key == db)
    ensures db in Step(s, a).running ==> InitIsLate(Step(s, a).log, db, Step(s, a).running[db])
  {
    hide Step, Inv, Effect, Resume, Begin, Gates, Build, ChildKey, Passed, InitIsLate;
    StepKeepsLog(s, a);
    StepRuns(s, a);
    assert a in [a];
    BeganBefore(s.log, db, s.running[db]);
    if ChildKey(db, SecretPart) in Live(Step(s, a).log) {
      OldOrOwn(s, a, db, SecretPart, 4);
    }
    if ChildKey(db, InitDbPart) in Live(Step(s, a).log) {
      OldOrOwn(s, a, db, InitDbPart, 2);
    }
    if db in Step(s, a).running {
      StillLate(s.log, Step(s, a).log, db, s.running[db], Step(s, a).running[db]);
    }
  }

  lemma StartIsLate(s: State, db: Key)
    requires Inv(s) && s.log != [] && db !in s.running && Enabled(s, Start(db)) && db in Step(s, Start(db)).running
    ensures InitIsLate(Step(s, Start(db)).log, db, Step(s, Start(db)).running[db])
  {
    hide ChildKey, Parts, Gates, ThreadOK, Guarded, Provenance;
    assert Traced(s.log, |s.log| - 1, |s.log| - 1, ChildKey(db, SecretPart));
    assert Traced(s.log, |s.log| - 1, |s.log| - 1, ChildKey(db, InitDbPart));
  }

  lemma {:induction false} RunIsLate(acts: seq<Action>, db: Key)
    requires db.kind == DbPod && NotSupplied(acts, db) && db in Run(EMPTY, acts).running
    ensures InitIsLate(Versions(acts), db, Run(EMPTY, acts).running[db])
  {
    hide Step, Inv, InitIsLate, Enabled;
    var init, a := acts[..|acts| - 1], acts[|acts| - 1];
    var s := Run(EMPTY, init);
    assert a in acts && forall b :: b in init ==> b in acts;
    RunReleased(init);
    if db in s.running {
      RunIsLate(init, db);
    }
    if !Enabled(s, a) {
      NoStep(s, a);
    } else if db !in s.running {
      OnlyStart(s, a, db);
      StartIsLate(s, db);
    } else if a.Call? && a.key == db {
      CallIsLate(s, db, a.out, a.gen);
    } else {
      OthersAreLate(s, a, db);
    }
  }

  /** A pass that begins without init-db and without the Secret never sees init-db in the store, whatever fails, is
      read late or goes on beside it, unless someone outside creates one of the two. */
  lemma NoInitWithoutSecret(acts: seq<Action>, db: Key)
    requires db.kind == DbPod && NotSupplied(acts, db) && db in Run(EMPTY, acts).running
    requires var began := Run(EMPTY, acts).running[db].began;
             began < |Versions(acts)| && ChildKey(db, InitDbPart) !in Versions(acts)[began]
             && ChildKey(db, SecretPart) !in Versions(acts)[began]
    ensures ChildKey(db, InitDbPart) !in Live(Versions(acts))
  {
    hide Run, ChildKey, ThreadOK, Guarded, Provenance, Released;
    RunIsLate(acts, db);
    RunReleased(acts);
    var log: seq<Store> := Versions(acts);
    var cm := ChildKey(db, InitDbPart);
    if cm in Live(log) {
      assert Live(log)[cm].uid <= Run(EMPTY, acts).running[db].began;
      WasThere(log, Run(EMPTY, acts).running[db].began, cm);
      assert false;
    }
  }

  // ---------------------------------------------------------------- no lost wake-up

  /** This action, made while the reconcile that began then was under way, created this object. */
  ghost predicate CreatedBy(acts: seq<Action>, n: int, parent: Key, began: nat, c: nat, k: Key) {
    && 0 <= n < |acts| && acts[n].Call? && acts[n].key == parent
    && (var s := Run(EMPTY, acts[..n]);
        && |s.log| == c && k !in Live(s.log) && parent in s.running && s.running[parent].pc.Make?
        && s.running[parent].began == began)
  }

  /** What a parent made after a reconcile of it began, and while that one is still under way, that one made. */
  lemma {:induction false} OwnCreate(acts: seq<Action>, parent: Key, c: nat, k: Key)
    requires parent in Run(EMPTY, acts).running && Run(EMPTY, acts).running[parent].began < c < |Versions(acts)|
    requires var log := Versions(acts);
             k in log[c] && log[c][k].uid == c && log[c][k].made.Some? && log[c][k].made.value.parent.key == parent
    ensures exists n :: CreatedBy(acts, n, parent, Run(EMPTY, acts).running[parent].began, c, k)
  {
    hide Step, CreatedBy;
    if acts == [] {
      assert false;
    } else {
      var init, a := acts[..|acts| - 1], acts[|acts| - 1];
      var s, began := Run(EMPTY, init), Run(EMPTY, acts).running[parent].began;
      RunReleased(init);
      StepGrows(s, a);
      StepGrowsByOne(s, a);
      UnderWayBefore(s, a, parent);
      if c < |s.log| {
        OwnCreate(init, parent, c, k);
        var n :| CreatedBy(init, n, parent, began, c, k);
        EarlierCreate(acts, n, parent, began, c, k);
      } else {
        NewestCreate(acts, parent, c, k);
      }
    }
  }

  lemma EarlierCreate(acts: seq<Action>, n: int, parent: Key, began: nat, c: nat, k: Key)
    requires acts != [] && CreatedBy(acts[..|acts| - 1], n, parent, began, c, k)
    ensures CreatedBy(acts, n, parent, began, c, k)
  {
    hide Run;
    assert acts[..|acts| - 1][..n] == acts[..n];
  }

  lemma NewestCreate(acts: seq<Action>, parent: Key, c: nat, k: Key)
    requires acts != []
    requires var init := acts[..|acts| - 1]; var s := Run(EMPTY, init); var a := acts[|acts| - 1];
             Inv(s) && |s.log| == c && |Run(EMPTY, acts).log| == c + 1 && parent in Run(EMPTY, acts).running
    requires var log := Versions(acts);
             k in log[c] && log[c][k].uid == c && log[c][k].made.Some? && log[c][k].made.value.parent.key == parent
    ensures CreatedBy(acts, |acts| - 1, parent, Run(EMPTY, acts).running[parent].began, c, k)
  {
    hide Step, Effect, Guarded, Provenance, Parts;
    var init, a := acts[..|acts| - 1], acts[|acts| - 1];
    var s := Run(EMPTY, init);
    assert Run(EMPTY, acts) == Step(s, a);
    StepGrowsByOne(s, a);
    assert Traced(s.log, c - 1, c - 1, k);
    NewIsDraft(s, a, k);
    UnderWayBefore(s, a, parent);
    NewestIsNew(s, a, k);
  }

  lemma NewestIsNew(s: State, a: Action, k: Key)
    requires Inv(s) && Enabled(s, a) && |Step(s, a).log| == |s.log| + 1 && a.Call? && a.key in s.running
    requires s.running[a.key].pc.Make? && k in Live(Step(s, a).log) && Live(Step(s, a).log)[k].uid == |s.log|
    ensures k !in Live(s.log)
  {
    hide Step, Guarded, Provenance, ThreadOK;
    if k in Live(s.log) {
      assert Traced(s.log, |s.log| - 1, |s.log| - 1, k);
      LiveMadeStays(s, a, k);
      assert false;
    }
  }

  /** Old parts of these names were gone, and gone from the cache, when the DbPod was created; a reconcile of it
      has come to its end, and init-db is missing. */
  ghost predicate EndedWithoutInit(pre: seq<Action>, post: seq<Action>, parent: Key) {
    var s0, s := Run(EMPTY, pre), Run(EMPTY, pre + post);
    && parent.kind == DbPod && parent in s.running && s.running[parent].pc.Done?
    && s.running[parent].me.uid == |s0.log|
    && Absent(s0, ChildKey(parent, InitDbPart)) && Absent(s0, ChildKey(parent, SecretPart))
    && ChildKey(parent, InitDbPart) !in Live(s.log)
    && Untouched(pre + post, ChildKey(parent, InitDbPart)) && Untouched(pre + post, ChildKey(parent, SecretPart))
  }

  /** When a wake-up is lost: a reconcile of a DbPod that has come to its end without init-db leaves a Secret of its
      own; that is younger than its start, so that its creation makes the DbPod run again, if and only if the reconcile
      has not swallowed the failure of a read of it; and then one of its own calls created it. */
  lemma NoLostWakeup(pre: seq<Action>, post: seq<Action>, parent: Key) returns (n: int)
    requires EndedWithoutInit(pre, post, parent)
    ensures var s := Run(EMPTY, pre + post); var t, sec := s.running[parent], ChildKey(parent, SecretPart);
            var swallowed := Swallowed(Run(EMPTY, pre), post, parent, InitDbPart);
            && sec in Live(s.log) && Live(s.log)[sec].owner == Some(Ref(parent, t.me.uid))
            && (Live(s.log)[sec].uid > t.began <==> !swallowed)
            && (!swallowed ==> CreatedBy(pre + post, n, parent, t.began, Live(s.log)[sec].uid, sec))
  {
    hide Run, CreatedBy, Swallowed, Absent, Untouched, Provenance, Lacked;
    n := 0;
    SecretSince(pre, post, parent);
    var s: State := Run(EMPTY, pre + post);
    var sec := ChildKey(parent, SecretPart);
    if Swallowed(Run(EMPTY, pre), post, parent, InitDbPart) {
      SecretIsOlder(pre, post, parent);
    } else {
      LackedIsOlder(s.log, s.running[parent].began, parent);
      OwnCreate(pre + post, parent, Live(s.log)[sec].uid, sec);
      n :| CreatedBy(pre + post, n, parent, s.running[parent].began, Live(s.log)[sec].uid, sec);
    }
  }

  lemma SecretSince(pre: seq<Action>, post: seq<Action>, parent: Key)
    requires EndedWithoutInit(pre, post, parent)
    ensures var s := Run(EMPTY, pre + post); var t, sec := s.running[parent], ChildKey(parent, SecretPart);
            && Historic(s.log) && sec in Live(s.log) && Live(s.log)[sec].owner == Some(Ref(parent, t.me.uid))
            && (!Swallowed(Run(EMPTY, pre), post, parent, InitDbPart) ==> Lacked(s.log, t.began, parent))
            && (var c := Live(s.log)[sec].uid;
                && c < |s.log| && sec in s.log[c] && s.log[c][sec].uid == c && s.log[c][sec].made.Some?
                && s.log[c][sec].made.value.parent.key == parent)
  {
    hide Run, Released, CreatedBy, Swallowed, Absent, BirthInv, Untouched, ThreadOK, Guarded, Provenance, Lacked, ChildKey;
    var s0, s: State := Run(EMPTY, pre), Run(EMPTY, pre + post);
    RunReleased(pre);
    RunReleased(pre + post);
    RunAppend(EMPTY, pre, post);
    RunGrows(s0, post);
    DoneIsHeld(s, parent);
    BornBefore(s, parent, |s0.log|);
    RunBirth(s0, post, parent, 2);
    RunBirth(s0, post, parent, 4);
    var q := DoneSawSecret(s0, s, parent, !Swallowed(s0, post, parent, SecretPart));
    AbsentAtBirth(pre, post, |s.log| - 1, parent, InitDbPart);
    AbsentAtBirth(pre, post, |s.log| - 1, parent, SecretPart);
    PartPresent(pre + post, parent, SecretPart, |s0.log|, q, |s.log| - 1);
    PartOrigin(pre + post, parent, SecretPart, |s0.log|, |s.log| - 1, |s.log| - 1);
    if !Swallowed(s0, post, parent, InitDbPart) {
      InitWasLacked(pre, post, parent);
    }
  }

  /** A swallowed read was one of a Secret older than the reconcile. */
  lemma {:induction false} SwallowedSaw(pre: seq<Action>, post: seq<Action>, db: Key) returns (r: nat)
    requires db.kind == DbPod && NotSupplied(pre + post, db) && db in Run(EMPTY, pre + post).running
    requires Swallowed(Run(EMPTY, pre), post, db, InitDbPart)
    ensures var log := Versions(pre + post); var sec := ChildKey(db, SecretPart);
            var began := Run(EMPTY, pre + post).running[db].began;
            began <= r < |log| && sec in log[r] && log[r][sec].uid <= began
  {
    hide Step, ChildKey;
    var init, a := post[..|post| - 1], post[|post| - 1];
    assert (pre + post)[..|pre + post| - 1] == pre + init;
    assert forall b :: b in pre + init ==> b in pre + post;
    RunAppend(EMPTY, pre, init);
    var s := Run(EMPTY, pre + init);
    UnderWayBefore(s, a, db);
    StepKeepsLog(s, a);
    if Swallowed(Run(EMPTY, pre), init, db, InitDbPart) {
      r := SwallowedSaw(pre, init, db);
    } else {
      RunIsLate(pre + init, db);
      SamePart(DbPod, s.running[db].pc.part, 2);
      r := |s.log| - 1;
    }
  }

  lemma SecretIsOlder(pre: seq<Action>, post: seq<Action>, parent: Key)
    requires EndedWithoutInit(pre, post, parent) && Swallowed(Run(EMPTY, pre), post, parent, InitDbPart)
    requires ChildKey(parent, SecretPart) in Live(Versions(pre + post))
    ensures Live(Versions(pre + post))[ChildKey(parent, SecretPart)].uid <= Run(EMPTY, pre + post).running[parent].began
  {
    hide Run, Released, Swallowed, Absent, Inv, ChildKey;
    var acts, u := pre + post, |Run(EMPTY, pre).log|;
    var log: seq<Store> := Versions(acts);
    RunReleased(acts);
    DoneIsHeld(Run(EMPTY, acts), parent);
    BeganLater(Run(EMPTY, acts), parent);
    BornBefore(Run(EMPTY, acts), parent, u);
    AbsentAtBirth(pre, post, |log| - 1, parent, SecretPart);
    var r := SwallowedSaw(pre, post, parent);
    PartPresent(acts, parent, SecretPart, u, r, |log| - 1);
  }

  lemma BeganLater(s: State, parent: Key)
    requires Inv(s) && s.log != [] && parent in s.running
    ensures s.running[parent].me.uid <= s.running[parent].began
  {
    var t := s.running[parent];
    assert ThreadOK(s, parent, t);
    assert Traced(s.log, t.at, t.at, parent);
  }

  lemma BornBefore(s: State, parent: Key, uid: nat)
    requires Inv(s) && s.log != [] && Holds(Live(s.log), parent, uid)
    ensures uid <= |s.log| - 1
  {
    assert Traced(s.log, |s.log| - 1, |s.log| - 1, parent);
  }

  lemma DoneIsHeld(s: State, parent: Key)
    requires Inv(s) && parent in s.running && s.running[parent].pc.Done?
    ensures s.log != [] && Holds(Live(s.log), parent, s.running[parent].me.uid)
  {
    assert ThreadOK(s, parent, s.running[parent]);
  }

  lemma DoneSawSecret(s0: State, s: State, parent: Key, honest: bool) returns (q: nat)
    requires s0.log != [] && s.log != [] && parent.kind == DbPod && |Parts(DbPod)| == 9
    requires BirthInv(s0, s, parent, 4, honest) && parent in s.running && s.running[parent].pc.Done?
    requires s.running[parent].me.uid == |s0.log|
    ensures |s0.log| <= q < |s.log| && ChildKey(parent, SecretPart) in s.log[q]
  {
    hide Inv, ChildKey, InOrder;
    assert Parts(DbPod)[4] == SecretPart;
    assert SeenFrom(s.log, |s0.log|, |s.log| - 1, ChildKey(parent, Parts(parent.kind)[4]));
    q :| |s0.log| <= q <= |s.log| - 1 && q < |s.log| && ChildKey(parent, SecretPart) in s.log[q];
  }

  lemma InitWasLacked(pre: seq<Action>, post: seq<Action>, parent: Key)
    requires var s0, s := Run(EMPTY, pre), Run(EMPTY, pre + post);
             && parent.kind == DbPod && |Parts(DbPod)| == 9 && BirthInv(s0, s, parent, 2, true)
             && parent in s.running && s.running[parent].pc.Done? && s.running[parent].me.uid == |s0.log|
             && parent in Live(s.log) && Live(s.log)[parent].uid == |s0.log|
             && ChildKey(parent, InitDbPart) !in Live(s.log)
             && |s0.log| < |s.log| && ChildKey(parent, InitDbPart) !in s.log[|s0.log|]
    requires Untouched(pre + post, ChildKey(parent, InitDbPart))
    ensures var s := Run(EMPTY, pre + post); Lacked(s.log, s.running[parent].began, parent)
  {
    hide Run, Inv, ChildKey, InOrder;
    var s0, s: State := Run(EMPTY, pre), Run(EMPTY, pre + post);
    assert Parts(DbPod)[2] == InitDbPart;
    var cm := ChildKey(parent, InitDbPart);
    if SeenFrom(s.log, |s0.log|, |s.log| - 1, cm) {
      var q :| |s0.log| <= q <= |s.log| - 1 && q < |s.log| && cm in s.log[q];
      PartPresent(pre + post, parent, InitDbPart, |s0.log|, q, |s.log| - 1);
      assert false;
    }
  }

  lemma LackedIsOlder(log: seq<Store>, began: nat, parent: Key)
    requires Historic(log) && Lacked(log, began, parent) && ChildKey(parent, SecretPart) in Live(log)
    ensures Live(log)[ChildKey(parent, SecretPart)].uid > began
  {
    var r :| began <= r < |log| && ChildKey(parent, SecretPart) !in log[r];
    assert Traced(log, r, |log| - 1, ChildKey(parent, SecretPart));
  }
}
