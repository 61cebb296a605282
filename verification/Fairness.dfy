/** Fairness alone brings every run without outside changes to the one final store. */
module Fairness {
  import opened Names
  import opened ApiServer
  import opened Machine
  import opened Closure
  import opened Confluence
  import opened Progress
  import opened Solitude
  import opened Convergence
  import opened Passes

  function Flat(rounds: seq<seq<Action>>): seq<Action> {
    if rounds == [] then [] else Flat(rounds[..|rounds| - 1]) + rounds[|rounds| - 1]
  }

  /** In a fair round every object with a controller completes a pass, one that started at the version the round
      begins with or later, and that did not swallow the failure of a read. */
  ghost predicate FairRound(s0: State, before: seq<Action>, round: seq<Action>)
    requires s0.log != []
  {
    var s := Run(s0, before);
    forall k :: k in Live(s.log) && Managed(k.kind) ==> PassedIn(s0, before, round, k, |s.log| - 1)
  }

  ghost predicate PassedIn(s0: State, before: seq<Action>, round: seq<Action>, k: Key, n: nat)
    requires s0.log != []
  {
    exists m :: 0 <= m <= |round| && Completes(s0, before + round[..m], k, n)
  }

  ghost predicate Fair(s0: State, rounds: seq<seq<Action>>)
    requires s0.log != []
  {
    rounds != [] ==>
      var init, round := rounds[..|rounds| - 1], rounds[|rounds| - 1];
      Fair(s0, init) && FairRound(s0, Flat(init), round)
  }

  lemma RoundInRun(s0: State, before: seq<Action>, round: seq<Action>, k: Key, n: nat)
    requires s0.log != [] && PassedIn(s0, before, round, k, n)
    ensures PassedSince(s0, before + round, k, n)
  {
    hide Completes;
    var m :| 0 <= m <= |round| && Completes(s0, before + round[..m], k, n);
    assert (before + round)[..|before| + m] == before + round[..m];
  }

  /** After a fair round the keys are those of the closure, or more than before it. */
  lemma RoundGrowsOrCloses(s0: State, before: seq<Action>, round: seq<Action>, oracle: Key -> Gen)
    requires Rested(s0) && Calm(before + round, oracle)
    requires FairRound(s0, before, round)
    ensures var a, b := Live(Run(s0, before).log), Live(Run(s0, before + round).log);
            && a.Keys <= b.Keys <= KeyClosure(Live(s0.log).Keys)
            && (a.Keys < b.Keys || b.Keys == KeyClosure(Live(s0.log).Keys))
  {
    hide Run, Calm, CalmInv, KeyClosure, PassedSince, PassedIn;
    CalmPrefix(before, round, oracle);
    StaysInClosure(s0, before + round, oracle);
    RunCalm(s0, before, oracle);
    RunCalm(s0, before + round, oracle);
    RunAppend(s0, before, round);
    RunGrows(Run(s0, before), round);
    RunGrows(s0, before);
    var a, b: State := Run(s0, before), Run(s0, before + round);
    var n := |a.log| - 1;
    KeysStay(s0, b, oracle, n);
    if Live(a.log).Keys == Live(b.log).Keys {
      forall k | k in Live(b.log) && Managed(k.kind) ensures PassedSince(s0, before + round, k, n) {
        assert k in Live(a.log).Keys;
        RoundInRun(s0, before, round, k, n);
      }
      FairRunCloses(s0, before + round, oracle, n);
    }
  }

  /** Each fair round makes the store larger until it is the closure. */
  lemma {:induction false} RoundsLowerDeficit(s0: State, rounds: seq<seq<Action>>, oracle: Key -> Gen)
    requires Rested(s0) && Calm(Flat(rounds), oracle) && Fair(s0, rounds)
    ensures var d := Deficit(s0, Live(Run(s0, Flat(rounds)).log));
            d == 0 || d + |rounds| <= |KeyClosure(Live(s0.log).Keys)|
  {
    hide Run, Calm, KeyClosure, FairRound;
    var all := KeyClosure(Live(s0.log).Keys);
    if rounds == [] {
      SubsetSize(all, Live(Run(s0, []).log).Keys);
    } else {
      var init, round := rounds[..|rounds| - 1], rounds[|rounds| - 1];
      CalmPrefix(Flat(init), round, oracle);
      RoundsLowerDeficit(s0, init, oracle);
      RoundGrowsOrCloses(s0, Flat(init), round, oracle);
      var a, b := Live(Run(s0, Flat(init)).log).Keys, Live(Run(s0, Flat(rounds)).log).Keys;
      if b != all {
        SmallerRest(all, a, b);
      }
    }
  }

  lemma SubsetSize(all: set<Key>, keys: set<Key>)
    ensures |all - keys| <= |all|
  {
    assert all == (all - keys) + (all * keys);
  }

  /** Every run of more fair rounds than there are keys in the closure ends with exactly the closure, whatever else
      failed, crashed or was read late within the rounds. */
  lemma FairRoundsClose(s0: State, rounds: seq<seq<Action>>, oracle: Key -> Gen)
    requires Rested(s0) && Calm(Flat(rounds), oracle) && Fair(s0, rounds)
    requires |rounds| > |KeyClosure(Live(s0.log).Keys)|
    ensures Live(Run(s0, Flat(rounds)).log).Keys == KeyClosure(Live(s0.log).Keys)
  {
    hide Run, Calm, KeyClosure, Fair;
    RoundsLowerDeficit(s0, rounds, oracle);
    StaysInClosure(s0, Flat(rounds), oracle);
    var all, keys := KeyClosure(Live(s0.log).Keys), Live(Run(s0, Flat(rounds)).log).Keys;
    assert all - keys == {};
    assert forall k :: k in all ==> k in keys;
  }

  lemma RestedHasLog(s0: State)
    requires Rested(s0)
    ensures s0.log != []
  {
  }

  lemma ClosedRunsAgree(s0: State, acts1: seq<Action>, acts2: seq<Action>, oracle: Key -> Gen)
    requires Rested(s0) && UniqueExts(KeyClosure(Live(s0.log).Keys)) && Calm(acts1, oracle) && Calm(acts2, oracle)
    requires Live(Run(s0, acts1).log).Keys == KeyClosure(Live(s0.log).Keys)
    requires Live(Run(s0, acts2).log).Keys == KeyClosure(Live(s0.log).Keys)
    ensures var a, b := Live(Run(s0, acts1).log), Live(Run(s0, acts2).log); forall k :: k in a ==> k in b && Alike(k, a[k], b[k])
  {
    hide Run, Calm, KeyClosure, UniqueExts, ClosedKeys, Alike, Rested;
    RestedHasLog(s0);
    ClosureIsClosed(Live(s0.log).Keys);
    var a, b := Live(Run(s0, acts1).log), Live(Run(s0, acts2).log);
    assert ClosedKeys(a.Keys) && ClosedKeys(b.Keys);
    CalmRunsAgree(s0, acts1, acts2, oracle);
    assert forall k :: k in a ==> k in b.Keys;
  }

  /** Confluence: any two such runs from one state at rest end in the same store, but for incarnations, versions
      and status, and for finalizers that have yet to be added. */
  lemma FairRunsAgree(s0: State, rounds1: seq<seq<Action>>, rounds2: seq<seq<Action>>, oracle: Key -> Gen)
    requires Rested(s0) && UniqueExts(KeyClosure(Live(s0.log).Keys))
    requires Calm(Flat(rounds1), oracle) && Fair(s0, rounds1)
    requires Calm(Flat(rounds2), oracle) && Fair(s0, rounds2)
    requires |rounds1| > |KeyClosure(Live(s0.log).Keys)| && |rounds2| > |KeyClosure(Live(s0.log).Keys)|
    ensures var a, b := Live(Run(s0, Flat(rounds1)).log), Live(Run(s0, Flat(rounds2)).log);
            && a.Keys == KeyClosure(Live(s0.log).Keys) && b.Keys == KeyClosure(Live(s0.log).Keys)
            && (forall k :: k in a ==> k in b && Alike(k, a[k], b[k]))
  {
    hide *;
    RestedHasLog(s0);
    FairRoundsClose(s0, rounds1, oracle);
    FairRoundsClose(s0, rounds2, oracle);
    ClosedRunsAgree(s0, Flat(rounds1), Flat(rounds2), oracle);
  }

  // ---------------------------------------------------------------- fair rounds can always be made

  /** No reconcile is under way and nothing with a controller is being deleted. */
  ghost predicate Peaceful(s: State) {
    s.log != [] && s.running == map[] && forall k :: k in Live(s.log) && Managed(k.kind) ==> !Live(s.log)[k].deleting
  }

  lemma {:induction false} SoloIsCalm(s: State, acts: seq<Action>, key: Key, oracle: Key -> Gen)
    requires s.log != [] && Solo(s, acts, key) && Calls(acts, oracle(key))
    ensures Calm(acts, oracle) && NothingSwallowed(s, acts, key)
  {
    hide Step, Run, LooksFresh, SameAt;
    if acts != [] {
      var init, a := acts[..|acts| - 1], acts[|acts| - 1];
      assert a in acts && forall b :: b in init ==> b in acts;
      SoloIsCalm(s, init, key, oracle);
      assert forall b :: b in acts ==> b in init || b == a;
      forall p ensures !Swallowed(s, acts, key, p) {
        assert !Swallowed(s, init, key, p);
      }
    }
  }

  /** What a reconcile swallows it swallows after its start. */
  lemma {:induction false} SwallowedSince(s: State, acts: seq<Action>, more: seq<Action>, k: Key, p: Part)
    requires s.log != [] && k !in Run(s, acts).running && more != [] && Swallowed(s, acts + more, k, p)
    ensures Swallowed(Run(s, acts), more, k, p)
  {
    hide Step, Swallows;
    var init := more[..|more| - 1];
    assert (acts + more)[..|acts + more| - 1] == acts + init;
    RunAppend(s, acts, init);
    assert init == [] ==> acts + init == acts;
    if init != [] && Swallowed(s, acts + init, k, p) {
      SwallowedSince(s, acts, init, k, p);
    }
  }

  /** A pass completed from a state in which none was under way, seen from an earlier state. */
  lemma CompletesFrom(s: State, acts: seq<Action>, more: seq<Action>, k: Key, n: nat)
    requires s.log != [] && k !in Run(s, acts).running && Completes(Run(s, acts), more, k, n)
    ensures Completes(s, acts + more, k, n)
  {
    hide Run, Swallowed;
    RunAppend(s, acts, more);
    assert more != [] by { RunNothing(Run(s, acts)); }
    forall p ensures !Swallowed(s, acts + more, k, p) {
      if Swallowed(s, acts + more, k, p) {
        SwallowedSince(s, acts, more, k, p);
        assert false;
      }
    }
  }

  lemma RunNothing(s: State)
    requires s.log != []
    ensures Run(s, []) == s
  {
  }

  lemma CalmNothing(s: State, oracle: Key -> Gen)
    requires s.log != []
    ensures Calm([], oracle) && Run(s, []) == s
  {
  }

  lemma JoinCalm(s: State, acts: seq<Action>, more: seq<Action>, oracle: Key -> Gen)
    requires s.log != [] && Calm(acts, oracle) && Calm(more, oracle)
    ensures Calm(acts + more, oracle) && Run(s, acts + more) == Run(Run(s, acts), more)
  {
    RunAppend(s, acts, more);
  }

  /** One object's turn: a whole pass of its own. */
  lemma Turn(s: State, key: Key, oracle: Key -> Gen) returns (acts: seq<Action>)
    requires Peaceful(s) && key in Live(s.log) && Managed(key.kind)
    ensures Calm(acts, oracle) && Peaceful(Run(s, acts))
    ensures Live(s.log).Keys <= Live(Run(s, acts).log).Keys
    ensures PassedSince(s, acts, key, |s.log| - 1) && |s.log| <= |Run(s, acts).log|
  {
    hide Run, Solo, Settled, NoCredentials, Steady, AddedPart, MadePart;
    acts := FullPass(s, key, oracle(key));
    SoloIsCalm(s, acts, key, oracle);
    RunGrows(s, acts);
    var m :| 0 <= m <= |acts| && CompletedBy(s, acts, m, key);
    assert acts == acts[..m] + acts[m..];
    SoloSplit(s, acts[..m], acts[m..], key);
    CallsPrefix(acts, m, oracle(key));
    SoloIsCalm(s, acts[..m], key, oracle);
    assert Completes(s, acts[..m], key, |s.log| - 1);
    StillPeaceful(Live(s.log), Live(Run(s, acts).log), key, oracle(key));
  }

  lemma CallsPrefix(acts: seq<Action>, m: nat, gen: Gen)
    requires m <= |acts| && Calls(acts, gen)
    ensures Calls(acts[..m], gen)
  {
    assert forall a :: a in acts[..m] ==> a in acts;
  }

  lemma StillPeaceful(a: Store, b: Store, key: Key, gen: Gen)
    requires key in a && (forall k :: Steady(a, b, key, k)) && (forall k :: AddedPart(a, b, key, k))
    requires forall p :: MadePart(a, b, key, p, gen)
    requires forall k :: k in a && Managed(k.kind) ==> !a[k].deleting
    ensures a.Keys <= b.Keys && (forall k :: k in b && Managed(k.kind) ==> !b[k].deleting)
  {
    hide Build, Built, Determined, Finalized;
    forall k | k in b && Managed(k.kind) ensures !b[k].deleting {
      assert Steady(a, b, key, k) && AddedPart(a, b, key, k);
      if k !in a {
        var p :| ParentKind(p) == key.kind && k == ChildKey(key, p);
        assert MadePart(a, b, key, p, gen);
      }
    }
    forall k | k in a.Keys ensures k in b.Keys {
      assert Steady(a, b, key, k);
    }
  }

  /** Turns of all these objects, one after the other. */
  lemma {:induction false} Turns(s: State, keys: set<Key>, oracle: Key -> Gen) returns (acts: seq<Action>)
    requires Peaceful(s) && forall k :: k in keys ==> k in Live(s.log) && Managed(k.kind)
    ensures Calm(acts, oracle) && Peaceful(Run(s, acts))
    ensures forall k :: k in keys ==> PassedSince(s, acts, k, |s.log| - 1)
    decreases keys
  {
    hide *;
    PeacefulHasLog(s);
    if keys == {} {
      acts := [];
      CalmNothing(s, oracle);
    } else {
      var k :| k in keys;
      var first := Turn(s, k, oracle);
      var s1 := Run(s, first);
      StillThere(s, s1, keys - {k});
      var rest := Turns(s1, keys - {k}, oracle);
      acts := first + rest;
      JoinCalm(s, first, rest, oracle);
      EarlierPass(s, first, rest, k);
      forall x | x in keys - {k} ensures PassedSince(s, acts, x, |s.log| - 1) {
        PeacefulIsIdle(s1, x);
        LaterPass(s, first, rest, x);
      }
      assert keys == keys - {k} + {k};
    }
  }

  lemma StillThere(s: State, s1: State, keys: set<Key>)
    requires s.log != [] && s1.log != [] && Live(s.log).Keys <= Live(s1.log).Keys
    requires forall k :: k in keys ==> k in Live(s.log)
    ensures forall k :: k in keys ==> k in Live(s1.log)
  {
    forall k | k in keys ensures k in Live(s1.log) {
      assert k in Live(s.log).Keys;
    }
  }

  lemma PeacefulHasLog(s: State)
    requires Peaceful(s)
    ensures s.log != []
  {
  }

  lemma PeacefulIsIdle(s: State, k: Key)
    requires Peaceful(s)
    ensures k !in s.running
  {
  }

  lemma EarlierPass(s: State, first: seq<Action>, rest: seq<Action>, k: Key)
    requires s.log != [] && PassedSince(s, first, k, |s.log| - 1)
    ensures PassedSince(s, first + rest, k, |s.log| - 1)
  {
    hide Completes;
    var m :| 0 <= m <= |first| && Completes(s, first[..m], k, |s.log| - 1);
    assert (first + rest)[..m] == first[..m];
  }

  lemma LaterPass(s: State, first: seq<Action>, rest: seq<Action>, k: Key)
    requires s.log != [] && |s.log| <= |Run(s, first).log| && k !in Run(s, first).running
    requires PassedSince(Run(s, first), rest, k, |Run(s, first).log| - 1)
    ensures PassedSince(s, first + rest, k, |s.log| - 1)
  {
    hide Run, NothingSwallowed;
    var s1 := Run(s, first);
    var m :| 0 <= m <= |rest| && Completes(s1, rest[..m], k, |s1.log| - 1);
    assert Completes(s1, rest[..m], k, |s.log| - 1);
    CompletesFrom(s, first, rest[..m], k, |s.log| - 1);
    assert (first + rest)[..|first| + m] == first + rest[..m];
  }

  /** Any number of fair rounds can follow; so the results above are about runs there are. */
  lemma {:induction false} FairRunsExist(s0: State, n: nat, oracle: Key -> Gen) returns (rounds: seq<seq<Action>>)
    requires Peaceful(s0)
    ensures |rounds| == n && Fair(s0, rounds) && Calm(Flat(rounds), oracle)
    ensures Peaceful(Run(s0, Flat(rounds)))
    decreases n
  {
    if n == 0 {
      rounds := [];
    } else {
      hide *;
      var init := FairRunsExist(s0, n - 1, oracle);
      PeacefulHasLog(s0);
      var round := MakeRound(s0, Flat(init), oracle);
      rounds := init + [round];
      OneMoreRound(s0, init, round);
      JoinCalm(s0, Flat(init), round, oracle);
    }
  }

  lemma MakeRound(s0: State, before: seq<Action>, oracle: Key -> Gen) returns (round: seq<Action>)
    requires s0.log != [] && Peaceful(Run(s0, before))
    ensures FairRound(s0, before, round) && Calm(round, oracle) && Peaceful(Run(Run(s0, before), round))
  {
    hide Run, Calm, Completes;
    var s := Run(s0, before);
    var keys := set k | k in Live(s.log) && Managed(k.kind);
    round := Turns(s, keys, oracle);
    forall k | k in Live(s.log) && Managed(k.kind) ensures PassedIn(s0, before, round, k, |s.log| - 1) {
      assert k in keys;
      var m :| 0 <= m <= |round| && Completes(s, round[..m], k, |s.log| - 1);
      CompletesFrom(s0, before, round[..m], k, |s.log| - 1);
    }
  }

  lemma OneMoreRound(s0: State, init: seq<seq<Action>>, round: seq<Action>)
    requires s0.log != [] && Fair(s0, init) && FairRound(s0, Flat(init), round)
    ensures Fair(s0, init + [round]) && Flat(init + [round]) == Flat(init) + round
  {
    hide Run, FairRound;
    var rounds := init + [round];
    assert rounds[..|rounds| - 1] == init;
  }
}
