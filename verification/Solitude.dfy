/** Runs in which the reconciles of one object work alone, on fresh reads and without faults. */
module Solitude {
  import opened Names
  import opened ApiServer
  import opened Machine
  import opened Confluence
  import Children

  /** A step of such a run: the cache catches up, a reconcile of the object starts on its present version,
      or its next call succeeds; what it looks up is up to date in the cache. */
  ghost predicate SoloStep(s: State, a: Action, key: Key)
    requires s.log != []
  {
    match a
    case Sync(_, _) => true
    case Start(k) => k == key && SameAt(Cache(s, k), Live(s.log), k)
    case Call(k, out, _) => k == key && out == Success && LooksFresh(s, key)
    case _ => false
  }

  ghost predicate PartsFresh(s: State, key: Key)
    requires s.log != []
  {
    forall p :: ParentKind(p) == key.kind ==> SameAt(Cache(s, ChildKey(key, p)), Live(s.log), ChildKey(key, p))
  }

  ghost predicate GatesFresh(s: State, key: Key)
    requires s.log != []
  {
    forall g :: g in Gates(key) ==> SameAt(Cache(s, g), Live(s.log), g)
  }

  ghost predicate LooksFresh(s: State, key: Key)
    requires s.log != []
  {
    key in s.running ==>
      && (s.running[key].pc.Look? ==> PartsFresh(s, key))
      && (s.running[key].pc.GateLook? ==> GatesFresh(s, key))
  }

  ghost predicate Solo(s: State, acts: seq<Action>, key: Key)
    requires s.log != []
  {
    acts != [] ==>
      Solo(s, acts[..|acts| - 1], key) && SoloStep(Run(s, acts[..|acts| - 1]), acts[|acts| - 1], key)
  }

  lemma {:induction false} SoloSplit(s: State, acts: seq<Action>, more: seq<Action>, key: Key)
    requires s.log != [] && Solo(s, acts + more, key)
    ensures Solo(s, acts, key) && Solo(Run(s, acts), more, key)
  {
    hide SoloStep, Step;
    if more == [] {
      assert acts + more == acts;
    } else {
      var init := more[..|more| - 1];
      assert (acts + more)[..|acts + more| - 1] == acts + init;
      SoloSplit(s, acts, init, key);
      RunAppend(s, acts, init);
    }
  }

  lemma {:induction false} SoloJoin(s: State, acts: seq<Action>, more: seq<Action>, key: Key)
    requires s.log != [] && Solo(s, acts, key) && Solo(Run(s, acts), more, key)
    ensures Solo(s, acts + more, key) && Run(s, acts + more) == Run(Run(s, acts), more)
  {
    hide SoloStep, Step;
    RunAppend(s, acts, more);
    if more == [] {
      assert acts + more == acts;
    } else {
      var init := more[..|more| - 1];
      SoloJoin(s, acts, init, key);
      assert (acts + more)[..|acts + more| - 1] == acts + init;
    }
  }

  lemma OneAction(s: State, a: Action, key: Key)
    requires s.log != [] && SoloStep(s, a, key)
    ensures Solo(s, [a], key) && Run(s, [a]) == Step(s, a)
  {
    hide Step, SoloStep;
    assert [a][..0] == [];
    assert Run(s, [a][..0]) == s;
  }

  lemma CallIsSolo(s: State, key: Key, gen: Gen)
    requires s.log != [] && LooksFresh(s, key)
    ensures SoloStep(s, Call(key, Success, gen), key)
  {
  }

  /** No other reconcile is touched. */
  lemma {:induction false} OthersRest(s: State, acts: seq<Action>, key: Key)
    requires s.log != [] && Solo(s, acts, key)
    ensures Run(s, acts).running - {key} == s.running - {key}
  {
    hide Step, SoloStep;
    if acts != [] {
      OthersRest(s, acts[..|acts| - 1], key);
      StepTouchesOwn(Run(s, acts[..|acts| - 1]), acts[|acts| - 1], key);
    }
  }

  lemma StepTouchesOwn(s: State, a: Action, key: Key)
    requires s.log != [] && SoloStep(s, a, key)
    ensures Step(s, a).running - {key} == s.running - {key}
  {
    hide Resume, Effect, Begin, LooksFresh;
  }

  // ---------------------------------------------------------------- bringing the cache up to date

  lemma SyncMoves(s: State, k: Key)
    requires s.log != []
    ensures var s' := Step(s, Sync(k, |s.log| - 1));
            && s'.log == s.log && s'.running == s.running && Pos(s', k) == |s.log| - 1
            && (forall x :: Pos(s, x) == |s.log| - 1 ==> Pos(s', x) == |s.log| - 1)
  {
  }

  /** The cache shows the newest version of these keys. */
  ghost predicate Synced(s: State, keys: seq<Key>)
    requires s.log != []
  {
    forall j :: 0 <= j < |keys| ==> Pos(s, keys[j]) == |s.log| - 1
  }

  lemma SyncOneMore(s: State, keys: seq<Key>, k: Key)
    requires s.log != [] && Synced(s, keys)
    ensures var s' := Step(s, Sync(k, |s.log| - 1));
            s'.log == s.log && s'.running == s.running && Synced(s', keys + [k])
  {
    hide Step, Pos;
    SyncMoves(s, k);
  }

  /** The syncs that bring the cache up to date for these keys. */
  lemma {:induction false} SyncAll(s: State, keys: seq<Key>, key: Key) returns (acts: seq<Action>)
    requires s.log != []
    ensures Solo(s, acts, key) && (forall a :: a in acts ==> a.Sync?)
    ensures Run(s, acts).log == s.log && Run(s, acts).running == s.running && Synced(Run(s, acts), keys)
  {
    if keys == [] {
      acts := [];
    } else {
      hide Step, Run, Solo, Synced, SoloStep;
      var init, k := keys[..|keys| - 1], keys[|keys| - 1];
      var before := SyncAll(s, init, key);
      var s1 := Run(s, before);
      SyncOneMore(s1, init, k);
      SyncIsSolo(s1, k, |s.log| - 1, key);
      OneAction(s1, Sync(k, |s.log| - 1), key);
      SoloJoin(s, before, [Sync(k, |s.log| - 1)], key);
      assert init + [k] == keys;
      acts := before + [Sync(k, |s.log| - 1)];
    }
  }

  lemma SyncIsSolo(s: State, k: Key, upto: nat, key: Key)
    requires s.log != []
    ensures SoloStep(s, Sync(k, upto), key)
  {
  }

  /** Every call of the run is given this result of the generator. */
  ghost predicate Calls(acts: seq<Action>, gen: Gen) {
    forall a :: a in acts && a.Call? ==> a.gen == gen
  }

  function PartKeys(key: Key): seq<Key> {
    seq(|Parts(key.kind)|, n requires 0 <= n < |Parts(key.kind)| => ChildKey(key, Parts(key.kind)[n]))
  }

  lemma SyncedPartsFresh(s: State, key: Key)
    requires s.log != [] && Synced(s, PartKeys(key))
    ensures PartsFresh(s, key)
  {
    hide Parts, ChildKey, Pos;
    forall p | ParentKind(p) == key.kind ensures SameAt(Cache(s, ChildKey(key, p)), Live(s.log), ChildKey(key, p)) {
      var n := Children.PartAt(key.kind, p);
      assert Pos(s, PartKeys(key)[n]) == |s.log| - 1;
    }
  }

  lemma SyncedGatesFresh(s: State, key: Key)
    requires s.log != [] && Synced(s, Gates(key))
    ensures GatesFresh(s, key)
  {
    hide Gates, Pos;
    forall g | g in Gates(key) ensures SameAt(Cache(s, g), Live(s.log), g) {
      var n :| 0 <= n < |Gates(key)| && Gates(key)[n] == g;
      assert Pos(s, Gates(key)[n]) == |s.log| - 1;
    }
  }
}
