/** What the sequence of store versions always satisfies: versions, uids and deletion marks. */
module History {
  import opened Names
  import opened ApiServer
  import opened Machine

  /** b is a later version of the same incarnation as a. */
  predicate Follows(a: Obj, b: Obj) {
    a.uid == b.uid && a.owner == b.owner && a.made == b.made && (a.deleting ==> b.deleting)
  }

  /** An object of version j, looked at from version i: it is unchanged since its resource version,
      and was there, as the same incarnation, ever since its uid. */
  ghost predicate Traced(log: seq<Store>, i: int, j: int, k: Key) {
    0 <= i <= j < |log| && k in log[j] ==>
      var o := log[j][k];
      && o.uid <= o.rv <= j
      && Fits(k.kind, o.body)
      && (o.deleting ==> o.finalizers != [])
      && (o.owner.Some? ==> o.made.Some?)
      && (o.rv <= i ==> k in log[i] && log[i][k] == o)
      && (o.uid <= i ==> k in log[i] && Follows(log[i][k], o))
  }

  ghost predicate Historic(log: seq<Store>) {
    log != [] && log[0] == map[] && forall i, j, k :: Traced(log, i, j, k)
  }

  /** A write that starts a new incarnation or continues the present one. */
  predicate Legal(live: Store, c: Change, n: nat) {
    match c
    case Same => true
    case Del(k) => k in live
    case Put(k, o) =>
      o.rv == n && Fits(k.kind, o.body) && (o.deleting ==> o.finalizers != []) &&
      (o.owner.Some? ==> o.made.Some?) &&
      if k in live then Follows(live[k], o) else o.uid == n && !o.deleting
  }

  lemma WriteTraced(log: seq<Store>, c: Change, i: int, j: int, k: Key)
    requires Historic(log) && Legal(Live(log), c, |log|)
    ensures Traced(Write(log, c), i, j, k)
  {
    var log' := Write(log, c);
    var n := |log|;
    if 0 <= i <= j < |log'| && k in log'[j] {
      assert Traced(log, i, j, k);
      if j == n && !c.Same? {
        assert Traced(log, n - 1, n - 1, k);
        if i < n {
          assert Traced(log, i, n - 1, k);
        }
      }
    }
  }

  lemma WriteHistoric(log: seq<Store>, c: Change)
    requires Historic(log) && Legal(Live(log), c, |log|)
    ensures Historic(Write(log, c))
  {
    forall i, j, k ensures Traced(Write(log, c), i, j, k) {
      WriteTraced(log, c, i, j, k);
    }
  }

  // ---------------------------------------------------------------- every step writes legally

  lemma BuildFits(p: Part, parent: Key, spec: Body, secret: Body, gen: Gen)
    requires parent.kind == ParentKind(p) && Fits(parent.kind, spec)
    ensures Fits(PartKind(p), Build(p, parent, spec, secret, gen))
  {
  }

  /** The bodies a thread carries are of the right type. */
  predicate Typed(parent: Key, t: Thread) {
    && Fits(parent.kind, t.me.body)
    && (t.pc.Make? ==> t.pc.part < |Parts(parent.kind)| && Fits(PartKind(Parts(parent.kind)[t.pc.part]), t.pc.body))
    && (t.pc.GateWrite? ==> Fits(t.pc.held.key.kind, t.pc.held.obj.body))
    && (t.pvc.Some? ==> Fits(t.pvc.value.key.kind, t.pvc.value.obj.body))
  }

  lemma RequestLegal(log: seq<Store>, parent: Key, t: Thread)
    requires Historic(log) && Typed(parent, t)
    ensures Legal(Live(log), Request(log, parent, t), |log|)
  {
    var live := Live(log);
    assert Traced(log, |log| - 1, |log| - 1, parent);
    if t.pc.GateWrite? {
      assert Traced(log, |log| - 1, |log| - 1, t.pc.held.key);
    }
  }

  lemma EffectLegal(s: State, a: Action)
    requires Historic(s.log) && Enabled(s, a)
    requires a.Call? ==> Typed(a.key, s.running[a.key])
    ensures Legal(Live(s.log), Effect(s, a), |s.log|)
  {
    assert Traced(s.log, |s.log| - 1, |s.log| - 1, a.key);
    if a.Call? {
      RequestLegal(s.log, a.key, s.running[a.key]);
    }
  }
}
