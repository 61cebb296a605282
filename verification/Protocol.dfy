/** The invariant of all runs: what a running reconcile knows, where created objects come from, and
    that a finalizer leaves the live store only through a completed delete branch. */
module Protocol {
  import opened Names
  import opened ApiServer
  import opened Machine
  import opened History

  /** The live store has this incarnation of the parent, with its controller's finalizer. */
  predicate Holds(st: Store, parent: Key, uid: nat) {
    parent in st && st[parent].uid == uid && Finalizer(parent.kind) in st[parent].finalizers
  }

  ghost predicate SeenBy(log: seq<Store>, c: int, k: Key) {
    exists q :: 0 <= q <= c && q < |log| && k in log[q]
  }

  ghost predicate Seen(log: seq<Store>, k: Key) {
    SeenBy(log, |log| - 1, k)
  }

  /** Every earlier part was in some version of the store, except those whose failure is swallowed. */
  ghost predicate PartsSeen(log: seq<Store>, c: int, parent: Key, upto: nat) {
    forall j :: 0 <= j < upto && j < |Parts(parent.kind)| && !NeedsSecret(Parts(parent.kind)[j]) ==>
      SeenBy(log, c, ChildKey(parent, Parts(parent.kind)[j]))
  }

  ghost predicate GatesSeen(log: seq<Store>, parent: Key, upto: nat) {
    forall j :: 0 <= j < upto && j < |Gates(parent)| ==> Seen(log, Gates(parent)[j])
  }

  /** A local copy equals the version it names, except for status fields the code overwrote. */
  predicate Mirrors(log: seq<Store>, k: Key, o: Obj) {
    o.rv < |log| && k in log[o.rv] && o.(status := log[o.rv][k].status) == log[o.rv][k]
  }

  predicate HeldOK(log: seq<Store>, h: Held) {
    h.obj.rv < |log| && h.key in log[h.obj.rv] && log[h.obj.rv][h.key] == h.obj
  }

  function SecretBody(log: seq<Store>, p: Part, parent: Key, at: nat): Body {
    var k := ChildKey(parent, SecretPart);
    if NeedsSecret(p) && at < |log| && k in log[at] then log[at][k].body else Other
  }

  /** The body of a part was built from the parent's spec and, where needed, from a Secret that was
      live while the parent incarnation was live and held its finalizer. */
  ghost predicate BuiltFrom(log: seq<Store>, p: Part, parent: Key, uid: nat, spec: Body, body: Body,
                            secAt: nat, gen: Gen)
  {
    && body == Build(p, parent, spec, SecretBody(log, p, parent, secAt), gen)
    && (NeedsSecret(p) ==>
          secAt < |log| && ChildKey(parent, SecretPart) in log[secAt] && Holds(log[secAt], parent, uid))
  }

  predicate Creating(pc: PC) {
    pc.SetName? || pc.SetInit? || pc.Look? || pc.ReadSecret? || pc.Make? || pc.SetReady? || pc.Done?
  }

  /** How many parts a reconcile has passed. */
  function Passed(kind: Kind, pc: PC): nat {
    match pc
    case Look(i) => i
    case ReadSecret(i) => i
    case Make(i, _, _, _) => i
    case SetReady(i) => i + 1
    case Done => |Parts(kind)|
    case _ => 0
  }

  function GatesPassed(parent: Key, pc: PC): nat {
    match pc
    case GateLook(i) => i
    case GateWrite(i, _) => i + 1
    case DropFin => |Gates(parent)|
    case _ => 0
  }

  ghost predicate PhaseOK(log: seq<Store>, parent: Key, t: Thread)
    requires log != []
  {
    if t.pc.AddFin? then !t.me.deleting
    else if Creating(t.pc) then !t.me.deleting && Holds(Live(log), parent, t.me.uid)
    else t.at < |log| && parent in log[t.at] && t.me == log[t.at][parent] && t.me.deleting
  }

  ghost predicate PointOK(log: seq<Store>, parent: Key, t: Thread) {
    && (t.pc.Look? || t.pc.ReadSecret? || t.pc.Make? || t.pc.SetReady? ==> t.pc.part < |Parts(parent.kind)|)
    && (t.pc.ReadSecret? ==> NeedsSecret(Parts(parent.kind)[t.pc.part]))
    && (t.pc.Make? ==>
          BuiltFrom(log, Parts(parent.kind)[t.pc.part], parent, t.me.uid, t.me.body, t.pc.body, t.pc.secAt, t.pc.gen))
    && (t.pc.GateWrite? ==> HeldOK(log, t.pc.held))
    && (t.pvc.Some? ==> HeldOK(log, t.pvc.value))
    && PartsSeen(log, |log| - 1, parent, Passed(parent.kind, t.pc))
    && GatesSeen(log, parent, GatesPassed(parent, t.pc))
  }

  ghost predicate ThreadOK(s: State, parent: Key, t: Thread)
    requires s.log != []
  {
    && Managed(parent.kind)
    && t.at <= Pos(s, parent) && t.at <= t.began < |s.log|
    && parent in s.log[t.at] && s.log[t.at][parent].uid == t.me.uid
    && Mirrors(s.log, parent, t.me)
    && PhaseOK(s.log, parent, t)
    && PointOK(s.log, parent, t)
  }

  /** Version p is late enough to show that this incarnation is being deleted, or is gone. */
  predicate PastDeletion(log: seq<Store>, p: nat, parent: Key, uid: nat) {
    p < |log| && uid <= p && (parent in log[p] && log[p][parent].uid == uid ==> log[p][parent].deleting)
  }

  /** A finalizer once in the store is still there, or its incarnation passed the delete branch: the
      cache shows the deletion and every gated resource was seen. */
  ghost predicate Guarded(s: State, i: int, parent: Key)
    requires s.log != []
  {
    0 <= i < |s.log| && Managed(parent.kind) && parent in s.log[i] && Holds(s.log[i], parent, s.log[i][parent].uid) ==>
      var uid := s.log[i][parent].uid;
      Holds(Live(s.log), parent, uid) ||
      (PastDeletion(s.log, Pos(s, parent), parent, uid) && GatesSeen(s.log, parent, |Gates(parent)|))
  }

  /** Where an object created by a controller comes from. */
  ghost predicate Provenance(log: seq<Store>, c: int, k: Key) {
    0 <= c < |log| && k in log[c] && log[c][k].uid == c && log[c][k].made.Some? ==>
      var o := log[c][k];
      var m := o.made.value;
      var parent, uid := m.parent.key, m.parent.uid;
      && Managed(parent.kind) && m.step < |Parts(parent.kind)|
      && (var p := Parts(parent.kind)[m.step];
          && k == ChildKey(parent, p)
          && o.owner == (if Owned(p) then Some(m.parent) else None)
          && uid < c && Holds(log[c], parent, uid)
          && m.seenRv <= c && parent in log[m.seenRv] && log[m.seenRv][parent].uid == uid
          && BuiltFrom(log[..c + 1], p, parent, uid, log[m.seenRv][parent].body, o.body, m.secAt, m.gen)
          && PartsSeen(log, c, parent, m.step))
  }

  ghost predicate Inv(s: State) {
    && Historic(s.log)
    && (forall k :: k in s.running ==> ThreadOK(s, k, s.running[k]))
    && (forall i, k :: Guarded(s, i, k))
    && (forall c, k :: Provenance(s.log, c, k))
  }

  // ---------------------------------------------------------------- writes of one call

  lemma ThreadTyped(s: State, parent: Key, t: Thread)
    requires Historic(s.log) && ThreadOK(s, parent, t)
    ensures Typed(parent, t)
  {
    assert Traced(s.log, t.me.rv, t.me.rv, parent);
    if t.pc.Make? {
      var p := Parts(parent.kind)[t.pc.part];
      BuildFits(p, parent, t.me.body, SecretBody(s.log, p, parent, t.pc.secAt), t.pc.gen);
    }
    if t.pc.GateWrite? {
      assert Traced(s.log, t.pc.held.obj.rv, t.pc.held.obj.rv, t.pc.held.key);
    }
    if t.pvc.Some? {
      assert Traced(s.log, t.pvc.value.obj.rv, t.pvc.value.obj.rv, t.pvc.value.key);
    }
  }

  /** An accepted write was sent with the live metadata and body. */
  lemma CurrentIsLive(log: seq<Store>, k: Key, o: Obj)
    requires Historic(log) && Mirrors(log, k, o) && Current(Live(log), k, o)
    ensures o.(status := Live(log)[k].status) == Live(log)[k]
  {
    assert Traced(log, o.rv, |log| - 1, k);
  }

  /** The delete branch writes back what it read: accepted or refused, nothing changes. */
  lemma WriteBackIsNoOp(log: seq<Store>, h: Held, n: nat)
    requires Historic(log) && HeldOK(log, h)
    ensures UpdateRequest(Live(log), h.key, h.obj, n).Same?
  {
    assert Traced(log, h.obj.rv, |log| - 1, h.key);
  }

  /** A call takes a finalizer out of the live store only as the last call of a delete branch. */
  lemma RequestKeepsFin(log: seq<Store>, parent: Key, t: Thread, k: Key, uid: nat)
    requires Historic(log) && Mirrors(log, parent, t.me) && (t.pc.GateWrite? ==> HeldOK(log, t.pc.held))
    requires Holds(Live(log), k, uid)
    requires !(t.pc.DropFin? && k == parent && t.me.uid == uid)
    ensures Holds(Apply(Live(log), Request(log, parent, t)), k, uid)
  {
    if t.pc.GateWrite? {
      WriteBackIsNoOp(log, t.pc.held, |log|);
    }
    if (t.pc.AddFin? || t.pc.DropFin?) && Current(Live(log), parent, t.me) {
      CurrentIsLive(log, parent, t.me);
    }
  }

  predicate Drops(s: State, a: Action, parent: Key, uid: nat) {
    a.Call? && a.key == parent && parent in s.running &&
    s.running[parent].pc.DropFin? && s.running[parent].me.uid == uid
  }

  lemma StepKeepsFin(s: State, a: Action, parent: Key, uid: nat)
    requires Inv(s) && Enabled(s, a)
    requires Holds(Live(s.log), parent, uid) && !Drops(s, a, parent, uid)
    ensures Holds(Live(Step(s, a).log), parent, uid)
  {
    assert Traced(s.log, |s.log| - 1, |s.log| - 1, parent);
    if a.Call? {
      RequestKeepsFin(s.log, a.key, s.running[a.key], parent, uid);
    }
  }
}
