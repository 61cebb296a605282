/** What controllers create stays while its parent incarnation lives, appears in program order, and is
    not lost sight of when the Secret was missing. */
module Children {
  import opened Names
  import opened ApiServer
  import opened Machine
  import opened History
  import opened Protocol
  import opened ProtocolProofs
  import opened Finalizers

  /** Nobody outside creates or deletes this key. */
  ghost predicate Untouched(acts: seq<Action>, k: Key) {
    forall a :: a in acts && (a.UserCreate? || a.UserDelete?) ==> a.key != k
  }

  lemma UntouchedPrefix(acts: seq<Action>, k: Key)
    requires acts != [] && Untouched(acts, k)
    ensures Untouched(acts[..|acts| - 1], k)
    ensures var a := acts[|acts| - 1]; a.UserCreate? || a.UserDelete? ==> a.key != k
  {
    assert forall a :: a in acts[..|acts| - 1] ==> a in acts;
    assert acts[|acts| - 1] in acts;
  }

  lemma RequestKeepsLeaf(log: seq<Store>, parent: Key, t: Thread, k: Key)
    requires Historic(log) && Managed(parent.kind) && !Managed(k.kind) && k in Live(log)
    requires t.pc.GateWrite? ==> HeldOK(log, t.pc.held)
    ensures k in Apply(Live(log), Request(log, parent, t))
  {
    if t.pc.GateWrite? {
      WriteBackIsNoOp(log, t.pc.held, |log|);
    }
  }

  lemma StepKeepsLeaf(s: State, a: Action, k: Key)
    requires Inv(s) && Enabled(s, a) && !Managed(k.kind) && k in Live(s.log) && k !in Live(Step(s, a).log)
    ensures (a.UserDelete? || a.Collect?) && a.key == k
  {
    assert Traced(s.log, |s.log| - 1, |s.log| - 1, k);
    if a.Call? {
      RequestKeepsLeaf(s.log, a.key, s.running[a.key], k);
    }
  }

  /** The owner incarnation of an object is in the store, or the object has none. */
  predicate Sheltered(st: Store, o: Obj) {
    o.owner.Some? ==> o.owner.value.key in st && st[o.owner.value.key].uid == o.owner.value.uid
  }

  ghost predicate Remains(log: seq<Store>, i: int, j: int, k: Key) {
    0 <= i <= j < |log| && k in log[i] && log[i][k].made.Some? && Sheltered(log[j], log[i][k]) ==>
      k in log[j] && log[j][k].uid == log[i][k].uid
  }

  lemma OwnerIsOlder(log: seq<Store>, i: nat, k: Key)
    requires Historic(log) && (forall c, k :: Provenance(log, c, k))
    requires i < |log| && k in log[i] && log[i][k].made.Some? && log[i][k].owner.Some?
    ensures log[i][k].owner == Some(log[i][k].made.value.parent)
    ensures log[i][k].owner.value.uid < log[i][k].uid <= i
  {
    assert Traced(log, i, i, k);
    assert Traced(log, log[i][k].uid, i, k);
    assert Provenance(log, log[i][k].uid, k);
  }

  lemma RemainsOnce(log: seq<Store>, log': seq<Store>, i: nat, k: Key)
    requires log != [] && log <= log' && |log'| == |log| + 1 && i < |log| && Historic(log')
    requires forall c, k :: Provenance(log, c, k)
    requires Historic(log) && Remains(log, i, |log| - 1, k)
    requires k in Live(log) && !Orphan(Live(log), k) ==>
               k in Live(log') && Live(log')[k].uid == Live(log)[k].uid
    ensures Remains(log', i, |log|, k)
  {
    var n := |log|;
    if k in log[i] && log[i][k].made.Some? && Sheltered(log'[n], log[i][k]) {
      var o := log[i][k];
      if o.owner.Some? {
        OwnerIsOlder(log, i, k);
        assert Traced(log', n - 1, n, o.owner.value.key);
      }
      assert Traced(log, i, i, k);
      assert Traced(log, i, n - 1, k);
      assert Sheltered(log[n - 1], o);
    }
  }

  lemma LeafStays(s: State, a: Action, k: Key)
    requires Inv(s) && Enabled(s, a) && !Managed(k.kind) && !(a.UserDelete? && a.key == k)
    requires k in Live(s.log) && !Orphan(Live(s.log), k)
    ensures k in Live(Step(s, a).log) && Live(Step(s, a).log)[k].uid == Live(s.log)[k].uid
  {
    if k !in Live(Step(s, a).log) {
      StepKeepsLeaf(s, a, k);
      assert false;
    }
    LiveMadeStays(s, a, k);
  }

  lemma StepRemains(s: State, a: Action, i: nat, k: Key)
    requires Inv(s) && Enabled(s, a) && !Managed(k.kind) && !(a.UserDelete? && a.key == k)
    requires i < |s.log| && |Step(s, a).log| == |s.log| + 1
    requires Remains(s.log, i, |s.log| - 1, k)
    ensures Remains(Step(s, a).log, i, |s.log|, k)
  {
    hide Step, Remains;
    StepGrows(s, a);
    StepHistoric(s, a);
    if k in Live(s.log) && !Orphan(Live(s.log), k) {
      LeafStays(s, a, k);
    }
    RemainsOnce(s.log, Step(s, a).log, i, k);
  }

  lemma StepGrowsByOne(s: State, a: Action)
    requires Inv(s)
    ensures |Step(s, a).log| <= |s.log| + 1
    ensures |Step(s, a).log| == |s.log| + 1 ==> Enabled(s, a)
  {
  }

  /** A leaf object a controller created is still there, as the same incarnation, whenever its owner
      incarnation is; without an owner it is there for good. */
  lemma {:induction false} ChildRemains(acts: seq<Action>, i: nat, j: nat, k: Key)
    requires Untouched(acts, k) && !Managed(k.kind) && i <= j < |Versions(acts)|
    ensures Remains(Versions(acts), i, j, k)
  {
    hide Step, Inv;
    if i < j {
      var init, a := acts[..|acts| - 1], acts[|acts| - 1];
      UntouchedPrefix(acts, k);
      RunReleased(init);
      var s := Run(EMPTY, init);
      StepGrows(s, a);
      StepGrowsByOne(s, a);
      if j < |s.log| {
        ChildRemains(init, i, j, k);
      } else {
        ChildRemains(init, i, |s.log| - 1, k);
        StepRemains(s, a, i, k);
      }
    }
  }

  // ---------------------------------------------------------------- where parts come from

  /** The key has been missing ever since the version the cache shows for it. */
  ghost predicate Absent(s: State, g: Key)
    requires s.log != []
  {
    forall i :: Pos(s, g) <= i < |s.log| ==> g !in s.log[i]
  }

  lemma PartAt(kind: Kind, p: Part) returns (n: nat)
    requires ParentKind(p) == kind
    ensures n < |Parts(kind)| && Parts(kind)[n] == p
    ensures forall m :: 0 <= m < |Parts(kind)| && Parts(kind)[m] == p ==> m == n
  {
    n := match p
      case ExtPart => 0
      case OrgPart => 1
      case DbPodPart => 0
      case AccountPart => 0
      case RolePart => 1
      case BindingPart => 2
      case ClusterRolePart => 3
      case ClusterBindingPart => 4
      case SvcPart => 0
      case ReadSvcPart => 1
      case InitDbPart => 2
      case CmapPart => 3
      case SecretPart => 4
      case MysqlPart => 5
      case ProxyCmapPart => 6
      case ProxySvcPart => 7
      case ProxyStsPart => 8;
  }

  /** An owned part of a parent that was not there when the parent was created, and that nobody outside created,
      was created for this incarnation. */
  lemma PartOrigin(acts: seq<Action>, parent: Key, p: Part, u: nat, i: nat, j: nat)
    requires u <= i <= j < |Versions(acts)| && parent in Versions(acts)[j] && Versions(acts)[j][parent].uid == u
    requires Untouched(acts, ChildKey(parent, p)) && parent.kind == ParentKind(p) && Owned(p)
    requires ChildKey(parent, p) !in Versions(acts)[u] && ChildKey(parent, p) in Versions(acts)[i]
    ensures var log := Versions(acts); var o := log[i][ChildKey(parent, p)];
            && o.made.Some? && o.made.value.parent == Ref(parent, u) && o.owner == Some(Ref(parent, u))
            && u < o.uid <= i
            && o.made.value.step < |Parts(parent.kind)| && Parts(parent.kind)[o.made.value.step] == p
            && Provenance(log, o.uid, ChildKey(parent, p)) && ChildKey(parent, p) in log[o.uid]
            && log[o.uid][ChildKey(parent, p)].uid == o.uid && log[o.uid][ChildKey(parent, p)].made == o.made
  {
    hide Run, Released, ThreadOK, Remains;
    RunReleased(acts);
    var log: seq<Store> := Versions(acts);
    var k := ChildKey(parent, p);
    var o := log[i][k];
    if o.made.None? {
      OutsideOrMade(acts, i, k);
      assert false;
    }
    assert Traced(log, i, i, k);
    assert Traced(log, o.uid, i, k);
    assert Traced(log, u, i, k);
    assert Provenance(log, o.uid, k);
    var m := o.made.value;
    var q := Parts(m.parent.key.kind)[m.step];
    ChildKeyInjective(parent, p, m.parent.key, q);
    assert Traced(log, o.uid, j, parent);
  }

  lemma PartPresent(acts: seq<Action>, parent: Key, p: Part, u: nat, i: nat, j: nat)
    requires u <= i <= j < |Versions(acts)| && parent in Versions(acts)[j] && Versions(acts)[j][parent].uid == u
    requires Untouched(acts, ChildKey(parent, p)) && parent.kind == ParentKind(p) && Owned(p) && !Managed(PartKind(p))
    requires ChildKey(parent, p) !in Versions(acts)[u] && ChildKey(parent, p) in Versions(acts)[i]
    ensures ChildKey(parent, p) in Versions(acts)[j]
    ensures Versions(acts)[j][ChildKey(parent, p)].uid == Versions(acts)[i][ChildKey(parent, p)].uid
  {
    PartOrigin(acts, parent, p, u, i, j);
    ChildRemains(acts, i, j, ChildKey(parent, p));
  }

  /** A part built from the Secret has the Secret, if neither was there when the DbPod was created. */
  lemma SecretBeforeUse(acts: seq<Action>, parent: Key, p: Part, j: nat)
    requires j < |Versions(acts)| && parent in Versions(acts)[j] && parent.kind == DbPod && NeedsSecret(p)
    requires Untouched(acts, ChildKey(parent, p)) && Untouched(acts, ChildKey(parent, SecretPart))
    requires var u := Versions(acts)[j][parent].uid;
             u <= j && ChildKey(parent, p) !in Versions(acts)[u] && ChildKey(parent, SecretPart) !in Versions(acts)[u]
    requires ChildKey(parent, p) in Versions(acts)[j]
    ensures ChildKey(parent, SecretPart) in Versions(acts)[j]
  {
    hide Run, Released, ThreadOK, Provenance, Remains;
    var log: seq<Store> := Versions(acts);
    var u := log[j][parent].uid;
    PartOrigin(acts, parent, p, u, j, j);
    var o := log[j][ChildKey(parent, p)];
    SecretWasRead(log, parent, p, u, o.uid);
    RunReleased(acts);
    var r := o.made.value.secAt;
    assert Traced(log, r, r, parent);
    PartPresent(acts, parent, SecretPart, u, r, j);
  }

  lemma SecretWasRead(log: seq<Store>, parent: Key, p: Part, u: nat, c: nat)
    requires c < |log| && ChildKey(parent, p) in log[c] && NeedsSecret(p) && Provenance(log, c, ChildKey(parent, p))
    requires var o := log[c][ChildKey(parent, p)];
             o.uid == c && o.made.Some? && o.made.value.parent == Ref(parent, u)
             && o.made.value.step < |Parts(parent.kind)| && Parts(parent.kind)[o.made.value.step] == p
    ensures var r := log[c][ChildKey(parent, p)].made.value.secAt;
            r <= c && ChildKey(parent, SecretPart) in log[r] && Holds(log[r], parent, u)
  {
    var r := log[c][ChildKey(parent, p)].made.value.secAt;
    assert r <= c && log[..c + 1][r] == log[r];
  }

  /** A ClusterRoleBinding never exists without its ClusterRole, whichever CoreExt created them. */
  lemma ClusterOrder(acts: seq<Action>, parent: Key, j: nat)
    requires parent.kind == CoreExt && j < |Versions(acts)|
    requires Untouched(acts, ChildKey(parent, ClusterRolePart))
    requires Untouched(acts, ChildKey(parent, ClusterBindingPart))
    requires ChildKey(parent, ClusterBindingPart) in Versions(acts)[j]
    ensures ChildKey(parent, ClusterRolePart) in Versions(acts)[j]
  {
    hide Run, Released, Traced, ThreadOK;
    RunReleased(acts);
    var log: seq<Store> := Versions(acts);
    var k, r := ChildKey(parent, ClusterBindingPart), ChildKey(parent, ClusterRolePart);
    var o := ClusterOrigin(acts, parent, ClusterBindingPart, j);
    var m := o.made.value;
    assert Parts(CoreExt)[3] == ClusterRolePart;
    assert SeenBy(log, o.uid, ChildKey(m.parent.key, Parts(m.parent.key.kind)[3]));
    var q :| 0 <= q <= o.uid && q < |log| && r in log[q];
    var _ := ClusterOrigin(acts, parent, ClusterRolePart, q);
    ChildRemains(acts, q, j, r);
  }

  /** A cluster-scoped part was created by a CoreExt of the parent's name, in some namespace. */
  lemma ClusterOrigin(acts: seq<Action>, parent: Key, p: Part, i: nat) returns (o: Obj)
    requires parent.kind == ParentKind(p) && !Owned(p) && i < |Versions(acts)|
    requires Untouched(acts, ChildKey(parent, p)) && ChildKey(parent, p) in Versions(acts)[i]
    ensures o == Versions(acts)[i][ChildKey(parent, p)]
    ensures o.made.Some? && o.owner.None? && o.uid <= i
    ensures var m := o.made.value;
            && m.parent.key.kind == CoreExt && m.parent.key.name == parent.name
            && m.step < |Parts(CoreExt)| && Parts(CoreExt)[m.step] == p
    ensures ChildKey(parent, p) in Versions(acts)[o.uid] && Versions(acts)[o.uid][ChildKey(parent, p)].uid == o.uid
    ensures Versions(acts)[o.uid][ChildKey(parent, p)].made == o.made
    ensures Provenance(Versions(acts), o.uid, ChildKey(parent, p))
  {
    RunReleased(acts);
    var log: seq<Store> := Versions(acts);
    var k := ChildKey(parent, p);
    o := log[i][k];
    if o.made.None? {
      OutsideOrMade(acts, i, k);
      assert false;
    }
    assert Traced(log, i, i, k);
    assert Traced(log, o.uid, i, k);
    assert Provenance(log, o.uid, k);
    var m := o.made.value;
    ChildKeyInjective(parent, p, m.parent.key, Parts(m.parent.key.kind)[m.step]);
  }
}
