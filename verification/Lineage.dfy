/** The ownership forest, the way specs travel down it, and the cluster-scoped objects outside it. */
module Lineage {
  import opened Names
  import opened ApiServer
  import opened Machine
  import opened History
  import opened Protocol
  import opened ProtocolProofs
  import opened Finalizers
  import opened Children
  import opened Credentials

  // ---------------------------------------------------------------- ownership

  /** An owner is an older incarnation of higher rank in the same namespace that claims this name. */
  lemma OwnerAbove(acts: seq<Action>, j: nat, k: Key)
    requires j < |Versions(acts)| && k in Versions(acts)[j] && Versions(acts)[j][k].owner.Some?
    ensures var o := Versions(acts)[j][k]; var r := o.owner.value;
            && r.key.ns == k.ns && Rank(k.kind) < Rank(r.key.kind) && r.uid < o.uid
            && (exists p :: ParentKind(p) == r.key.kind && Owned(p) && k == ChildKey(r.key, p))
  {
    OwnedWasMade(acts, j, k);
    var m := Versions(acts)[j][k].made.value;
    var p := Parts(m.parent.key.kind)[m.step];
    RankDescends(p);
    assert ParentKind(p) == m.parent.key.kind && Owned(p);
    assert k == ChildKey(m.parent.key, p);
  }

  /** Each key of the chain is, in some version of the store, the owner of the one before it. */
  ghost predicate OwnerChain(log: seq<Store>, ks: seq<Key>) {
    forall n :: 0 <= n < |ks| - 1 ==> OwnedBy(log, ks[n], ks[n + 1])
  }

  ghost predicate OwnedBy(log: seq<Store>, k: Key, owner: Key) {
    exists j :: 0 <= j < |log| && k in log[j] && log[j][k].owner.Some? && log[j][k].owner.value.key == owner
  }

  /** Ownership over all versions of a run is a forest: chains stay in one namespace, climb in rank,
      and so have no cycle and at most three owners above any object. */
  lemma {:induction false} OwnershipForest(acts: seq<Action>, ks: seq<Key>)
    requires OwnerChain(Versions(acts), ks) && ks != []
    ensures |ks| <= 4
    ensures forall n :: 0 <= n < |ks| ==> ks[n].ns == ks[0].ns && Rank(ks[0].kind) + n <= Rank(ks[n].kind)
    ensures forall m, n :: 0 <= m < n < |ks| ==> ks[m] != ks[n]
  {
    var top := |ks| - 1;
    if top > 0 {
      OwnershipForest(acts, ks[..top]);
      ClimbOne(acts, ks[top - 1], ks[top]);
      forall m, n | 0 <= m < n < |ks| ensures ks[m] != ks[n] {
        if n == top {
          OwnershipForest(acts, ks[m..top]);
        } else {
          assert ks[..top][m] != ks[..top][n];
        }
      }
    }
  }

  lemma ClimbOne(acts: seq<Action>, k: Key, owner: Key)
    requires OwnedBy(Versions(acts), k, owner)
    ensures k.ns == owner.ns && Rank(k.kind) < Rank(owner.kind) <= 3
  {
    var log: seq<Store> := Versions(acts);
    var j :| 0 <= j < |log| && k in log[j] && log[j][k].owner.Some? && log[j][k].owner.value.key == owner;
    OwnerAbove(acts, j, k);
  }

  /** Over a whole run, a name is only ever claimed by one parent. */
  lemma OneClaimant(acts: seq<Action>, i: nat, j: nat, k: Key)
    requires i < |Versions(acts)| && j < |Versions(acts)|
    requires k in Versions(acts)[i] && k in Versions(acts)[j]
    requires Versions(acts)[i][k].owner.Some? && Versions(acts)[j][k].owner.Some?
    ensures Versions(acts)[i][k].owner.value.key == Versions(acts)[j][k].owner.value.key
  {
    OwnerAbove(acts, i, k);
    OwnerAbove(acts, j, k);
    var x, y := Versions(acts)[i][k].owner.value.key, Versions(acts)[j][k].owner.value.key;
    var p :| ParentKind(p) == x.kind && Owned(p) && k == ChildKey(x, p);
    var q :| ParentKind(q) == y.kind && Owned(q) && k == ChildKey(y, q);
    ChildKeyInjective(x, p, y, q);
  }

  // ---------------------------------------------------------------- what an OrgPod keeps

  /** The object is there, as this incarnation with this owner, and nobody has marked it for deletion. */
  predicate Standing(st: Store, k: Key, uid: nat, owner: Ref) {
    k in st && st[k].uid == uid && st[k].owner == Some(owner) && !st[k].deleting
  }

  /** No request of a controller removes or marks an object that is not marked yet. */
  lemma RequestLeavesStanding(log: seq<Store>, parent: Key, t: Thread, k: Key)
    requires log != [] && k in Live(log) && !Live(log)[k].deleting
    ensures var st := Apply(Live(log), Request(log, parent, t)); k in st && !st[k].deleting
  {
    hide Draft, ChildKey, Parts, RemoveAll;
  }

  lemma StepLeavesStanding(s: State, a: Action, k: Key, uid: nat, owner: Ref)
    requires Inv(s) && s.log != [] && Enabled(s, a) && Standing(Live(s.log), k, uid, owner)
    requires owner.key in Live(s.log) && Live(s.log)[owner.key].uid == owner.uid && !(a.UserDelete? && a.key == k)
    ensures Standing(Live(Step(s, a).log), k, uid, owner)
  {
    hide Inv, Request;
    StepWrites(s, a);
    if a.Call? && a.out != Error {
      RequestLeavesStanding(s.log, a.key, s.running[a.key], k);
    }
    LiveMadeStays(s, a, k);
  }

  /** An owned object stays, unmarked, as long as its owner does. */
  lemma {:induction false} StaysStanding(acts: seq<Action>, i: nat, d: nat, k: Key, uid: nat, owner: Ref)
    requires Untouched(acts, k) && i <= d < |Versions(acts)| && Standing(Versions(acts)[i], k, uid, owner)
    requires forall n :: i <= n <= d ==> Holds(Versions(acts)[n], owner.key, owner.uid)
    ensures Standing(Versions(acts)[d], k, uid, owner)
  {
    hide Step, Inv, Standing;
    if i < d {
      var init, a := acts[..|acts| - 1], acts[|acts| - 1];
      UntouchedPrefix(acts, k);
      RunReleased(init);
      var s := Run(EMPTY, init);
      StepGrows(s, a);
      StepGrowsByOne(s, a);
      forall n | i <= n <= d && n < |s.log| ensures Holds(Versions(init)[n], owner.key, owner.uid) {
        assert Holds(Versions(acts)[n], owner.key, owner.uid);
      }
      if d < |s.log| {
        StaysStanding(init, i, d, k, uid, owner);
      } else {
        StaysStanding(init, i, |s.log| - 1, k, uid, owner);
        StepLeavesStanding(s, a, k, uid, owner);
      }
    }
  }

  /** Without the one Deployment from outside that its delete branch looks for, whatever users delete above it,
      an OrgPod keeps its DbPod, unmarked, and with it all its generated objects: the finalizers of both stay. */
  lemma OrgPodKeepsDbPod(acts: seq<Action>, org: Key, db: Key, u: nat, j: nat, d: nat)
    requires forall a :: a in acts && a.UserCreate? ==> a.key != Key(Deployment, org.ns, org.name + "-pod")
    requires j <= d < |Versions(acts)| && org.kind == OrgPod && Untouched(acts, db)
    requires db in Versions(acts)[j] && Versions(acts)[j][db].owner == Some(Ref(org, u))
    ensures Holds(Versions(acts)[d], org, u) && Standing(Versions(acts)[d], db, Versions(acts)[j][db].uid, Ref(org, u))
    ensures forall k :: KeepsLeaf(acts, db, k, j, d)
  {
    hide Run, Released, Inv, Standing, Holds, Provenance;
    var log: seq<Store> := Versions(acts);
    var uid := log[j][db].uid;
    OwnedWasMade(acts, j, db);
    HeldThroughout(acts, org, u, uid, d);
    NewIsStanding(acts, j, db, Ref(org, u));
    StaysStanding(acts, uid, d, db, uid, Ref(org, u));
    forall k ensures KeepsLeaf(acts, db, k, j, d) {
      LeafIsKept(acts, db, uid, Ref(org, u), k, j, d);
    }
  }

  /** A generated object of this incarnation of the DbPod that was there at version j is there at version d. */
  ghost predicate KeepsLeaf(acts: seq<Action>, db: Key, k: Key, j: nat, d: nat)
    requires j <= d < |Versions(acts)| && db in Versions(acts)[j]
  {
    var log := Versions(acts);
    !Managed(k.kind) && Untouched(acts, k) && k in log[j] && log[j][k].owner == Some(Ref(db, log[j][db].uid)) ==>
      k in log[d] && log[d][k].uid == log[j][k].uid
  }

  lemma HeldThroughout(acts: seq<Action>, org: Key, u: nat, i: nat, d: nat)
    requires forall a :: a in acts && a.UserCreate? ==> a.key != Key(Deployment, org.ns, org.name + "-pod")
    requires i <= d < |Versions(acts)| && org.kind == OrgPod && Holds(Versions(acts)[i], org, u)
    ensures forall n :: i <= n <= d ==> Holds(Versions(acts)[n], org, u)
  {
    hide Run;
    forall n | i <= n <= d ensures Holds(Versions(acts)[n], org, u) {
      OrgPodNeverReleased(acts, i, n, org);
    }
  }

  lemma NewestUnmarked(s: State, a: Action, k: Key)
    requires Inv(s) && s.log != [] && |Step(s, a).log| == |s.log| + 1
    requires k in Live(Step(s, a).log) && Live(Step(s, a).log)[k].uid == |s.log|
    ensures !Live(Step(s, a).log)[k].deleting
  {
    hide Effect, Guarded, Provenance, ThreadOK;
    assert Traced(s.log, |s.log| - 1, |s.log| - 1, k);
    if a.Call? {
      ThreadTyped(s, a.key, s.running[a.key]);
    }
    EffectLegal(s, a);
  }

  lemma {:induction false} FirstUnmarked(acts: seq<Action>, c: nat, k: Key)
    requires c < |Versions(acts)| && k in Versions(acts)[c] && Versions(acts)[c][k].uid == c
    ensures !Versions(acts)[c][k].deleting
  {
    hide Step, Inv;
    if acts != [] {
      var init, a := acts[..|acts| - 1], acts[|acts| - 1];
      RunReleased(init);
      var s := Run(EMPTY, init);
      StepGrows(s, a);
      StepGrowsByOne(s, a);
      if c < |s.log| {
        FirstUnmarked(init, c, k);
      } else {
        NewestUnmarked(s, a, k);
      }
    }
  }

  /** What a controller has just created is not marked for deletion. */
  lemma NewIsStanding(acts: seq<Action>, j: nat, k: Key, owner: Ref)
    requires j < |Versions(acts)| && k in Versions(acts)[j] && Versions(acts)[j][k].owner == Some(owner)
    ensures Versions(acts)[j][k].uid <= j
    ensures Standing(Versions(acts)[Versions(acts)[j][k].uid], k, Versions(acts)[j][k].uid, owner)
  {
    OwnedWasMade(acts, j, k);
    FirstUnmarked(acts, Versions(acts)[j][k].uid, k);
  }

  lemma LeafIsKept(acts: seq<Action>, db: Key, uid: nat, owner: Ref, k: Key, j: nat, d: nat)
    requires j <= d < |Versions(acts)| && db in Versions(acts)[j] && Versions(acts)[j][db].uid == uid
    requires Standing(Versions(acts)[d], db, uid, owner)
    ensures KeepsLeaf(acts, db, k, j, d)
  {
    hide Run;
    var log: seq<Store> := Versions(acts);
    if !Managed(k.kind) && Untouched(acts, k) && k in log[j] && log[j][k].owner == Some(Ref(db, uid)) {
      OwnedWasMade(acts, j, k);
      ChildRemains(acts, j, d, k);
    }
  }

  // ---------------------------------------------------------------- specs

  /** The five fields a CorePod hands to its OrgPod. */
  predicate SameOrgFields(core: Body, org: Body) {
    core.CorePodSpec? && org.OrgPodSpec? && core.size == org.size && core.pvSize == org.pvSize &&
    core.dbImg == org.dbImg && core.orgImg == org.orgImg && core.beReplicas == org.beReplicas
  }

  predicate SameDbFields(org: Body, db: Body) {
    org.OrgPodSpec? && db.DbPodSpec? && org.size == db.size && org.dbImg == db.dbImg
  }

  /** A created OrgPod carries the five fields, and a created DbPod the two fields, of a spec its owner
      incarnation had at some version before the creation; no controller changes them later. */
  lemma SpecInherited(acts: seq<Action>, j: nat, k: Key) returns (q: nat)
    requires j < |Versions(acts)| && k in Versions(acts)[j] && Versions(acts)[j][k].owner.Some?
    requires k.kind == OrgPod || k.kind == DbPod
    requires Unedited(acts, k)
    ensures var log := Versions(acts); var o := log[j][k]; var r := o.owner.value;
            && q <= o.uid <= j && r.key in log[q] && log[q][r.key].uid == r.uid
            && (k.kind == OrgPod ==> SameOrgFields(log[q][r.key].body, o.body))
            && (k.kind == DbPod ==> SameDbFields(log[q][r.key].body, o.body))
  {
    RunReleased(acts);
    OwnedWasMade(acts, j, k);
    var log: seq<Store> := Versions(acts);
    var o := log[j][k];
    var m := o.made.value;
    q := m.seenRv;
    BodyKept(acts, o.uid, j, k);
    assert Traced(log, q, q, m.parent.key);
  }

  /** With stable specs a DbPod's Size and DbImg are the CorePod's, across both levels. */
  lemma SpecAcrossLevels(acts: seq<Action>, j: nat, core: Key, org: Key, db: Key)
    requires Unedited(acts, core) && Unedited(acts, org) && Unedited(acts, db)
    requires core.kind == CorePod && org.kind == OrgPod && db.kind == DbPod && j < |Versions(acts)|
    requires var st := Versions(acts)[j];
             && core in st && org in st && db in st
             && st[org].owner == Some(Ref(core, st[core].uid)) && st[db].owner == Some(Ref(org, st[org].uid))
    ensures var st := Versions(acts)[j];
            && st[core].body.CorePodSpec? && st[db].body.DbPodSpec?
            && st[db].body.size == st[core].body.size && st[db].body.dbImg == st[core].body.dbImg
            && db.name == core.name + "-org" + "-dbpod" && db.ns == core.ns
  {
    RunReleased(acts);
    var log: seq<Store> := Versions(acts);
    var q := SpecInherited(acts, j, org);
    assert Traced(log, j, j, org);
    BodyKept(acts, q, j, core);
    var r := SpecInherited(acts, j, db);
    assert Traced(log, j, j, db);
    BodyKept(acts, r, j, org);
    OwnerAbove(acts, j, org);
    OwnerAbove(acts, j, db);
  }

  // ---------------------------------------------------------------- cluster-scoped objects

  /** A ClusterRole or ClusterRoleBinding a controller created survives whatever happens to CoreExts, and
      is what its creator would build again: for the role, what any CoreExt of that name would build;
      for the binding, one whose subject lives in the creator's namespace. */
  lemma ClusterObjectSurvives(acts: seq<Action>, parent: Key, p: Part, i: nat, j: nat, spec: Body, gen: Gen)
    returns (creator: Key)
    requires parent.kind == CoreExt == ParentKind(p) && !Owned(p) && i <= j < |Versions(acts)|
    requires Undisturbed(acts, ChildKey(parent, p)) && ChildKey(parent, p) in Versions(acts)[i]
    ensures var log := Versions(acts); var k := ChildKey(parent, p);
            && k in log[j] && log[j][k].uid == log[i][k].uid
            && log[i][k].made.Some? && creator == log[i][k].made.value.parent.key
            && creator.kind == CoreExt && creator.name == parent.name
            && log[j][k].body == Build(p, creator, spec, Other, gen)
            && (p == ClusterRolePart ==> log[j][k].body == Build(p, parent, spec, Other, gen))
            && (p == ClusterBindingPart ==>
                  log[j][k].body == Binding(ClusterRole, parent.name + "-crole", parent.name + "-sa", creator.ns))
            && log[i][k].uid <= i && creator in log[log[i][k].uid]
  {
    RunReleased(acts);
    var log: seq<Store> := Versions(acts);
    var k := ChildKey(parent, p);
    var o := ClusterOrigin(acts, parent, p, i);
    creator := o.made.value.parent.key;
    ChildRemains(acts, i, j, k);
    BodyKept(acts, o.uid, j, k);
  }

  /** No CoreExt of this name was ever in another namespace. */
  ghost predicate UniqueName(log: seq<Store>, parent: Key) {
    forall i, x :: 0 <= i < |log| && x in log[i] && x.kind == CoreExt && x.name == parent.name ==> x.ns == parent.ns
  }

  /** The ClusterRoleBinding of a name binds the account in the namespace of the CoreExt that is on record as its
      creator; so another CoreExt of that name has its own account bound exactly if it is in that namespace,
      and always if no CoreExt of the name was ever in another one. */
  lemma OwnAccountBound(acts: seq<Action>, parent: Key, j: nat) returns (creator: Key)
    requires parent.kind == CoreExt && j < |Versions(acts)|
    requires Undisturbed(acts, ChildKey(parent, ClusterBindingPart))
    requires ChildKey(parent, ClusterBindingPart) in Versions(acts)[j]
    ensures var o := Versions(acts)[j][ChildKey(parent, ClusterBindingPart)];
            && o.made.Some? && creator == o.made.value.parent.key && o.uid <= j && creator in Versions(acts)[o.uid]
            && creator.kind == CoreExt && creator.name == parent.name
            && o.body == Binding(ClusterRole, ChildKey(parent, ClusterRolePart).name,
                                 ChildKey(parent, AccountPart).name, creator.ns)
    ensures UniqueName(Versions(acts), parent) ==>
              Versions(acts)[j][ChildKey(parent, ClusterBindingPart)].body.subjectNs == parent.ns
  {
    hide Run;
    creator := ClusterObjectSurvives(acts, parent, ClusterBindingPart, j, j, Other, Gen("", ""));
    assert creator in Versions(acts)[Versions(acts)[j][ChildKey(parent, ClusterBindingPart)].uid];
  }

  // ---------------------------------------------------------------- what the bindings bind

  /** What a binding grants is there: some version of the store up to c had the role it refers to, a Role of this
      namespace or a ClusterRole, and some had the account it is for. */
  ghost predicate Resolves(log: seq<Store>, c: nat, b: Body, role: Kind, ns: string) {
    && b.Binding? && b.roleKind == role
    && SeenBy(log, c, Key(role, if role == Role then ns else "", b.roleName))
    && SeenBy(log, c, Key(ServiceAccount, b.subjectNs, b.subject))
  }

  /** A binding that a controller made, of either kind, refers to the role and the account of the CoreExt it was made
      for, in that CoreExt's namespace, and both had been in the store before it was made; so the account does get the
      permissions of the role. */
  lemma BindingResolves(acts: seq<Action>, j: nat, k: Key) returns (ext: Key)
    requires k.kind == RoleBinding || k.kind == ClusterRoleBinding
    requires j < |Versions(acts)| && k in Versions(acts)[j] && Versions(acts)[j][k].made.Some? && Unedited(acts, k)
    ensures var o := Versions(acts)[j][k];
            && ext == o.made.value.parent.key && ext.kind == CoreExt && o.uid <= j
            && (k.kind == RoleBinding ==> k.ns == ext.ns && o.owner == Some(o.made.value.parent))
            && o.body.Binding? && o.body.subject == ChildKey(ext, AccountPart).name && o.body.subjectNs == ext.ns
            && o.body.roleName == ChildKey(ext, if k.kind == RoleBinding then RolePart else ClusterRolePart).name
            && Resolves(Versions(acts), o.uid, o.body, if k.kind == RoleBinding then Role else ClusterRole, k.ns)
  {
    hide Run, Released, ThreadOK, Guarded;
    RunReleased(acts);
    var log: seq<Store> := Versions(acts);
    var o := log[j][k];
    assert Traced(log, j, j, k);
    assert Traced(log, o.uid, j, k);
    assert Provenance(log, o.uid, k);
    ext := o.made.value.parent.key;
    var p := Parts(ext.kind)[o.made.value.step];
    OnlyBindings(ext, p, o.made.value.step);
    BodyKept(acts, o.uid, j, k);
    SeenEarlier(log, o.uid, ext, o.made.value.step, 0);
    SeenEarlier(log, o.uid, ext, o.made.value.step, if p == BindingPart then 1 else 3);
    assert BuiltFrom(log[..o.uid + 1], p, ext, o.made.value.parent.uid, log[o.made.value.seenRv][ext].body,
                     log[o.uid][k].body, o.made.value.secAt, o.made.value.gen);
  }

  /** Only two parts are bindings, and the parts they need come before them. */
  lemma OnlyBindings(ext: Key, p: Part, step: nat)
    requires step < |Parts(ext.kind)| && Parts(ext.kind)[step] == p
    requires PartKind(p) == RoleBinding || PartKind(p) == ClusterRoleBinding
    ensures ext.kind == CoreExt && (PartKind(p) == RoleBinding <==> p == BindingPart)
    ensures step == if p == BindingPart then 2 else 4
    ensures p == BindingPart || p == ClusterBindingPart
    ensures Parts(CoreExt)[0] == AccountPart && Parts(CoreExt)[1] == RolePart && Parts(CoreExt)[3] == ClusterRolePart
  {
  }

  lemma SeenEarlier(log: seq<Store>, c: nat, ext: Key, step: nat, n: nat)
    requires PartsSeen(log, c, ext, step) && n < step && n < |Parts(ext.kind)| && !NeedsSecret(Parts(ext.kind)[n])
    ensures SeenBy(log, c, ChildKey(ext, Parts(ext.kind)[n]))
  {
    hide ChildKey, Parts;
  }
}
