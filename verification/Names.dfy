/** Kinds, keys and the names the controllers derive from a parent's name. */
module Names {

  datatype Option<+T> = None | Some(value: T)

  datatype Kind =
    | CorePod | CoreExt | OrgPod | DbPod
    | Service | ConfigMap | Secret | StatefulSet
    | ServiceAccount | Role | RoleBinding | ClusterRole | ClusterRoleBinding
    | PersistentVolumeClaim | Deployment

  /** The kinds that have a controller of their own. */
  predicate Managed(kind: Kind) {
    kind in {CorePod, CoreExt, OrgPod, DbPod}
  }

  predicate ClusterScoped(kind: Kind) {
    kind in {ClusterRole, ClusterRoleBinding}
  }

  /** An address in the API store; the namespace of a cluster-scoped object is empty. */
  datatype Key = Key(kind: Kind, ns: string, name: string)

  /** The objects the four controllers create, one constructor per get-or-create function. */
  datatype Part =
    | ExtPart | OrgPart
    | DbPodPart
    | AccountPart | RolePart | BindingPart | ClusterRolePart | ClusterBindingPart
    | SvcPart | ReadSvcPart | InitDbPart | CmapPart | SecretPart | MysqlPart
    | ProxyCmapPart | ProxySvcPart | ProxyStsPart

  function PartKind(p: Part): Kind {
    match p
    case ExtPart => CoreExt
    case OrgPart => OrgPod
    case DbPodPart => DbPod
    case AccountPart => ServiceAccount
    case RolePart => Role
    case BindingPart => RoleBinding
    case ClusterRolePart => ClusterRole
    case ClusterBindingPart => ClusterRoleBinding
    case SvcPart => Service
    case ReadSvcPart => Service
    case InitDbPart => ConfigMap
    case CmapPart => ConfigMap
    case SecretPart => Secret
    case MysqlPart => StatefulSet
    case ProxyCmapPart => ConfigMap
    case ProxySvcPart => Service
    case ProxyStsPart => StatefulSet
  }

  /** The kind of the parent that creates a part. */
  function ParentKind(p: Part): Kind {
    match p
    case ExtPart => CorePod
    case OrgPart => CorePod
    case DbPodPart => OrgPod
    case AccountPart => CoreExt
    case RolePart => CoreExt
    case BindingPart => CoreExt
    case ClusterRolePart => CoreExt
    case ClusterBindingPart => CoreExt
    case _ => DbPod
  }

  function Suffix(p: Part): string {
    match p
    case ExtPart => "-ext"
    case OrgPart => "-org"
    case DbPodPart => "-dbpod"
    case AccountPart => "-sa"
    case RolePart => "-role"
    case BindingPart => "-rb"
    case ClusterRolePart => "-crole"
    case ClusterBindingPart => "-crb"
    case SvcPart => "-svc"
    case ReadSvcPart => "-readsvc"
    case InitDbPart => "-init-db"
    case CmapPart => "-cmap"
    case SecretPart => "-sec"
    case MysqlPart => "-mysql"
    case ProxyCmapPart => "-proxysql-configmap"
    case ProxySvcPart => "-proxysql"
    case ProxyStsPart => "-proxysql"
  }

  /** The order in which a reconcile of the given kind visits its parts. */
  function Parts(kind: Kind): (ps: seq<Part>)
    ensures forall i :: 0 <= i < |ps| ==> ParentKind(ps[i]) == kind
  {
    match kind
    case CorePod => [ExtPart, OrgPart]
    case OrgPod => [DbPodPart]
    case CoreExt => [AccountPart, RolePart, BindingPart, ClusterRolePart, ClusterBindingPart]
    case DbPod => [SvcPart, ReadSvcPart, InitDbPart, CmapPart, SecretPart, MysqlPart,
                   ProxyCmapPart, ProxySvcPart, ProxyStsPart]
    case _ => []
  }

  function ChildKey(parent: Key, p: Part): Key {
    Key(PartKind(p), if ClusterScoped(PartKind(p)) then "" else parent.ns, parent.name + Suffix(p))
  }

  /** The two parts whose function returns without error when the Secret cannot be read. */
  predicate NeedsSecret(p: Part) {
    p == InitDbPart || p == ProxyCmapPart
  }

  /** ClusterRole and ClusterRoleBinding are the only parts created without a controller reference. */
  predicate Owned(p: Part) {
    p != ClusterRolePart && p != ClusterBindingPart
  }

  /** The named resources a delete branch must find before it drops the finalizer, in order. */
  function Gates(parent: Key): seq<Key> {
    match parent.kind
    case CorePod => [ChildKey(parent, ExtPart)]
    case OrgPod => [Key(Deployment, parent.ns, parent.name + "-pod"),
                    Key(Service, parent.ns, parent.name + "-nodeport"),
                    ChildKey(parent, DbPodPart)]
    case CoreExt => [ChildKey(parent, BindingPart), ChildKey(parent, ClusterBindingPart),
                     ChildKey(parent, RolePart), ChildKey(parent, ClusterRolePart),
                     ChildKey(parent, AccountPart)]
    case DbPod => [ChildKey(parent, MysqlPart), ChildKey(parent, SvcPart), ChildKey(parent, ReadSvcPart),
                   DataClaim(parent, "0"), DataClaim(parent, "1"), DataClaim(parent, "2"),
                   ChildKey(parent, CmapPart), ChildKey(parent, SecretPart), ChildKey(parent, InitDbPart),
                   ChildKey(parent, ProxyCmapPart), ChildKey(parent, ProxySvcPart),
                   ChildKey(parent, ProxyStsPart),
                   ProxyClaim(parent)]
    case _ => []
  }

  function DataClaim(parent: Key, ordinal: string): Key {
    Key(PersistentVolumeClaim, parent.ns, "data-" + parent.name + "-mysql-" + ordinal)
  }

  function ProxyClaim(parent: Key): Key {
    Key(PersistentVolumeClaim, parent.ns, "my-nfs-pvc-" + parent.name + "-proxysql-0")
  }

  /** The thirteen gates of a DbPod, one by one. */
  lemma DbPodGates(key: Key)
    requires key.kind == DbPod
    ensures |Gates(key)| == 13
    ensures Gates(key)[0] == ChildKey(key, MysqlPart)
    ensures Gates(key)[1] == ChildKey(key, SvcPart) && Gates(key)[2] == ChildKey(key, ReadSvcPart)
    ensures Gates(key)[3] == DataClaim(key, "0") && Gates(key)[4] == DataClaim(key, "1")
    ensures Gates(key)[5] == DataClaim(key, "2")
    ensures Gates(key)[6] == ChildKey(key, CmapPart) && Gates(key)[7] == ChildKey(key, SecretPart)
    ensures Gates(key)[8] == ChildKey(key, InitDbPart) && Gates(key)[9] == ChildKey(key, ProxyCmapPart)
    ensures Gates(key)[10] == ChildKey(key, ProxySvcPart) && Gates(key)[11] == ChildKey(key, ProxyStsPart)
    ensures Gates(key)[12] == ProxyClaim(key)
  {
    hide ChildKey, DataClaim, ProxyClaim;
  }

  function Finalizer(kind: Kind): string {
    match kind
    case CorePod => "webapp.aes.dev/finalizercore"
    case CoreExt => "webapp.aes.dev/finalizerext"
    case OrgPod => "webapp.aes.dev/finalizerorg"
    case _ => "webapp.aes.dev/finalizer"
  }

  /** Distance from the leaves of the ownership hierarchy. */
  function Rank(kind: Kind): nat {
    match kind
    case CorePod => 3
    case OrgPod => 2
    case CoreExt => 1
    case DbPod => 1
    case _ => 0
  }

  // ---------------------------------------------------------------- suffixes

  lemma SplitSuffix(x: string, a: string, y: string, b: string)
    requires x + a == y + b && |a| <= |b|
    ensures a == b[|b| - |a|..]
    ensures |a| == |b| ==> x == y && a == b
  {
    var z := x + a;
    assert z[|z| - |a|..] == a;
    assert z[|z| - |b|..] == b;
    assert b[|b| - |a|..] == z[|z| - |a|..];
    if |a| == |b| {
      assert z[..|z| - |a|] == x;
      assert z[..|z| - |a|] == y;
    }
  }

  /** The character at distance i from the right end. */
  function FromEnd(s: string, i: nat): char
    requires i < |s|
  {
    s[|s| - 1 - i]
  }

  /** Two suffixes used for one kind differ at some distance from the right end, within the shorter. */
  lemma SuffixFree(p: Part, q: Part) returns (i: nat)
    requires p != q && PartKind(p) == PartKind(q)
    ensures i < |Suffix(p)| && i < |Suffix(q)|
    ensures FromEnd(Suffix(p), i) != FromEnd(Suffix(q), i)
  {
    i := if {p, q} == {SvcPart, ReadSvcPart} then 3
         else if {p, q} == {CmapPart, ProxyCmapPart} then 4
         else if {p, q} == {MysqlPart, ProxyStsPart} then 5
         else 0;
  }

  lemma DifferFromEnd(x: string, a: string, y: string, b: string, i: nat)
    requires i < |a| && i < |b| && FromEnd(a, i) != FromEnd(b, i)
    ensures x + a != y + b
  {
    assert FromEnd(x + a, i) == FromEnd(a, i);
    assert FromEnd(y + b, i) == FromEnd(b, i);
  }

  /** A child's kind and name determine the part and the parent's name, for arbitrary parent names. */
  lemma ChildNameInjective(x: string, p: Part, y: string, q: Part)
    requires PartKind(p) == PartKind(q)
    requires x + Suffix(p) == y + Suffix(q)
    ensures p == q && x == y
  {
    if p == q {
      SplitSuffix(x, Suffix(p), y, Suffix(q));
    } else {
      var i := SuffixFree(p, q);
      DifferFromEnd(x, Suffix(p), y, Suffix(q), i);
    }
  }

  /** Two parents that claim one namespaced child are one parent, and claim it as the same part. */
  lemma ChildKeyInjective(x: Key, p: Part, y: Key, q: Part)
    requires x.kind == ParentKind(p) && y.kind == ParentKind(q)
    requires ChildKey(x, p) == ChildKey(y, q)
    ensures p == q && x.name == y.name
    ensures Owned(p) ==> x == y
  {
    ChildNameInjective(x.name, p, y.name, q);
  }

  /** No object is its own child: a child's rank is below its parent's. */
  lemma RankDescends(p: Part)
    ensures Rank(PartKind(p)) < Rank(ParentKind(p)) <= 3
  {
  }

  /** The four controllers hold on to their objects with four different finalizers. */
  lemma FinalizersDiffer(a: Kind, b: Kind)
    requires Managed(a) && Managed(b)
    ensures Finalizer(a) == Finalizer(b) <==> a == b
  {
  }

  /** The names the delete branches look up are those under which the other functions create the objects. */
  lemma GatesByName(x: string, ns: string)
    ensures Gates(Key(CorePod, ns, x)) == [Key(CoreExt, ns, x + "-ext")]
    ensures Gates(Key(OrgPod, ns, x)) ==
              [Key(Deployment, ns, x + "-pod"), Key(Service, ns, x + "-nodeport"), Key(DbPod, ns, x + "-dbpod")]
    ensures Gates(Key(CoreExt, ns, x)) ==
              [Key(RoleBinding, ns, x + "-rb"), Key(ClusterRoleBinding, "", x + "-crb"), Key(Role, ns, x + "-role"),
               Key(ClusterRole, "", x + "-crole"), Key(ServiceAccount, ns, x + "-sa")]
  {
  }

  /** So are those of a DbPod, but for the volume claims, which nobody here creates. */
  lemma DbPodGatesByName(x: string, ns: string)
    ensures var db := Key(DbPod, ns, x); var g := Gates(db);
            && |g| == 13
            && g[0] == Key(StatefulSet, ns, x + "-mysql") && g[1] == Key(Service, ns, x + "-svc")
            && g[2] == Key(Service, ns, x + "-readsvc") && g[6] == Key(ConfigMap, ns, x + "-cmap")
            && g[7] == Key(Secret, ns, x + "-sec") && g[8] == Key(ConfigMap, ns, x + "-init-db")
            && g[9] == Key(ConfigMap, ns, x + "-proxysql-configmap") && g[10] == Key(Service, ns, x + "-proxysql")
            && g[11] == Key(StatefulSet, ns, x + "-proxysql")
  {
    hide Gates, DataClaim, ProxyClaim, ChildKey;
    DbPodGates(Key(DbPod, ns, x));
    DatabaseNames(x, ns);
    SettingsNames(x, ns);
  }

  lemma DatabaseNames(x: string, ns: string)
    ensures var db := Key(DbPod, ns, x);
            && ChildKey(db, MysqlPart) == Key(StatefulSet, ns, x + "-mysql")
            && ChildKey(db, SvcPart) == Key(Service, ns, x + "-svc")
            && ChildKey(db, ReadSvcPart) == Key(Service, ns, x + "-readsvc")
            && ChildKey(db, ProxySvcPart) == Key(Service, ns, x + "-proxysql")
            && ChildKey(db, ProxyStsPart) == Key(StatefulSet, ns, x + "-proxysql")
  {
  }

  lemma SettingsNames(x: string, ns: string)
    ensures var db := Key(DbPod, ns, x);
            && ChildKey(db, CmapPart) == Key(ConfigMap, ns, x + "-cmap")
            && ChildKey(db, SecretPart) == Key(Secret, ns, x + "-sec")
            && ChildKey(db, InitDbPart) == Key(ConfigMap, ns, x + "-init-db")
            && ChildKey(db, ProxyCmapPart) == Key(ConfigMap, ns, x + "-proxysql-configmap")
  {
  }
}
