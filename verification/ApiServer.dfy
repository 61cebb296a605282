/** Objects, and what the API server does with a create, update, status update or delete. */
module ApiServer {
  import opened Names
  import InitSql

  type Labels = map<string, string>

  /** The part of an object the controllers write once, at creation. */
  datatype Body =
    | CorePodSpec(size: int, pvSize: int, dbImg: string, orgImg: string, beReplicas: int)
    | OrgPodSpec(size: int, pvSize: int, dbImg: string, orgImg: string, beReplicas: int)
    | DbPodSpec(size: int, dbImg: string)
    | CoreExtSpec
    | Account
    | Rules
    | Binding(roleKind: Kind, roleName: string, subject: string, subjectNs: string)
    | ServiceSpec(selector: Labels, ports: seq<nat>, headless: bool)
    | Settings(host: string)
    | InitScript(sql: string)
    | Credentials(passwordRoot: string, username: string, password: string)
    | ProxyConfig(readHost: string, writeHost: string, username: string, password: string)
    | Workload(serviceName: string, selector: Labels, podLabels: Labels, replicas: nat, configs: seq<string>)
    | Other

  /** Every kind that has a controller carries the spec of its own type. */
  predicate Fits(kind: Kind, body: Body) {
    match kind
    case CorePod => body.CorePodSpec?
    case OrgPod => body.OrgPodSpec?
    case DbPod => body.DbPodSpec?
    case CoreExt => body.CoreExtSpec?
    case _ => true
  }

  datatype Status = Status(name: string, progress: string, ready: string, available: nat)

  const NO_STATUS := Status("", "", "", 0)

  /** An owner or creator: a key together with the uid of one incarnation. */
  datatype Ref = Ref(key: Key, uid: nat)

  /** What the password generator returned for the two random fields of a Secret. */
  datatype Gen = Gen(passwordRoot: string, password: string)

  /** Audit record of a creation by a controller: parent incarnation, position in Parts, version of the
      parent and store version of the Secret the body was built from. No step reads it. */
  datatype Made = Made(parent: Ref, step: nat, seenRv: nat, secAt: nat, gen: Gen)

  datatype Obj = Obj(uid: nat, rv: nat, owner: Option<Ref>, finalizers: seq<string>, deleting: bool,
                     body: Body, status: Status, made: Option<Made>)

  type Store = map<Key, Obj>

  // ---------------------------------------------------------------- bodies the controllers build

  function Username(secret: Body): string {
    if secret.Credentials? then secret.username else ""
  }

  function Password(secret: Body): string {
    if secret.Credentials? then secret.password else ""
  }

  function DbLabels(name: string): Labels {
    map["app" := name + "-dbapp", "app.kubernetes.io/name" := "mysql"]
  }

  /** The object body the get-or-create function of a part builds for a parent. */
  function Build(p: Part, parent: Key, spec: Body, secret: Body, gen: Gen): Body {
    var x := parent.name;
    match p
    case ExtPart => CoreExtSpec
    case OrgPart =>
      if spec.CorePodSpec?
      then OrgPodSpec(spec.size, spec.pvSize, spec.dbImg, spec.orgImg, spec.beReplicas) else Other
    case DbPodPart => if spec.OrgPodSpec? then DbPodSpec(spec.size, spec.dbImg) else Other
    case AccountPart => Account
    case RolePart => Rules
    case ClusterRolePart => Rules
    case BindingPart => Binding(Role, x + "-role", x + "-sa", parent.ns)
    case ClusterBindingPart => Binding(ClusterRole, x + "-crole", x + "-sa", parent.ns)
    case SvcPart => ServiceSpec(map["app" := x + "-dbapp"], [3306], true)
    case ReadSvcPart => ServiceSpec(map["app" := x + "-dbapp"], [3306], false)
    case ProxySvcPart => ServiceSpec(map["app" := x + "-proxysql"], [6033, 6032], false)
    case CmapPart => Settings(x + "-proxysql:6033")
    case SecretPart => Credentials(gen.passwordRoot, x, gen.password)
    case InitDbPart => InitScript(InitSql.Render(Username(secret), Password(secret)))
    case ProxyCmapPart =>
      ProxyConfig(x + "-readsvc", x + "-mysql-0." + x + "-svc", Username(secret), Password(secret))
    case MysqlPart => Workload(x + "-svc", DbLabels(x), DbLabels(x), 3, [x + "-cmap", x + "-init-db"])
    case ProxyStsPart =>
      Workload("proxysqlcluster", map["app" := x + "-proxysql"], map["app" := x + "-proxysql"], 1,
               [x + "-proxysql-configmap"])
  }

  // ---------------------------------------------------------------- requests

  /** What one request does to the live store. */
  datatype Change = Same | Put(key: Key, obj: Obj) | Del(key: Key)

  function Apply(st: Store, c: Change): Store {
    match c
    case Same => st
    case Put(k, o) => st[k := o]
    case Del(k) => st - {k}
  }

  /** The version check of the API server: a stale or missing object is refused. */
  predicate Current(live: Store, k: Key, o: Obj) {
    k in live && live[k].rv == o.rv
  }

  /** Create refuses an existing name; otherwise the object gets a uid and a version. */
  function CreateRequest(live: Store, k: Key, o: Obj): Change {
    if k in live then Same else Put(k, o)
  }

  /** Update writes metadata and spec, never status; dropping the last finalizer of an object marked
      for deletion removes it; an update that changes nothing makes no new version. */
  function UpdateRequest(live: Store, k: Key, o: Obj, version: nat): Change {
    if !Current(live, k, o) then Same
    else if live[k].deleting && o.finalizers == [] then Del(k)
    else
      var next := live[k].(finalizers := o.finalizers, body := o.body);
      if next == live[k] then Same else Put(k, next.(rv := version))
  }

  /** Status().Update writes status only. */
  function StatusRequest(live: Store, k: Key, o: Obj, version: nat): Change {
    if !Current(live, k, o) || live[k].status == o.status then Same
    else Put(k, live[k].(status := o.status, rv := version))
  }

  /** Delete removes an object without finalizers and marks one that has some. */
  function DeleteRequest(live: Store, k: Key, version: nat): Change {
    if k !in live then Same
    else if live[k].finalizers == [] then Del(k)
    else if live[k].deleting then Same
    else Put(k, live[k].(deleting := true, rv := version))
  }

  /** The list without any copy of x. */
  function RemoveAll(xs: seq<string>, x: string): (r: seq<string>)
    ensures x !in r
  {
    if xs == [] then []
    else if xs[0] == x then RemoveAll(xs[1..], x)
    else [xs[0]] + RemoveAll(xs[1..], x)
  }

  /** Nothing else is lost, and the order is kept: removal goes through a list piece by piece, and leaves a piece
      without x as it is. */
  lemma {:induction false} RemoveAllKeeps(xs: seq<string>, ys: seq<string>, x: string)
    ensures RemoveAll(xs + ys, x) == RemoveAll(xs, x) + RemoveAll(ys, x)
    ensures x !in xs ==> RemoveAll(xs, x) == xs
  {
    if xs == [] {
      assert xs + ys == ys;
    } else {
      RemoveAllKeeps(xs[1..], ys, x);
      assert (xs + ys)[1..] == xs[1..] + ys;
      assert xs == [xs[0]] + xs[1..];
    }
  }

  /** The entries of a list that are not x, in their order; read from the end. */
  function Besides(xs: seq<string>, x: string): (r: seq<string>)
    ensures forall y :: y in r <==> y in xs && y != x
  {
    if xs == [] then []
    else
      var last := xs[|xs| - 1];
      Besides(xs[..|xs| - 1], x) + if last == x then [] else [last]
  }

  lemma {:induction false} RemoveAllIsBesides(xs: seq<string>, x: string)
    ensures RemoveAll(xs, x) == Besides(xs, x)
  {
    if xs != [] {
      var init, last := xs[..|xs| - 1], xs[|xs| - 1];
      RemoveAllIsBesides(init, x);
      RemoveAllKeeps(init, [last], x);
      assert init + [last] == xs && [last][1..] == [];
    }
  }

  lemma NothingBesides(xs: seq<string>, x: string)
    ensures Besides(xs, x) == [] <==> forall y :: y in xs ==> y == x
  {
    hide Besides;
    var r := Besides(xs, x);
    if r != [] {
      assert r[0] in r;
    }
  }

  lemma {:induction false} BesidesTwice(xs: seq<string>, x: string)
    ensures Besides(Besides(xs, x), x) == Besides(xs, x) && Besides(xs + [x], x) == Besides(xs, x)
  {
    assert (xs + [x])[..|xs + [x]| - 1] == xs;
    if xs != [] {
      var init, last := xs[..|xs| - 1], xs[|xs| - 1];
      BesidesTwice(init, x);
      assert (Besides(init, x) + [last])[..|Besides(init, x)|] == Besides(init, x);
    }
  }
}
