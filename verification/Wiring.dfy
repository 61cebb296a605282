/** From the host entry a client reads to the pods its statements end at. */
module Wiring {
  import opened Names
  import opened ApiServer
  import opened Ordinals
  import opened Closure
  import InitSql
  import Routing
  import Replication

  /** A pod, by its StatefulSet and ordinal. */
  datatype PodRef = PodRef(owner: Key, ordinal: nat)

  predicate IsPod(st: Store, p: PodRef) {
    p.owner.kind == StatefulSet && p.owner in st && st[p.owner].body.Workload? && p.ordinal < st[p.owner].body.replicas
  }

  predicate Selects(selector: Labels, labels: Labels) {
    forall l :: l in selector ==> l in labels && labels[l] == selector[l]
  }

  /** The pod is an endpoint of the service on this port. */
  predicate Behind(st: Store, svc: Key, port: nat, p: PodRef) {
    && svc.kind == Service && svc in st && st[svc].body.ServiceSpec? && port in st[svc].body.ports
    && IsPod(st, p) && p.owner.ns == svc.ns && Selects(st[svc].body.selector, st[p.owner].body.podLabels)
  }

  /** A `name:port` entry reaches the pod through the service of that name. */
  ghost predicate Connects(st: Store, ns: string, host: string, p: PodRef) {
    exists name: string, port: nat :: host == name + ":" + Decimal(port) && Behind(st, Key(Service, ns, name), port, p)
  }

  /** The stable name of a pod: its own name under the headless service that governs its StatefulSet and publishes
      this port. */
  predicate StableName(st: Store, ns: string, host: string, port: nat, p: PodRef) {
    IsPod(st, p) && p.owner.ns == ns &&
    var w := st[p.owner].body;
    var svc := Key(Service, ns, w.serviceName);
    && host == PodName(p.owner.name, p.ordinal) + "." + w.serviceName
    && svc in st && st[svc].body.ServiceSpec? && st[svc].body.headless && port in st[svc].body.ports
    && Selects(st[svc].body.selector, w.podLabels)
  }

  // ---------------------------------------------------------------- converged namespaces

  /** The part exists with the body its reconcile builds. */
  ghost predicate BuiltPart(st: Store, db: Key, p: Part) {
    ChildKey(db, p) in st &&
    exists secret: Body, gen: Gen :: st[ChildKey(db, p)].body == Build(p, db, Other, secret, gen)
  }

  predicate NetworkKind(kind: Kind) {
    kind == Service || kind == StatefulSet || kind == ConfigMap
  }

  predicate IsDbPod(st: Store, db: Key) {
    db in st && db.kind == DbPod
  }

  /** Every DbPod has its network parts as its reconcile builds them, and every StatefulSet is a part of a
      DbPod. Services and ConfigMaps of others may be there. */
  ghost predicate Converged(st: Store) {
    && (forall db, p :: IsDbPod(st, db) && ParentKind(p) == DbPod && NetworkKind(PartKind(p)) ==> BuiltPart(st, db, p))
    && (forall k :: k in st && k.kind == StatefulSet ==>
          exists db, p :: IsDbPod(st, db) && ParentKind(p) == DbPod && k == ChildKey(db, p))
  }

  lemma BuildIgnoresSpec(p: Part, db: Key, spec: Body, secret: Body, gen: Gen)
    requires ParentKind(p) == DbPod
    ensures Build(p, db, spec, secret, gen) == Build(p, db, Other, secret, gen)
  {
  }

  /** The name belongs to a network part of some DbPod of the store. */
  ghost predicate Taken(st: Store, k: Key) {
    exists db, p :: IsDbPod(st, db) && ParentKind(p) == DbPod && NetworkKind(PartKind(p)) && k == ChildKey(db, p)
  }

  /** Once every parent has all its parts, a store the controllers built is converged, if the start store
      had no StatefulSets and none of the names its DbPods need. */
  lemma ClosedIsConverged(base: Store, st: Store, oracle: Key -> Gen)
    requires forall k :: Justified(base, st, k, oracle)
    requires forall k :: k in base ==> k.kind != StatefulSet && !Taken(st, k)
    requires ClosedKeys(st.Keys)
    ensures Converged(st)
  {
    forall db, p | IsDbPod(st, db) && ParentKind(p) == DbPod && NetworkKind(PartKind(p)) ensures BuiltPart(st, db, p) {
      var k := ChildKey(db, p);
      assert db in st.Keys && k in st.Keys;
      assert Taken(st, k);
      assert Justified(base, st, k, oracle);
      var owner, q :| Claims(st, k, owner, q, oracle);
      ChildKeyInjective(db, p, owner, q);
      BuildIgnoresSpec(p, db, st[db].body, SecretIn(st, p, db), oracle(db));
    }
    forall k | k in st && k.kind == StatefulSet
      ensures exists db, p :: IsDbPod(st, db) && ParentKind(p) == DbPod && k == ChildKey(db, p)
    {
      assert Justified(base, st, k, oracle);
      var db, p :| Claims(st, k, db, p, oracle);
      assert IsDbPod(st, db);
    }
  }

  lemma PartBody(st: Store, db: Key, p: Part) returns (secret: Body, gen: Gen)
    requires Converged(st) && db in st && db.kind == DbPod && ParentKind(p) == DbPod && NetworkKind(PartKind(p))
    ensures ChildKey(db, p) in st && st[ChildKey(db, p)].body == Build(p, db, Other, secret, gen)
  {
    assert IsDbPod(st, db);
    assert BuiltPart(st, db, p);
    secret, gen :| st[ChildKey(db, p)].body == Build(p, db, Other, secret, gen);
  }

  /** A StatefulSet is the MySQL or the ProxySQL set of some DbPod. */
  lemma WhoseSet(st: Store, k: Key) returns (db: Key, p: Part)
    requires Converged(st) && k in st && k.kind == StatefulSet
    ensures db in st && db.kind == DbPod && (p == MysqlPart || p == ProxyStsPart) && k == ChildKey(db, p)
    ensures st[k].body == Build(p, db, Other, Other, Gen("", ""))
  {
    db, p :| IsDbPod(st, db) && ParentKind(p) == DbPod && k == ChildKey(db, p);
    var secret, gen := PartBody(st, db, p);
  }

  /** The `app` label of its pods names the DbPod and the role. */
  lemma PodsOf(st: Store, k: Key) returns (db: Key, p: Part)
    requires Converged(st) && k in st && k.kind == StatefulSet
    ensures db in st && db.kind == DbPod && (p == MysqlPart || p == ProxyStsPart) && k == ChildKey(db, p)
    ensures st[k].body.Workload? && "app" in st[k].body.podLabels
    ensures st[k].body.podLabels["app"] == db.name + (if p == MysqlPart then "-dbapp" else "-proxysql")
  {
    hide Converged;
    db, p := WhoseSet(st, k);
  }

  lemma ServiceBody(st: Store, db: Key, p: Part)
    requires Converged(st) && db in st && db.kind == DbPod && (p == ReadSvcPart || p == ProxySvcPart)
    ensures ChildKey(db, p) in st
    ensures p == ReadSvcPart ==> st[ChildKey(db, p)].body == ServiceSpec(map["app" := db.name + "-dbapp"], [3306], false)
    ensures p == ProxySvcPart ==>
              st[ChildKey(db, p)].body == ServiceSpec(map["app" := db.name + "-proxysql"], [6033, 6032], false)
  {
    hide Converged;
    var _, _ := PartBody(st, db, p);
  }

  lemma SetBody(st: Store, db: Key, p: Part)
    requires Converged(st) && db in st && db.kind == DbPod && (p == MysqlPart || p == ProxyStsPart)
    ensures ChildKey(db, p) in st && st[ChildKey(db, p)].body.Workload?
    ensures st[ChildKey(db, p)].body.replicas == if p == MysqlPart then 3 else 1
    ensures "app" in st[ChildKey(db, p)].body.podLabels
    ensures st[ChildKey(db, p)].body.podLabels["app"] == db.name + (if p == MysqlPart then "-dbapp" else "-proxysql")
  {
    hide Converged;
    var _, _ := PartBody(st, db, p);
  }

  // ---------------------------------------------------------------- labels and names

  lemma LabelsApart(x: string, y: string)
    ensures x + "-dbapp" != y + "-proxysql"
    ensures x + "-dbapp" == y + "-dbapp" <==> x == y
    ensures x + "-proxysql" == y + "-proxysql" <==> x == y
  {
    assert FromEnd("-dbapp", 0) != FromEnd("-proxysql", 0);
    DifferFromEnd(x, "-dbapp", y, "-proxysql", 0);
    if x + "-dbapp" == y + "-dbapp" {
      SplitSuffix(x, "-dbapp", y, "-dbapp");
    }
    if x + "-proxysql" == y + "-proxysql" {
      SplitSuffix(x, "-proxysql", y, "-proxysql");
    }
  }

  lemma PortSplit(x: string, d: string, y: string, e: string)
    requires x + ":" + d == y + ":" + e && AllDigits(d) && AllDigits(e)
    ensures x == y && d == e
  {
    TrailingOf(x + ":", d);
    TrailingOf(y + ":", e);
    SplitSuffix(x + ":", d, y + ":", e);
    SplitSuffix(x, ":", y, ":");
  }

  lemma Decimal6033()
    ensures Decimal(6033) == "6033"
  {
    assert Decimal(6) == "6" && Decimal(60) == "60" && Decimal(603) == "603";
  }

  // ---------------------------------------------------------------- theorems

  lemma BehindProxy(st: Store, db: Key, p: PodRef)
    requires Converged(st) && db in st && db.kind == DbPod
    ensures Behind(st, ChildKey(db, ProxySvcPart), 6033, p) <==> p == PodRef(ChildKey(db, ProxyStsPart), 0)
  {
    hide Build, Converged;
    ServiceBody(st, db, ProxySvcPart);
    SetBody(st, db, ProxyStsPart);
    if Behind(st, ChildKey(db, ProxySvcPart), 6033, p) {
      var other, q := PodsOf(st, p.owner);
      LabelsApart(other.name, db.name);
      assert "app" in st[ChildKey(db, ProxySvcPart)].body.selector;
      SetBody(st, other, q);
    }
  }

  /** The host entry of X-cmap leads to exactly the one pod of X-proxysql, which reads X's own ProxySQL
      configuration, and never to a pod of another DbPod. */
  lemma FrontDoor(st: Store, db: Key, p: PodRef)
    requires Converged(st) && db in st && db.kind == DbPod
    ensures ChildKey(db, CmapPart) in st && st[ChildKey(db, CmapPart)].body.Settings?
    ensures Connects(st, db.ns, st[ChildKey(db, CmapPart)].body.host, p) <==>
            p == PodRef(ChildKey(db, ProxyStsPart), 0)
    ensures ChildKey(db, ProxyStsPart) in st && st[ChildKey(db, ProxyStsPart)].body.Workload?
            && st[ChildKey(db, ProxyStsPart)].body.configs == [ChildKey(db, ProxyCmapPart).name]
  {
    hide Connects, Behind, Converged;
    FrontBodies(st, db);
    BehindProxy(st, db, p);
    ConnectsExactly(st, db.ns, db.name + "-proxysql", p);
    assert db.name + "-proxysql:6033" == db.name + "-proxysql" + ":6033";
  }

  lemma FrontBodies(st: Store, db: Key)
    requires Converged(st) && db in st && db.kind == DbPod
    ensures ChildKey(db, CmapPart) in st && st[ChildKey(db, CmapPart)].body == Settings(db.name + "-proxysql:6033")
    ensures ChildKey(db, ProxyStsPart) in st && st[ChildKey(db, ProxyStsPart)].body.Workload?
            && st[ChildKey(db, ProxyStsPart)].body.configs == [ChildKey(db, ProxyCmapPart).name]
  {
    hide Converged;
    var _, _ := PartBody(st, db, CmapPart);
    var _, _ := PartBody(st, db, ProxyStsPart);
  }

  /** A `name:6033` entry connects to the pods behind port 6033 of the service of that name, and to no other. */
  lemma ConnectsExactly(st: Store, ns: string, name: string, p: PodRef)
    ensures Connects(st, ns, name + ":6033", p) <==> Behind(st, Key(Service, ns, name), 6033, p)
  {
    hide Behind, Decimal;
    Decimal6033();
    assert name + ":6033" == name + ":" + Decimal(6033);
    if Connects(st, ns, name + ":6033", p) {
      var other: string, port: nat :| name + ":6033" == other + ":" + Decimal(port)
                                      && Behind(st, Key(Service, ns, other), port, p);
      PortSplit(other, Decimal(port), name, Decimal(6033));
      DecimalValue(port);
      DecimalValue(6033);
    }
  }

  /** The reader hostgroup of X's ProxySQL leads to exactly the three pods of X-mysql. */
  lemma ReadDoor(st: Store, db: Key, p: PodRef)
    requires Converged(st) && db in st && db.kind == DbPod
    ensures ChildKey(db, ProxyCmapPart) in st && st[ChildKey(db, ProxyCmapPart)].body.ProxyConfig?
    ensures Behind(st, Key(Service, db.ns, st[ChildKey(db, ProxyCmapPart)].body.readHost), 3306, p) <==>
            p.owner == ChildKey(db, MysqlPart) && p.ordinal < 3
  {
    hide Behind, Converged, Decimal;
    var _, _ := PartBody(st, db, ProxyCmapPart);
    BehindReaders(st, db, p);
  }

  lemma BehindReaders(st: Store, db: Key, p: PodRef)
    requires Converged(st) && db in st && db.kind == DbPod
    ensures Behind(st, ChildKey(db, ReadSvcPart), 3306, p) <==> p.owner == ChildKey(db, MysqlPart) && p.ordinal < 3
  {
    hide Build, Converged;
    ServiceBody(st, db, ReadSvcPart);
    SetBody(st, db, MysqlPart);
    if Behind(st, ChildKey(db, ReadSvcPart), 3306, p) {
      var other, q := PodsOf(st, p.owner);
      LabelsApart(db.name, other.name);
      assert "app" in st[ChildKey(db, ReadSvcPart)].body.selector;
    }
  }

  predicate DotFree(s: string) {
    '.' !in s
  }

  lemma DotAt(x: string, a: string, i: nat)
    requires DotFree(x) && i <= |x|
    ensures (x + "." + a)[i] == '.' <==> i == |x|
  {
    if i < |x| {
      assert (x + "." + a)[i] == x[i] && x[i] in x;
    }
  }

  /** With dot-free names, as service names must be, a stable name splits in one way. */
  lemma FirstDot(x: string, y: string, a: string, b: string)
    requires DotFree(x) && DotFree(y) && x + "." + a == y + "." + b
    ensures x == y && a == b
  {
    var i := if |x| <= |y| then |x| else |y|;
    DotAt(x, a, i);
    DotAt(y, b, i);
    assert |x| == |y|;
    assert (x + "." + a)[..|x|] == x && (y + "." + b)[..|y|] == y;
    assert (x + "." + a)[|x| + 1..] == a && (y + "." + b)[|y| + 1..] == b;
  }

  lemma PodNameDotFree(x: string, i: nat)
    requires DotFree(x)
    ensures DotFree(PodName(x, i))
  {
    hide Decimal;
    var d := Decimal(i);
    assert AllDigits(d);
    assert forall c :: c in d ==> Digit(c);
  }

  /** The two hosts ProxySQL is configured with. */
  lemma ProxyHosts(st: Store, db: Key)
    requires Converged(st) && db in st && db.kind == DbPod
    ensures ChildKey(db, ProxyCmapPart) in st && st[ChildKey(db, ProxyCmapPart)].body.ProxyConfig?
    ensures st[ChildKey(db, ProxyCmapPart)].body.readHost == ChildKey(db, ReadSvcPart).name
    ensures st[ChildKey(db, ProxyCmapPart)].body.writeHost ==
              PodName(ChildKey(db, MysqlPart).name, 0) + "." + ChildKey(db, SvcPart).name
  {
    hide Decimal, Converged, PodName;
    var _, _ := PartBody(st, db, ProxyCmapPart);
    FirstPodName(ChildKey(db, MysqlPart).name);
  }

  /** The primary hostgroup of X's ProxySQL leads to exactly pod 0 of X-mysql. */
  lemma WriteDoor(st: Store, db: Key, p: PodRef)
    requires Converged(st) && db in st && db.kind == DbPod
    requires forall k :: k in st && k.kind == DbPod ==> DotFree(k.name)
    ensures ChildKey(db, ProxyCmapPart) in st && st[ChildKey(db, ProxyCmapPart)].body.ProxyConfig?
    ensures StableName(st, db.ns, st[ChildKey(db, ProxyCmapPart)].body.writeHost, 3306, p) <==>
            p == PodRef(ChildKey(db, MysqlPart), 0)
  {
    hide Decimal, StableName, Converged, PodName;
    ProxyHosts(st, db);
    PrimaryHasStableName(st, db);
    if StableName(st, db.ns, st[ChildKey(db, ProxyCmapPart)].body.writeHost, 3306, p) {
      OnlyPrimaryHasIt(st, db, p);
    }
  }

  lemma FirstPodName(x: string)
    ensures PodName(x, 0) == x + "-0"
  {
    assert Decimal(0) == "0";
  }

  lemma PrimaryHasStableName(st: Store, db: Key)
    requires Converged(st) && db in st && db.kind == DbPod
    ensures StableName(st, db.ns, PodName(ChildKey(db, MysqlPart).name, 0) + "." + (db.name + "-svc"), 3306,
                       PodRef(ChildKey(db, MysqlPart), 0))
  {
    hide Decimal, PodName;
    var _, _ := PartBody(st, db, SvcPart);
    var _, _ := PartBody(st, db, MysqlPart);
  }

  lemma OnlyPrimaryHasIt(st: Store, db: Key, p: PodRef)
    requires Converged(st) && db in st && db.kind == DbPod
    requires forall k :: k in st && k.kind == DbPod ==> DotFree(k.name)
    requires StableName(st, db.ns, PodName(ChildKey(db, MysqlPart).name, 0) + "." + (db.name + "-svc"), 3306, p)
    ensures p == PodRef(ChildKey(db, MysqlPart), 0)
  {
    hide Decimal, PodName;
    var mysql := ChildKey(db, MysqlPart);
    var other, q := WhoseSet(st, p.owner);
    PodNameDotFree(mysql.name, 0);
    PodNameDotFree(p.owner.name, p.ordinal);
    FirstDot(PodName(p.owner.name, p.ordinal), PodName(mysql.name, 0), st[p.owner].body.serviceName, db.name + "-svc");
    SamePodName(p.owner.name, p.ordinal, mysql.name, 0);
    ChildKeyInjective(other, q, db, MysqlPart);
  }

  lemma SamePodName(x: string, i: nat, y: string, j: nat)
    requires PodName(x, i) == PodName(y, j)
    ensures x == y && i == j
  {
    var d, e := Decimal(i), Decimal(j);
    TrailingOf(x + "-", d);
    TrailingOf(y + "-", e);
    SplitSuffix(x + "-", d, y + "-", e);
    SplitSuffix(x, "-", y, "-");
    DecimalValue(i);
    DecimalValue(j);
  }

  /** The pods of X-proxysql have no stable names: the service their set names as its governing one, proxysqlcluster, is
      a part of no object, so it is there only if someone outside has created it. */
  lemma ProxyHasNoName(st: Store, db: Key, host: string, port: nat, p: PodRef)
    requires Converged(st) && db in st && db.kind == DbPod && p.owner == ChildKey(db, ProxyStsPart)
    ensures StableName(st, db.ns, host, port, p) ==> Key(Service, db.ns, "proxysqlcluster") in st
    ensures forall k: Key, q: Part :: ParentKind(q) == k.kind ==> ChildKey(k, q) != Key(Service, db.ns, "proxysqlcluster")
  {
    hide Decimal, Converged, PodName;
    var _, _ := PartBody(st, db, ProxyStsPart);
    forall k: Key, q: Part | PartKind(q) == Service ensures k.name + Suffix(q) != "proxysqlcluster" {
      LastLetter(k.name, q);
    }
  }

  lemma LastLetter(x: string, p: Part)
    requires PartKind(p) == Service
    ensures FromEnd(x + Suffix(p), 0) != 'r'
  {
    assert FromEnd(x + Suffix(p), 0) == FromEnd(Suffix(p), 0);
  }

  /** The host ProxySQL uses for a statement: hostgroup 10 is the read service, 20 the stable name of the primary. */
  ghost predicate Reaches(st: Store, db: Key, statement: string, p: PodRef)
    requires ChildKey(db, ProxyCmapPart) in st && st[ChildKey(db, ProxyCmapPart)].body.ProxyConfig?
  {
    var cfg := st[ChildKey(db, ProxyCmapPart)].body;
    if Routing.Route(statement) == 10 then Behind(st, Key(Service, db.ns, cfg.readHost), 3306, p)
    else StableName(st, db.ns, cfg.writeHost, 3306, p)
  }

  /** End to end: whatever statement is sent, it ends at a pod of the DbPod's own MySQL set; one that is not
      a plain read ends at the primary and sees the whole log; any other sees a prefix of it. */
  lemma StatementsMeetTheLog(st: Store, db: Key, statement: string, p: PodRef, events: seq<Replication.Event>)
    requires Converged(st) && db in st && db.kind == DbPod
    requires forall k :: k in st && k.kind == DbPod ==> DotFree(k.name)
    ensures ChildKey(db, ProxyCmapPart) in st && st[ChildKey(db, ProxyCmapPart)].body.ProxyConfig?
    ensures Reaches(st, db, statement, p) ==>
              p.owner == ChildKey(db, MysqlPart) && p.ordinal < |Replication.Play(Replication.Fresh(3), events).pods|
    ensures Reaches(st, db, statement, p) ==>
              var c := Replication.Play(Replication.Fresh(3), events);
              && c.pods[p.ordinal].data <= c.log
              && (!Routing.PlainRead(statement) ==>
                    p.ordinal == 0 && c.pods[p.ordinal].data == c.log)
  {
    WriteDoor(st, db, p);
    ReadDoor(st, db, p);
    Routing.RouteExact(statement);
    Replication.PlaySize(3, events);
    if Reaches(st, db, statement, p) {
      Replication.PrefixSafety(3, events, p.ordinal);
    }
  }

  // ---------------------------------------------------------------- what the pods mount

  /** What the pods of a set mount is there: each volume names a ConfigMap of the store, in order of the volumes. */
  predicate Mounts(st: Store, owner: Key, volumes: seq<Key>) {
    && owner in st && st[owner].body.Workload? && |st[owner].body.configs| == |volumes|
    && forall n :: 0 <= n < |volumes| ==>
         volumes[n] in st && volumes[n].kind == ConfigMap && volumes[n].ns == owner.ns
         && st[owner].body.configs[n] == volumes[n].name
  }

  /** A set selects its own pods, and not everything. */
  predicate SelectsOwn(st: Store, owner: Key) {
    && owner in st && st[owner].body.Workload? && "app" in st[owner].body.selector
    && Selects(st[owner].body.selector, st[owner].body.podLabels)
  }

  /** The pods of X-mysql mount X's settings and its init script, those of X-proxysql its ProxySQL configuration; and
      both sets select their own pods. */
  lemma VolumesMount(st: Store, db: Key)
    requires Converged(st) && db in st && db.kind == DbPod
    ensures Mounts(st, ChildKey(db, MysqlPart), [ChildKey(db, CmapPart), ChildKey(db, InitDbPart)])
    ensures Mounts(st, ChildKey(db, ProxyStsPart), [ChildKey(db, ProxyCmapPart)])
    ensures SelectsOwn(st, ChildKey(db, MysqlPart)) && SelectsOwn(st, ChildKey(db, ProxyStsPart))
    ensures ChildKey(db, CmapPart) in st && st[ChildKey(db, CmapPart)].body.Settings?
    ensures ChildKey(db, InitDbPart) in st && st[ChildKey(db, InitDbPart)].body.InitScript?
  {
    hide Converged, Mounts, SelectsOwn, Build, ChildKey;
    MysqlMounts(st, db);
    ProxyMounts(st, db);
  }

  lemma MysqlMounts(st: Store, db: Key)
    requires Converged(st) && db in st && db.kind == DbPod
    ensures Mounts(st, ChildKey(db, MysqlPart), [ChildKey(db, CmapPart), ChildKey(db, InitDbPart)])
    ensures SelectsOwn(st, ChildKey(db, MysqlPart))
    ensures ChildKey(db, CmapPart) in st && st[ChildKey(db, CmapPart)].body.Settings?
    ensures ChildKey(db, InitDbPart) in st && st[ChildKey(db, InitDbPart)].body.InitScript?
  {
    hide Converged, InitSql.Render;
    var _, _ := PartBody(st, db, CmapPart);
    var _, _ := PartBody(st, db, InitDbPart);
    var _, _ := PartBody(st, db, MysqlPart);
  }

  lemma ProxyMounts(st: Store, db: Key)
    requires Converged(st) && db in st && db.kind == DbPod
    ensures Mounts(st, ChildKey(db, ProxyStsPart), [ChildKey(db, ProxyCmapPart)])
    ensures SelectsOwn(st, ChildKey(db, ProxyStsPart))
  {
    hide Converged;
    var _, _ := PartBody(st, db, ProxyCmapPart);
    var _, _ := PartBody(st, db, ProxyStsPart);
  }

  // ---------------------------------------------------------------- the claims a deletion looks up

  /** The volume claim the StatefulSet controller makes from a template for a pod. */
  function ClaimOf(template: string, p: PodRef): Key {
    Key(PersistentVolumeClaim, p.owner.ns, template + "-" + PodName(p.owner.name, p.ordinal))
  }

  /** The pod is one of X's, and the claim is made for it: from "data" for MySQL, from "my-nfs-pvc" for ProxySQL. */
  predicate ClaimedBy(st: Store, db: Key, g: Key, p: PodRef) {
    IsPod(st, p)
    && (|| (p.owner == ChildKey(db, MysqlPart) && g == ClaimOf("data", p))
        || (p.owner == ChildKey(db, ProxyStsPart) && g == ClaimOf("my-nfs-pvc", p)))
  }

  /** The claims the delete branch of X insists on are exactly the claims of the pods of its two StatefulSets. */
  lemma ClaimGates(st: Store, db: Key, g: Key)
    requires Converged(st) && db in st && db.kind == DbPod
    ensures g in Gates(db) && g.kind == PersistentVolumeClaim <==> exists p: PodRef :: ClaimedBy(st, db, g, p)
  {
    hide Converged, Gates, Decimal, ClaimedBy, ChildKey;
    DbPodGates(db);
    DbClaims(db);
    PodsOfSets(st, db);
    if g in Gates(db) && g.kind == PersistentVolumeClaim {
      var n :| 0 <= n < |Gates(db)| && Gates(db)[n] == g;
      NotClaims(db, n);
      var p: PodRef := if n == 12 then PodRef(ChildKey(db, ProxyStsPart), 0) else PodRef(ChildKey(db, MysqlPart), n - 3);
      assert ClaimedBy(st, db, g, p) by { Claimed(st, db, g, p); }
    }
    if p: PodRef :| ClaimedBy(st, db, g, p) {
      Claimed(st, db, g, p);
      assert Gates(db)[3] in Gates(db) && Gates(db)[4] in Gates(db) && Gates(db)[5] in Gates(db);
      assert Gates(db)[12] in Gates(db);
    }
  }

  /** The four claims by name: the decimal ordinals are the digits. */
  lemma DbClaims(db: Key)
    requires db.kind == DbPod
    ensures DataClaim(db, "0") == ClaimOf("data", PodRef(ChildKey(db, MysqlPart), 0))
    ensures DataClaim(db, "1") == ClaimOf("data", PodRef(ChildKey(db, MysqlPart), 1))
    ensures DataClaim(db, "2") == ClaimOf("data", PodRef(ChildKey(db, MysqlPart), 2))
    ensures ProxyClaim(db) == ClaimOf("my-nfs-pvc", PodRef(ChildKey(db, ProxyStsPart), 0))
  {
    assert Decimal(0) == "0" && Decimal(1) == "1" && Decimal(2) == "2";
    forall d: string ensures DataClaim(db, d).name == "data" + "-" + (ChildKey(db, MysqlPart).name + "-" + d) {
      assert "data" + "-" == "data-" && db.name + "-mysql" + "-" == db.name + "-mysql-";
      assert "data-" + db.name + "-mysql-" + d == "data-" + (db.name + "-mysql-" + d);
    }
    assert "my-nfs-pvc" + "-" == "my-nfs-pvc-" && db.name + "-proxysql" + "-" + "0" == db.name + "-proxysql-0";
    assert "my-nfs-pvc-" + db.name + "-proxysql-0" == "my-nfs-pvc-" + (db.name + "-proxysql-0");
  }

  lemma NotClaims(db: Key, n: nat)
    requires db.kind == DbPod && n < |Gates(db)| && Gates(db)[n].kind == PersistentVolumeClaim
    ensures n == 3 || n == 4 || n == 5 || n == 12
  {
    hide DataClaim, ProxyClaim, Suffix;
  }

  lemma PodsOfSets(st: Store, db: Key)
    requires Converged(st) && db in st && db.kind == DbPod
    ensures forall p: PodRef :: p.owner == ChildKey(db, MysqlPart) ==> (IsPod(st, p) <==> p.ordinal < 3)
    ensures forall p: PodRef :: p.owner == ChildKey(db, ProxyStsPart) ==> (IsPod(st, p) <==> p.ordinal == 0)
  {
    hide Converged, Suffix;
    SetBody(st, db, MysqlPart);
    SetBody(st, db, ProxyStsPart);
  }

  lemma Claimed(st: Store, db: Key, g: Key, p: PodRef)
    ensures ClaimedBy(st, db, g, p) <==>
              IsPod(st, p)
              && (|| (p.owner == ChildKey(db, MysqlPart) && g == ClaimOf("data", p))
                  || (p.owner == ChildKey(db, ProxyStsPart) && g == ClaimOf("my-nfs-pvc", p)))
  {
  }
}
