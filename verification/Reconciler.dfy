/** The four controllers as programs: each makes its calls one at a time, and whatever everyone else does
    in between, what happens is a run of the machine. */
module Reconciler {
  import opened Names
  import opened ApiServer
  import opened Machine
  import opened Protocol
  import opened ApiClient
  import InitSql

  datatype Result = Nothing | Failure | Dropped | Completed

  /** Membership by a loop over the slice. */
  method ContainsString(slice: seq<string>, s: string) returns (found: bool)
    ensures found <==> s in slice
  {
    for i := 0 to |slice|
      invariant s !in slice[..i]
    {
      if slice[i] == s {
        return true;
      }
    }
    return false;
  }

  const NO_GEN := Gen("", "")

  // ---------------------------------------------------------------- parts

  /** Get, else create: the shape of every part but the MySQL set, the Secret, and the two built from it. */
  method ReconcilePart(c: Client, ghost past: seq<Action>, key: Key, me: Obj, p: Part, i: nat)
    returns (made: bool, err: bool)
    requires c.Going(past, key, false) && c.At(key, me, Look(i)) && i < |Parts(key.kind)| && Parts(key.kind)[i] == p
    requires !NeedsSecret(p) && p != SecretPart && p != MysqlPart
    modifies c
    ensures if err then c.Over(past, key, false, true) else c.Going(past, key, false) && c.At(key, me, NextPart(key, i))
    ensures made ==> !err && c.Created(ChildKey(key, p), Build(p, key, me.body, Other, NO_GEN))
  {
    hide ApiClient.Client.Going, ApiClient.Client.Over, ApiClient.Client.Created, Build, ChildKey;
    var k := ChildKey(key, p);
    var got := c.Get(past, key, me, i, k, NO_GEN);
    match got {
      case Found(_) => return false, false;
      case Failed => return false, true;
      case NotFound =>
        err := c.Create(past, key, me, i, k, Build(p, key, me.body, Other, NO_GEN));
        made := !err;
    }
  }

  /** The MySQL set; its availability is what the caller goes by, and a new one has none. */
  method ReconcileDBDepl(c: Client, ghost past: seq<Action>, key: Key, me: Obj, i: nat)
    returns (available: nat, made: bool, err: bool)
    requires c.Going(past, key, false) && c.At(key, me, Look(i)) && i < |Parts(key.kind)| && Parts(key.kind)[i] == MysqlPart
    modifies c
    ensures if err then c.Over(past, key, false, true)
            else c.Going(past, key, false) && c.At(key, me, if available > 0 then SetReady(i) else NextPart(key, i))
    ensures made ==> !err && available == 0
                     && c.Created(ChildKey(key, MysqlPart), Build(MysqlPart, key, me.body, Other, NO_GEN))
  {
    hide ApiClient.Client.Going, ApiClient.Client.Over, ApiClient.Client.Created, Build, ChildKey;
    var k := ChildKey(key, MysqlPart);
    var got := c.Get(past, key, me, i, k, NO_GEN);
    match got {
      case Found(o) => return o.status.available, false, false;
      case Failed => return 0, false, true;
      case NotFound =>
        available := 0;
        err := c.Create(past, key, me, i, k, Build(MysqlPart, key, me.body, Other, NO_GEN));
        made := !err;
    }
  }

  /** One index per call of the seeded generator. */
  method Draws(length: nat, bound: nat) returns (draws: seq<nat>)
    requires bound > 0
    ensures |draws| == length && forall i :: 0 <= i < |draws| ==> draws[i] < bound
  {
    draws := [];
    while |draws| < length
      invariant |draws| <= length && forall i :: 0 <= i < |draws| ==> draws[i] < bound
    {
      var x: nat := *;
      draws := draws + [x % bound];
    }
  }

  /** What StringWithCharset(10, charset) may return. */
  predicate RandomString(s: string) {
    |s| == 10 && forall c :: c in s ==> c in InitSql.CHARSET
  }

  /** The Secret, with two fresh random strings; they are drawn before the read. */
  method ReconcileSecret(c: Client, ghost past: seq<Action>, key: Key, me: Obj, i: nat)
    returns (made: Option<Gen>, err: bool)
    requires c.Going(past, key, false) && c.At(key, me, Look(i)) && i < |Parts(key.kind)| && Parts(key.kind)[i] == SecretPart
    modifies c
    ensures if err then c.Over(past, key, false, true) else c.Going(past, key, false) && c.At(key, me, NextPart(key, i))
    ensures made.Some? ==>
              && !err && RandomString(made.value.passwordRoot) && RandomString(made.value.password)
              && c.Created(ChildKey(key, SecretPart), Credentials(made.value.passwordRoot, key.name, made.value.password))
  {
    hide ApiClient.Client.Going, ApiClient.Client.Over, ApiClient.Client.Created, ChildKey;
    made := None;
    var draws := Draws(10, |InitSql.CHARSET|);
    var passwordRoot := InitSql.StringWithCharset(10, InitSql.CHARSET, draws);
    draws := Draws(10, |InitSql.CHARSET|);
    var password := InitSql.StringWithCharset(10, InitSql.CHARSET, draws);
    var gen := Gen(passwordRoot, password);
    var k := ChildKey(key, SecretPart);
    var got := c.Get(past, key, me, i, k, gen);
    match got {
      case Found(_) => err := false;
      case Failed => err := true;
      case NotFound =>
        err := c.Create(past, key, me, i, k, Credentials(passwordRoot, key.name, password));
        made := if err then None else Some(gen);
    }
  }

  /** init-db and the ProxySQL configuration: when the Secret cannot be read, they return without an error and
      without having made anything; otherwise they embed what was read. */
  method ReconcileFromSecret(c: Client, ghost past: seq<Action>, key: Key, me: Obj, p: Part, i: nat)
    returns (read: Option<Body>, made: bool, skipped: bool, err: bool)
    requires c.Going(past, key, false) && c.At(key, me, Look(i)) && NeedsSecret(p)
    requires i < |Parts(key.kind)| && Parts(key.kind)[i] == p
    modifies c
    ensures if err then c.Over(past, key, false, true) else c.Going(past, key, false) && c.At(key, me, NextPart(key, i))
    ensures skipped ==> !err && !made && read == None
    ensures read.Some? ==> c.WasLive(ChildKey(key, SecretPart), read.value)
    ensures made ==> !err && read.Some? && c.Created(ChildKey(key, p), Build(p, key, me.body, read.value, NO_GEN))
  {
    hide ApiClient.Client.Going, ApiClient.Client.Over, ApiClient.Client.Created, ApiClient.Client.WasLive, Build, ChildKey;
    read, made, skipped := None, false, false;
    var k := ChildKey(key, p);
    var got := c.Get(past, key, me, i, k, NO_GEN);
    match got {
      case Found(_) => err := false;
      case Failed => err := true;
      case NotFound =>
        read := c.GetSecret(past, key, me, i, NO_GEN);
        if read == None {
          return None, false, true, false;
        }
        err := c.Create(past, key, me, i, k, Build(p, key, me.body, read.value, NO_GEN));
        made := !err;
    }
  }

  // ---------------------------------------------------------------- the delete branch

  /** A reconcile that has passed a gate; `pvc` holds the last claim it read. */
  function PastGate(key: Key, t: Thread, i: nat, k: Key, o: Obj): Thread {
    t.(pc := NextGate(key, i), pvc := if k.kind == PersistentVolumeClaim then Some(Held(k, o)) else t.pvc)
  }

  /** Get a named resource and write it back. */
  method Pass(c: Client, ghost past: seq<Action>, key: Key, i: nat, k: Key) returns (o: Option<Obj>)
    requires c.Going(past, key, true) && c.state.running[key].pc == GateLook(i)
    requires i < |Gates(key)| && Gates(key)[i] == k && (k.kind == PersistentVolumeClaim ==> i + 1 < |Gates(key)|)
    modifies c
    ensures o == None ==> c.Over(past, key, true, true)
    ensures o.Some? ==>
              && c.Going(past, key, true) && key in c.state.running
              && c.state.running[key] == PastGate(key, old(c.state).running[key], i, k, o.value)
  {
    hide Gates;
    var got := c.GetGate(past, key, i, k);
    if !got.Found? {
      return None;
    }
    c.WriteBack(past, key, i, k, got.obj);
    o := Some(got.obj);
  }

  /** Of the gates of a DbPod only the claims are claims. */
  lemma ClaimKinds(key: Key)
    ensures DataClaim(key, "0").kind == DataClaim(key, "1").kind == DataClaim(key, "2").kind == PersistentVolumeClaim
    ensures ProxyClaim(key).kind == PersistentVolumeClaim
    ensures forall p :: ChildKey(key, p).kind != PersistentVolumeClaim
  {
    hide Suffix;
  }

  /** The database half of the delete branch; it leaves the variable `pvc` at the third data claim. */
  method DeleteDatabase(c: Client, ghost past: seq<Action>, key: Key) returns (pvc: Option<Obj>)
    requires c.Going(past, key, true) && key.kind == DbPod
    requires c.state.running[key].pc == GateLook(0) && c.state.running[key].pvc == None
    modifies c
    ensures pvc == None ==> c.Over(past, key, true, true)
    ensures pvc.Some? ==>
              && c.Going(past, key, true) && c.At(key, old(c.state).running[key].me, GateLook(6))
              && c.state.running[key].pvc == Some(Held(DataClaim(key, "2"), pvc.value))
  {
    hide Gates, ChildKey, DataClaim, ProxyClaim, ApiClient.Client.Going, ApiClient.Client.Over;
    DbPodGates(key);
    ClaimKinds(key);
    var o := Pass(c, past, key, 0, ChildKey(key, MysqlPart));
    if o == None { return None; }
    o := Pass(c, past, key, 1, ChildKey(key, SvcPart));
    if o == None { return None; }
    o := Pass(c, past, key, 2, ChildKey(key, ReadSvcPart));
    if o == None { return None; }
    pvc := Pass(c, past, key, 3, DataClaim(key, "0"));
    if pvc == None { return None; }
    pvc := Pass(c, past, key, 4, DataClaim(key, "1"));
    if pvc == None { return None; }
    pvc := Pass(c, past, key, 5, DataClaim(key, "2"));
  }

  /** The proxy claim is checked at the end, but what is written back is `pvc`. */
  method DeleteProxyClaim(c: Client, ghost past: seq<Action>, key: Key, pvc: Obj) returns (err: bool)
    requires c.Going(past, key, true) && key.kind == DbPod
    requires c.state.running[key].pc == GateLook(12)
    requires c.state.running[key].pvc == Some(Held(DataClaim(key, "2"), pvc))
    modifies c
    ensures if err then c.Over(past, key, true, true)
            else c.Going(past, key, true) && c.At(key, old(c.state).running[key].me, DropFin)
  {
    hide Gates, ChildKey, DataClaim, ProxyClaim, ApiClient.Client.Going, ApiClient.Client.Over;
    DbPodGates(key);
    ClaimKinds(key);
    var proxyPvc := c.GetGate(past, key, 12, ProxyClaim(key));
    if !proxyPvc.Found? { return true; }
    c.WriteBack(past, key, 12, DataClaim(key, "2"), pvc);
    err := false;
  }

  method DeleteDbPodResources(c: Client, ghost past: seq<Action>, key: Key) returns (err: bool)
    requires c.Going(past, key, true) && key.kind == DbPod
    requires c.state.running[key].pc == GateLook(0) && c.state.running[key].pvc == None
    modifies c
    ensures if err then c.Over(past, key, true, true)
            else c.Going(past, key, true) && c.At(key, old(c.state).running[key].me, DropFin)
  {
    hide Gates, ChildKey, DataClaim, ProxyClaim, ApiClient.Client.Going, ApiClient.Client.Over;
    DbPodGates(key);
    ClaimKinds(key);
    err := true;
    var pvc := DeleteDatabase(c, past, key);
    if pvc == None { return; }
    var o := Pass(c, past, key, 6, ChildKey(key, CmapPart));
    if o == None { return; }
    o := Pass(c, past, key, 7, ChildKey(key, SecretPart));
    if o == None { return; }
    o := Pass(c, past, key, 8, ChildKey(key, InitDbPart));
    if o == None { return; }
    o := Pass(c, past, key, 9, ChildKey(key, ProxyCmapPart));
    if o == None { return; }
    o := Pass(c, past, key, 10, ChildKey(key, ProxySvcPart));
    if o == None { return; }
    o := Pass(c, past, key, 11, ChildKey(key, ProxyStsPart));
    if o == None { return; }
    err := DeleteProxyClaim(c, past, key, pvc.value);
  }

  lemma CoreExtGates(key: Key)
    requires key.kind == CoreExt
    ensures Gates(key) == [ChildKey(key, BindingPart), ChildKey(key, ClusterBindingPart), ChildKey(key, RolePart),
                           ChildKey(key, ClusterRolePart), ChildKey(key, AccountPart)]
  {
    hide ChildKey;
  }

  method DeleteCoreExtResources(c: Client, ghost past: seq<Action>, key: Key) returns (err: bool)
    requires c.Going(past, key, true) && key.kind == CoreExt && c.state.running[key].pc == GateLook(0)
    modifies c
    ensures if err then c.Over(past, key, true, true)
            else c.Going(past, key, true) && c.At(key, old(c.state).running[key].me, DropFin)
  {
    hide Gates, ChildKey, ApiClient.Client.Going, ApiClient.Client.Over;
    CoreExtGates(key);
    ClaimKinds(key);
    err := true;
    var o := Pass(c, past, key, 0, ChildKey(key, BindingPart));
    if o == None { return; }
    o := Pass(c, past, key, 1, ChildKey(key, ClusterBindingPart));
    if o == None { return; }
    o := Pass(c, past, key, 2, ChildKey(key, RolePart));
    if o == None { return; }
    o := Pass(c, past, key, 3, ChildKey(key, ClusterRolePart));
    if o == None { return; }
    o := Pass(c, past, key, 4, ChildKey(key, AccountPart));
    err := o == None;
  }

  lemma OrgPodGates(key: Key)
    requires key.kind == OrgPod
    ensures Gates(key) == [Key(Deployment, key.ns, key.name + "-pod"), Key(Service, key.ns, key.name + "-nodeport"),
                           ChildKey(key, DbPodPart)]
  {
    hide ChildKey;
  }

  method DeleteOrgPodResources(c: Client, ghost past: seq<Action>, key: Key) returns (err: bool)
    requires c.Going(past, key, true) && key.kind == OrgPod && c.state.running[key].pc == GateLook(0)
    modifies c
    ensures if err then c.Over(past, key, true, true)
            else c.Going(past, key, true) && c.At(key, old(c.state).running[key].me, DropFin)
  {
    hide Gates, ChildKey, ApiClient.Client.Going, ApiClient.Client.Over;
    OrgPodGates(key);
    ClaimKinds(key);
    err := true;
    var o := Pass(c, past, key, 0, Key(Deployment, key.ns, key.name + "-pod"));
    if o == None { return; }
    o := Pass(c, past, key, 1, Key(Service, key.ns, key.name + "-nodeport"));
    if o == None { return; }
    o := Pass(c, past, key, 2, ChildKey(key, DbPodPart));
    err := o == None;
  }

  method DeleteCorePodResources(c: Client, ghost past: seq<Action>, key: Key) returns (err: bool)
    requires c.Going(past, key, true) && key.kind == CorePod && c.state.running[key].pc == GateLook(0)
    modifies c
    ensures if err then c.Over(past, key, true, true)
            else c.Going(past, key, true) && c.At(key, old(c.state).running[key].me, DropFin)
  {
    var o := Pass(c, past, key, 0, ChildKey(key, ExtPart));
    err := o == None;
  }

  method DeleteExternalResources(c: Client, ghost past: seq<Action>, key: Key) returns (err: bool)
    requires c.Going(past, key, true) && Managed(key.kind)
    requires c.state.running[key].pc == GateLook(0) && c.state.running[key].pvc == None
    modifies c
    ensures if err then c.Over(past, key, true, true)
            else c.Going(past, key, true) && c.At(key, old(c.state).running[key].me, DropFin)
  {
    match key.kind {
      case DbPod => err := DeleteDbPodResources(c, past, key);
      case CoreExt => err := DeleteCoreExtResources(c, past, key);
      case OrgPod => err := DeleteOrgPodResources(c, past, key);
      case CorePod => err := DeleteCorePodResources(c, past, key);
    }
  }

  // ---------------------------------------------------------------- what the four Reconciles share

  /** What a reconcile answers is what it was told, from its first action m to its last n: nothing if there was
      nothing to do on what the read returned; otherwise a failure exactly if its last call failed, which was then
      the only one that did; and without one it let a marked object go, or got to the end with one that was not. */
  predicate Explains(acts: seq<Action>, from: nat, m: nat, n: nat, key: Key, res: Result)
    requires m <= n < |acts|
  {
    && from <= m && (acts[m] == Start(key) || acts[m] == Miss(key))
    && (forall k :: from <= k < |acts| && Own(acts[k], key) ==> m <= k <= n)
    && (forall k :: m < k < n && Own(acts[k], key) ==> acts[k].Call? && !FailsAt(acts, k, key))
    && if NothingToDo(key, TopRead(acts, m)) then m == n && res == Nothing
       else
         && m < n && acts[n].Call? && acts[n].key == key
         && res == if FailsAt(acts, n, key) then Failure
                   else if TopRead(acts, m).value.deleting then Dropped else Completed
  }

  ghost predicate Explained(past: seq<Action>, acts: seq<Action>, key: Key, res: Result) {
    exists m, n :: 0 <= m <= n < |acts| && Explains(acts, |past|, m, n, key, res)
  }

  function Verdict(marked: bool, failed: bool): Result {
    if failed then Failure else if marked then Dropped else Completed
  }

  lemma OverExplained(c: Client, past: seq<Action>, key: Key, marked: bool, failed: bool)
    requires c.Over(past, key, marked, failed)
    ensures c.Since(past) && key !in c.state.running && Explained(past, c.trace, key, Verdict(marked, failed))
  {
    hide Explained, Ended;
    EndExplained(past, c.trace, key, marked, failed);
  }

  lemma EndExplained(past: seq<Action>, acts: seq<Action>, key: Key, marked: bool, failed: bool)
    requires Ended(|past|, acts, key, marked, failed)
    ensures Explained(past, acts, key, Verdict(marked, failed))
  {
    hide FailsAt, TopRead, NothingToDo;
    var n :| 0 <= n < |acts| && EndedAt(|past|, acts, n, key, marked, failed);
    var early, late := acts[..n], acts[n..];
    assert acts == early + late;
    var m :| 0 <= m < |early| && BegunAt(early, |past|, m, key, marked);
    SameBefore(early, late, m, key);
    forall k | |past| <= k < n && k != m && Own(acts[k], key)
      ensures m < k && acts[k].Call? && !FailsAt(acts, k, key)
    {
      SameBefore(early, late, k, key);
    }
    assert Explains(acts, |past|, m, n, key, Verdict(marked, failed));
  }

  lemma NothingExplained(past: seq<Action>, acts: seq<Action>, key: Key)
    requires |past| < |acts| && (forall n :: |past| <= n < |acts| - 1 ==> !Own(acts[n], key))
    requires acts[|acts| - 1] == Start(key) || acts[|acts| - 1] == Miss(key)
    requires NothingToDo(key, TopRead(acts, |acts| - 1))
    ensures Explained(past, acts, key, Nothing)
  {
    hide FailsAt, TopRead, NothingToDo;
    assert Explains(acts, |past|, |acts| - 1, |acts| - 1, key, Nothing);
  }

  /** What the answer of a Reconcile means, from the read it began with: it found nothing to do exactly if the read
      returned nothing to do; it failed exactly if one of its calls did; and otherwise a marked object was let go and
      any other has been brought to the end. */
  lemma AnswerExact(past: seq<Action>, acts: seq<Action>, key: Key, res: Result, m: nat)
    requires Explained(past, acts, key, res)
    requires |past| <= m < |acts| && (acts[m] == Start(key) || acts[m] == Miss(key))
    ensures res == Nothing <==> NothingToDo(key, TopRead(acts, m))
    ensures res == Failure <==> exists n :: |past| <= n < |acts| && FailsAt(acts, n, key)
    ensures res == Dropped ==> TopRead(acts, m).value.deleting
    ensures res == Completed ==> !TopRead(acts, m).value.deleting
  {
    hide Fails, TopRead, Run;
    var i, n :| 0 <= i <= n < |acts| && Explains(acts, |past|, i, n, key, res);
    assert Own(acts[m], key) && Own(acts[n], key);
    assert m == i;
    if k :| |past| <= k < |acts| && FailsAt(acts, k, key) {
      FailIsOwn(acts, k, key);
    }
  }

  lemma FailIsOwn(acts: seq<Action>, n: nat, key: Key)
    requires n < |acts| && FailsAt(acts, n, key)
    ensures acts[n].Call? && Own(acts[n], key)
  {
  }

  /** The finalizer branch and the first status writes; afterwards the parts can be made, or the
      reconcile is over. */
  method Enter(c: Client, ghost past: seq<Action>, key: Key) returns (me: Option<Obj>, res: Result)
    requires c.Since(past) && c.trace == past && Managed(key.kind) && key !in c.state.running
    modifies c
    ensures me.Some? ==> c.Going(past, key, false) && c.At(key, me.value, Look(0))
    ensures me.None? ==> c.Since(past) && key !in c.state.running && res != Completed && Explained(past, c.trace, key, res)
    ensures me.None? && res == Dropped ==> GatesSeen(c.state.log, key, |Gates(key)|)
  {
    hide Gates, GatesSeen, Begun, Ended, TopRead, Explained, FailsAt;
    me, res := None, Nothing;
    var got := c.GetParent(past, key);
    if got == None {
      NothingExplained(past, c.trace, key);
      return;
    }
    var o := got.value;
    var present := ContainsString(o.finalizers, Finalizer(key.kind));
    var err: bool;
    if !o.deleting {
      if !present {
        o, err := c.Update(past, key, WithFin(key, o));
        if err {
          OverExplained(c, past, key, false, true);
          return None, Failure;
        }
      }
    } else {
      if present {
        err := DeleteExternalResources(c, past, key);
        if err {
          OverExplained(c, past, key, true, true);
          return None, Failure;
        }
        o, err := c.Update(past, key, WithoutFin(key, o));
        OverExplained(c, past, key, true, err);
        return None, if err then Failure else Dropped;
      }
      NothingExplained(past, c.trace, key);
      return;
    }
    if HasStatus(key.kind) {
      if o.status.name != key.name {
        o := c.UpdateStatus(past, key, Named(key, o));
      }
      if o.status.progress != "Ready" {
        o := c.UpdateStatus(past, key, Initiating(key, o));
      }
    }
    me := Some(o);
  }

  /** What every Reconcile promises: all it did is part of a run of the machine; its answer is what that run told it; a
      completed one has every part whose failure is not swallowed behind it, one that released its object every
      gated resource. */
  ghost predicate Promised(c: Client, past: seq<Action>, key: Key, res: Result)
    reads c
  {
    && c.Since(past) && key !in c.state.running && Explained(past, c.trace, key, res)
    && (res == Completed ==>
          forall p :: ParentKind(p) == key.kind && !NeedsSecret(p) ==> Seen(c.state.log, ChildKey(key, p)))
    && (res == Dropped ==> GatesSeen(c.state.log, key, |Gates(key)|))
  }

  // ---------------------------------------------------------------- the four controllers

  lemma DbPodParts()
    ensures Parts(DbPod) == [SvcPart, ReadSvcPart, InitDbPart, CmapPart, SecretPart, MysqlPart,
                             ProxyCmapPart, ProxySvcPart, ProxyStsPart]
  {
  }

  /** The Services, ConfigMaps and the Secret of a DbPod. */
  method ReconcileEnvironment(c: Client, ghost past: seq<Action>, key: Key, me: Obj) returns (err: bool)
    requires c.Going(past, key, false) && key.kind == DbPod && c.At(key, me, Look(0))
    modifies c
    ensures if err then c.Over(past, key, false, true) else c.Going(past, key, false) && c.At(key, me, Look(5))
  {
    hide ApiClient.Client.Going, ApiClient.Client.Over, ApiClient.Client.Created, Build, ChildKey, Parts;
    DbPodParts();
    var made: bool;
    var read: Option<Body>;
    var skipped: bool;
    var gen: Option<Gen>;
    made, err := ReconcilePart(c, past, key, me, SvcPart, 0);
    if err { return; }
    made, err := ReconcilePart(c, past, key, me, ReadSvcPart, 1);
    if err { return; }
    read, made, skipped, err := ReconcileFromSecret(c, past, key, me, InitDbPart, 2);
    if err { return; }
    made, err := ReconcilePart(c, past, key, me, CmapPart, 3);
    if err { return; }
    gen, err := ReconcileSecret(c, past, key, me, 4);
  }

  /** The MySQL set, and the status that depends on it. */
  method ReconcileDatabase(c: Client, ghost past: seq<Action>, key: Key, me: Obj) returns (r: Obj, err: bool)
    requires c.Going(past, key, false) && key.kind == DbPod && c.At(key, me, Look(5))
    modifies c
    ensures if err then c.Over(past, key, false, true) else c.Going(past, key, false) && c.At(key, r, Look(6))
  {
    hide ApiClient.Client.Going, ApiClient.Client.Over, ApiClient.Client.Created, Build, ChildKey, Parts;
    DbPodParts();
    r := me;
    var available: nat;
    var made: bool;
    available, made, err := ReconcileDBDepl(c, past, key, r, 5);
    if err { return; }
    if available > 0 {
      r := c.UpdateStatus(past, key, Ready(r));
    }
  }

  /** The proxy in front of the database. */
  method ReconcileProxy(c: Client, ghost past: seq<Action>, key: Key, me: Obj) returns (err: bool)
    requires c.Going(past, key, false) && key.kind == DbPod && c.At(key, me, Look(6))
    modifies c
    ensures if err then c.Over(past, key, false, true) else c.Going(past, key, false) && c.At(key, me, Done)
  {
    hide ApiClient.Client.Going, ApiClient.Client.Over, ApiClient.Client.Created, Build, ChildKey, Parts;
    DbPodParts();
    var made: bool;
    var read: Option<Body>;
    var skipped: bool;
    read, made, skipped, err := ReconcileFromSecret(c, past, key, me, ProxyCmapPart, 6);
    if err { return; }
    made, err := ReconcilePart(c, past, key, me, ProxySvcPart, 7);
    if err { return; }
    made, err := ReconcilePart(c, past, key, me, ProxyStsPart, 8);
  }

  method ReconcileDbPod(c: Client, ghost past: seq<Action>, key: Key) returns (res: Result)
    requires c.Since(past) && c.trace == past && key.kind == DbPod && key !in c.state.running
    modifies c
    ensures Promised(c, past, key, res)
  {
    hide Gates, GatesSeen, ApiClient.Client.Going, ApiClient.Client.Over, Explained, Seen;
    var entered: Option<Obj>;
    entered, res := Enter(c, past, key);
    if entered == None {
      return;
    }
    var err := ReconcileEnvironment(c, past, key, entered.value);
    if err {
      OverExplained(c, past, key, false, true);
      return Failure;
    }
    var me: Obj;
    me, err := ReconcileDatabase(c, past, key, entered.value);
    if err {
      OverExplained(c, past, key, false, true);
      return Failure;
    }
    err := ReconcileProxy(c, past, key, me);
    if err {
      OverExplained(c, past, key, false, true);
      return Failure;
    }
    c.Return(past, key, me);
    OverExplained(c, past, key, false, false);
    res := Completed;
  }

  lemma CoreExtParts()
    ensures Parts(CoreExt) == [AccountPart, RolePart, BindingPart, ClusterRolePart, ClusterBindingPart]
  {
  }

  /** The five permission objects, in the order of their references. */
  method ReconcilePermissions(c: Client, ghost past: seq<Action>, key: Key, me: Obj) returns (err: bool)
    requires c.Going(past, key, false) && key.kind == CoreExt && c.At(key, me, Look(0))
    modifies c
    ensures if err then c.Over(past, key, false, true) else c.Going(past, key, false) && c.At(key, me, Done)
  {
    hide ApiClient.Client.Going, ApiClient.Client.Over, ApiClient.Client.Created, Build, ChildKey, Parts;
    CoreExtParts();
    var made: bool;
    made, err := ReconcilePart(c, past, key, me, AccountPart, 0);
    if err { return; }
    made, err := ReconcilePart(c, past, key, me, RolePart, 1);
    if err { return; }
    made, err := ReconcilePart(c, past, key, me, BindingPart, 2);
    if err { return; }
    made, err := ReconcilePart(c, past, key, me, ClusterRolePart, 3);
    if err { return; }
    made, err := ReconcilePart(c, past, key, me, ClusterBindingPart, 4);
  }

  method ReconcileCoreExt(c: Client, ghost past: seq<Action>, key: Key) returns (res: Result)
    requires c.Since(past) && c.trace == past && key.kind == CoreExt && key !in c.state.running
    modifies c
    ensures Promised(c, past, key, res)
  {
    hide Gates, GatesSeen, ApiClient.Client.Going, ApiClient.Client.Over, Explained, Seen;
    var entered: Option<Obj>;
    entered, res := Enter(c, past, key);
    if entered == None {
      return;
    }
    var err := ReconcilePermissions(c, past, key, entered.value);
    if err {
      OverExplained(c, past, key, false, true);
      return Failure;
    }
    c.Return(past, key, entered.value);
    OverExplained(c, past, key, false, false);
    res := Completed;
  }

  method ReconcileOrgPod(c: Client, ghost past: seq<Action>, key: Key) returns (res: Result)
    requires c.Since(past) && c.trace == past && key.kind == OrgPod && key !in c.state.running
    modifies c
    ensures Promised(c, past, key, res)
  {
    hide Gates, GatesSeen, ApiClient.Client.Going, ApiClient.Client.Over, Explained, Seen, Build, ChildKey;
    var entered: Option<Obj>;
    entered, res := Enter(c, past, key);
    if entered == None {
      return;
    }
    res := Failure;
    var made, err := ReconcilePart(c, past, key, entered.value, DbPodPart, 0);
    if err {
      OverExplained(c, past, key, false, true);
      return;
    }
    c.Return(past, key, entered.value);
    OverExplained(c, past, key, false, false);
    res := Completed;
  }

  method ReconcileCorePod(c: Client, ghost past: seq<Action>, key: Key) returns (res: Result)
    requires c.Since(past) && c.trace == past && key.kind == CorePod && key !in c.state.running
    modifies c
    ensures Promised(c, past, key, res)
  {
    hide Gates, GatesSeen, ApiClient.Client.Going, ApiClient.Client.Over, Explained, Seen, Build, ChildKey;
    var entered: Option<Obj>;
    entered, res := Enter(c, past, key);
    if entered == None {
      return;
    }
    res := Failure;
    var made, err := ReconcilePart(c, past, key, entered.value, ExtPart, 0);
    if err {
      OverExplained(c, past, key, false, true);
      return;
    }
    made, err := ReconcilePart(c, past, key, entered.value, OrgPart, 1);
    if err {
      OverExplained(c, past, key, false, true);
      return;
    }
    c.Return(past, key, entered.value);
    OverExplained(c, past, key, false, false);
    res := Completed;
  }
}
