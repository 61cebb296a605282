/** The operator as a state machine: every API call of every reconcile is one step, interleaved with
    users, the garbage collector, the StatefulSet controller, cache updates, failures and crashes. */
module Machine {
  import opened Names
  import opened ApiServer

  /** A reconcile's position between two API calls. */
  datatype PC =
    | AddFin
    | SetName
    | SetInit
    | Look(part: nat)
    | ReadSecret(part: nat)
    | Make(part: nat, body: Body, secAt: nat, gen: Gen)
    | SetReady(part: nat)
    | Done
    | GateLook(gate: nat)
    | GateWrite(gate: nat, held: Held)
    | DropFin

  datatype Held = Held(key: Key, obj: Obj)

  /** One running reconcile: the store version its parent was read at, the newest version when it
      started, its copy of the parent, and the variable `pvc` of the delete branch. */
  datatype Thread = Thread(at: nat, began: nat, me: Obj, pc: PC, pvc: Option<Held>)

  /** All versions of the store, the newest last; how far the cache has followed each key; and at most
      one running reconcile per key. */
  datatype State = State(log: seq<Store>, pos: map<Key, nat>, running: map<Key, Thread>)

  const EMPTY := State([map[]], map[], map[])

  /** How a call returns: as it should, refused before any effect, or with the reply lost after it. */
  datatype Outcome = Success | Error | LostReply

  /** Miss is a read at the top of a reconcile that fails: the code takes the object to be gone. */
  datatype Action =
    | UserCreate(key: Key, finalizers: seq<string>, body: Body)
    | UserEdit(key: Key, body: Body)
    | UserDelete(key: Key)
    | Collect(key: Key)
    | Scale(key: Key, available: nat)
    | Sync(key: Key, upto: nat)
    | Miss(key: Key)
    | Start(key: Key)
    | Call(key: Key, out: Outcome, gen: Gen)
    | Abort(key: Key)

  function Live(log: seq<Store>): Store
    requires log != []
  {
    log[|log| - 1]
  }

  function Pos(s: State, k: Key): (p: nat)
    requires s.log != []
    ensures p < |s.log|
  {
    if k in s.pos && s.pos[k] < |s.log| then s.pos[k] else 0
  }

  /** The store version the cache shows for a key. */
  function Cache(s: State, k: Key): Store
    requires s.log != []
  {
    s.log[Pos(s, k)]
  }

  function Write(log: seq<Store>, c: Change): seq<Store>
    requires log != []
  {
    if c.Same? then log else log + [Apply(Live(log), c)]
  }

  // ---------------------------------------------------------------- one reconcile

  predicate HasStatus(kind: Kind) {
    kind != CoreExt
  }

  function NotReady(kind: Kind): string {
    if kind == DbPod then "0/1" else "0/2"
  }

  function AfterName(parent: Key, me: Obj): PC {
    if HasStatus(parent.kind) && me.status.progress != "Ready" then SetInit else Look(0)
  }

  function AfterFin(parent: Key, me: Obj): PC {
    if HasStatus(parent.kind) && me.status.name != parent.name then SetName else AfterName(parent, me)
  }

  function NextPart(parent: Key, i: nat): PC {
    if i + 1 < |Parts(parent.kind)| then Look(i + 1) else Done
  }

  function NextGate(parent: Key, i: nat): PC {
    if i + 1 < |Gates(parent)| then GateLook(i + 1) else DropFin
  }

  /** The branch a reconcile takes on the copy of its parent it read; none if there is nothing to do. */
  function Begin(parent: Key, o: Obj): Option<PC> {
    if !o.deleting then Some(if Finalizer(parent.kind) in o.finalizers then AfterFin(parent, o) else AddFin)
    else if Finalizer(parent.kind) in o.finalizers then Some(GateLook(0))
    else None
  }

  function Named(parent: Key, me: Obj): Obj {
    me.(status := me.status.(name := parent.name))
  }

  function Initiating(parent: Key, me: Obj): Obj {
    me.(status := me.status.(progress := "Initiating", ready := NotReady(parent.kind)))
  }

  function Ready(me: Obj): Obj {
    me.(status := me.status.(progress := "Ready", ready := "1/1"))
  }

  function WithFin(parent: Key, me: Obj): Obj {
    me.(finalizers := me.finalizers + [Finalizer(parent.kind)])
  }

  function WithoutFin(parent: Key, me: Obj): Obj {
    me.(finalizers := RemoveAll(me.finalizers, Finalizer(parent.kind)))
  }

  /** The object a create call sends. */
  function Draft(parent: Key, t: Thread, version: nat): Obj
    requires t.pc.Make? && t.pc.part < |Parts(parent.kind)|
  {
    var creator := Ref(parent, t.me.uid);
    Obj(version, version, if Owned(Parts(parent.kind)[t.pc.part]) then Some(creator) else None, [], false, t.pc.body,
        NO_STATUS, Some(Made(creator, t.pc.part, t.me.rv, t.pc.secAt, t.pc.gen)))
  }

  /** What the pending call of a reconcile asks of the API server. */
  function Request(log: seq<Store>, parent: Key, t: Thread): Change
    requires log != []
  {
    var live, n := Live(log), |log|;
    match t.pc
    case AddFin => UpdateRequest(live, parent, WithFin(parent, t.me), n)
    case SetName => StatusRequest(live, parent, Named(parent, t.me), n)
    case SetInit => StatusRequest(live, parent, Initiating(parent, t.me), n)
    case SetReady(_) => StatusRequest(live, parent, Ready(t.me), n)
    case Make(i, _, _, _) =>
      if i < |Parts(parent.kind)| then CreateRequest(live, ChildKey(parent, Parts(parent.kind)[i]), Draft(parent, t, n)) else Same
    case GateWrite(_, h) => UpdateRequest(live, h.key, h.obj, n)
    case DropFin => UpdateRequest(live, parent, WithoutFin(parent, t.me), n)
    case _ => Same
  }

  /** The local copy after a write of the parent: the server's answer if the write was accepted and the
      reply arrived, otherwise what the code had put into it. */
  function Reply(log: seq<Store>, c: Change, parent: Key, sent: Obj, out: Outcome): Obj
    requires log != []
  {
    var live' := Apply(Live(log), c);
    if out == Success && Current(Live(log), parent, sent) && parent in live' then live'[parent] else sent
  }

  /** The reconcile after its pending call; None when it returned. */
  function Resume(s: State, parent: Key, t: Thread, out: Outcome, gen: Gen): Option<Thread>
    requires s.log != []
  {
    var live := Live(s.log);
    var c := Request(s.log, parent, t);
    match t.pc
    case AddFin =>
      if out == Success && Current(live, parent, t.me) then
        var me := Reply(s.log, c, parent, WithFin(parent, t.me), out);
        Some(t.(me := me, pc := AfterFin(parent, me)))
      else None
    case SetName =>
      var me := Reply(s.log, c, parent, Named(parent, t.me), out);
      Some(t.(me := me, pc := AfterName(parent, me)))
    case SetInit =>
      Some(t.(me := Reply(s.log, c, parent, Initiating(parent, t.me), out), pc := Look(0)))
    case SetReady(i) =>
      Some(t.(me := Reply(s.log, c, parent, Ready(t.me), out), pc := NextPart(parent, i)))
    case Look(i) => if out == Success then Some(Looked(s, parent, t, gen)) else None
    case ReadSecret(i) => Some(SecretRead(s, parent, t, out, gen))
    case Make(i, _, _, _) =>
      if out == Success && c.Put? then Some(t.(pc := NextPart(parent, i))) else None
    case GateLook(i) =>
      if i < |Gates(parent)| && out == Success then GateLooked(s, parent, t) else None
    case GateWrite(i, _) => Some(t.(pc := NextGate(parent, i)))
    case Done => None
    case DropFin => None
  }

  /** A part that was found is kept; an available MySQL set makes the DbPod ready. */
  function AfterFound(parent: Key, i: nat, o: Obj): PC {
    if i < |Parts(parent.kind)| && Parts(parent.kind)[i] == MysqlPart && o.status.available > 0 then SetReady(i)
    else NextPart(parent, i)
  }

  /** A part that was not found is built, two of them only after the Secret has been read. */
  function AfterMissing(parent: Key, spec: Body, i: nat, gen: Gen): PC {
    if i >= |Parts(parent.kind)| then Done
    else if NeedsSecret(Parts(parent.kind)[i]) then ReadSecret(i)
    else Make(i, Build(Parts(parent.kind)[i], parent, spec, Other, gen), 0, gen)
  }

  /** A cached read of the next part. */
  function Looked(s: State, parent: Key, t: Thread, gen: Gen): Thread
    requires s.log != [] && t.pc.Look?
  {
    var i := t.pc.part;
    if i >= |Parts(parent.kind)| then t.(pc := Done)
    else
      var k := ChildKey(parent, Parts(parent.kind)[i]);
      if k in Cache(s, k) then t.(pc := AfterFound(parent, i, Cache(s, k)[k]))
      else t.(pc := AfterMissing(parent, t.me.body, i, gen))
  }

  /** GetSecret reads the live store; a failure is swallowed and the part skipped. */
  function SecretRead(s: State, parent: Key, t: Thread, out: Outcome, gen: Gen): Thread
    requires s.log != [] && t.pc.ReadSecret?
  {
    var i := t.pc.part;
    var live := Live(s.log);
    var k := ChildKey(parent, SecretPart);
    if i >= |Parts(parent.kind)| then t.(pc := Done)
    else if out == Success && k in live then
      t.(pc := Make(i, Build(Parts(parent.kind)[i], parent, t.me.body, live[k].body, gen), |s.log| - 1, gen))
    else t.(pc := NextPart(parent, i))
  }

  /** A gated resource that was found is written back. The last gate of a DbPod writes back the variable
      `pvc`, which still holds the third data claim. */
  function Opened(parent: Key, t: Thread, o: Obj): Thread
    requires t.pc.GateLook? && t.pc.gate < |Gates(parent)|
  {
    var i := t.pc.gate;
    var h := Held(Gates(parent)[i], o);
    if h.key.kind == PersistentVolumeClaim && i + 1 < |Gates(parent)| then t.(pc := GateWrite(i, h), pvc := Some(h))
    else if h.key.kind == PersistentVolumeClaim && t.pvc.Some? then t.(pc := GateWrite(i, t.pvc.value))
    else t.(pc := GateWrite(i, h))
  }

  /** A cached read in the delete branch: a missing resource ends the reconcile with an error. */
  function GateLooked(s: State, parent: Key, t: Thread): Option<Thread>
    requires s.log != [] && t.pc.GateLook? && t.pc.gate < |Gates(parent)|
  {
    var k := Gates(parent)[t.pc.gate];
    if k !in Cache(s, k) then None else Some(Opened(parent, t, Cache(s, k)[k]))
  }

  // ---------------------------------------------------------------- steps

  /** The garbage collector may delete an object whose owner incarnation is gone. */
  predicate Orphan(live: Store, k: Key) {
    k in live && live[k].owner.Some? &&
    var r := live[k].owner.value;
    !(r.key in live && live[r.key].uid == r.uid)
  }

  predicate Enabled(s: State, a: Action)
    requires s.log != []
  {
    var live := Live(s.log);
    match a
    case UserCreate(k, _, body) => k !in live && k.name != "" && Fits(k.kind, body)
    case UserEdit(k, body) => k in live && Fits(k.kind, body)
    case UserDelete(k) => k in live
    case Collect(k) => Orphan(live, k)
    case Scale(k, _) => k in live && k.kind == StatefulSet
    case Sync(k, upto) => Pos(s, k) <= upto < |s.log|
    case Miss(k) => Managed(k.kind) && k !in s.running
    case Start(k) => Managed(k.kind) && k !in s.running
    case Call(k, _, _) => k in s.running
    case Abort(k) => k in s.running
  }

  /** The write, if any, an action makes. */
  function Effect(s: State, a: Action): Change
    requires s.log != [] && Enabled(s, a)
  {
    var live, n := Live(s.log), |s.log|;
    match a
    case UserCreate(k, fins, body) => CreateRequest(live, k, Obj(n, n, None, fins, false, body, NO_STATUS, None))
    case UserEdit(k, body) => UpdateRequest(live, k, live[k].(body := body), n)
    case UserDelete(k) => DeleteRequest(live, k, n)
    case Collect(k) => DeleteRequest(live, k, n)
    case Scale(k, m) => StatusRequest(live, k, live[k].(status := live[k].status.(available := m)), n)
    case Call(k, out, _) => if out == Error then Same else Request(s.log, k, s.running[k])
    case _ => Same
  }

  /** The running reconciles after an action. */
  function Threads(s: State, a: Action): map<Key, Thread>
    requires s.log != [] && Enabled(s, a)
  {
    match a
    case Start(k) =>
      if k in Cache(s, k) then
        var o := Cache(s, k)[k];
        var pc := Begin(k, o);
        if pc.Some? then s.running[k := Thread(Pos(s, k), |s.log| - 1, o, pc.value, None)] else s.running
      else s.running
    case Call(k, out, gen) =>
      var t := Resume(s, k, s.running[k], out, gen);
      if t.Some? then s.running[k := t.value] else s.running - {k}
    case Abort(k) => s.running - {k}
    case _ => s.running
  }

  /** One step; an action that is not enabled changes nothing. */
  function Step(s: State, a: Action): (s': State)
    requires s.log != []
    ensures s'.log != []
  {
    if !Enabled(s, a) then s
    else State(Write(s.log, Effect(s, a)), if a.Sync? then s.pos[a.key := a.upto] else s.pos, Threads(s, a))
  }

  /** A step adds at most one version of the store, which differs from the last at one key at most, and moves at
      most the reconcile it is about. */
  lemma StepIsSmall(s: State, a: Action) returns (k: Key)
    requires s.log != []
    ensures s.log <= Step(s, a).log && |Step(s, a).log| <= |s.log| + 1
    ensures Live(Step(s, a).log) - {k} == Live(s.log) - {k}
    ensures Step(s, a).running - {a.key} == s.running - {a.key}
  {
    hide Draft, Resume, Begin, Parts, Gates, ChildKey;
    k := if Enabled(s, a) && !Effect(s, a).Same? then Effect(s, a).key else a.key;
  }

  /** What can happen at any moment, whatever the controllers do: the cache of a key comes to show any version from
      the one it shows on; a read at the top fails; a reconcile is cut off; a call fails before it has any effect, or
      has the effect it would have had and its reply is lost. */
  lemma FaultsAreFree(s: State, k: Key, upto: nat, gen: Gen)
    requires s.log != []
    ensures Pos(s, k) <= upto < |s.log| ==>
              var s' := Step(s, Sync(k, upto));
              s'.log == s.log && s'.running == s.running && Cache(s', k) == s.log[upto]
    ensures Managed(k.kind) ==> Step(s, Miss(k)) == s
    ensures k in s.running ==>
              && Step(s, Abort(k)) == s.(running := s.running - {k})
              && Step(s, Call(k, Error, gen)).log == s.log
              && Step(s, Call(k, LostReply, gen)).log == Step(s, Call(k, Success, gen)).log
  {
    hide Request, Resume;
  }

  /** What users can do: create an object under a free name, change the spec of one, and delete one, which only marks it
      as long as it has finalizers. */
  lemma UsersAct(s: State, k: Key, finalizers: seq<string>, body: Body)
    requires s.log != [] && Fits(k.kind, body)
    ensures var live' := Live(Step(s, UserCreate(k, finalizers, body)).log);
            k.name != "" && k !in Live(s.log) ==>
              && k in live' && live'[k].body == body && live'[k].finalizers == finalizers && live'[k].uid == |s.log|
              && live'[k].owner == None && live'[k].made == None && !live'[k].deleting
    ensures var live' := Live(Step(s, UserEdit(k, body)).log);
            k in Live(s.log) && !Live(s.log)[k].deleting ==>
              k in live' && live'[k] == Live(s.log)[k].(body := body, rv := live'[k].rv)
    ensures var live' := Live(Step(s, UserDelete(k)).log);
            k in Live(s.log) ==>
              if Live(s.log)[k].finalizers == [] then live' == Live(s.log) - {k}
              else k in live' && live'[k] == Live(s.log)[k].(deleting := true, rv := live'[k].rv)
  {
  }

  /** What the rest of the cluster can do: an object without finalizers whose owner incarnation is gone is collected,
      one with finalizers is marked; and the availability of a StatefulSet becomes what it becomes. */
  lemma ClusterActs(s: State, k: Key, available: nat)
    requires s.log != [] && k in Live(s.log)
    ensures var o := Live(s.log)[k]; var live' := Live(Step(s, Collect(k)).log);
            o.owner.Some?
            && !(o.owner.value.key in Live(s.log) && Live(s.log)[o.owner.value.key].uid == o.owner.value.uid) ==>
              if o.finalizers == [] then live' == Live(s.log) - {k}
              else k in live' && live'[k].deleting && live'[k].uid == o.uid
    ensures k.kind == StatefulSet ==>
              var live' := Live(Step(s, Scale(k, available)).log);
              k in live' && live'[k].uid == Live(s.log)[k].uid && live'[k].status.available == available
  {
  }

  function Run(s: State, acts: seq<Action>): (s': State)
    requires s.log != []
    ensures s'.log != []
  {
    if acts == [] then s else Step(Run(s, acts[..|acts| - 1]), acts[|acts| - 1])
  }

  lemma {:induction false} RunAppend(s: State, acts: seq<Action>, more: seq<Action>)
    requires s.log != []
    ensures Run(s, acts + more) == Run(Run(s, acts), more)
  {
    hide Step;
    if more == [] {
      assert acts + more == acts;
    } else {
      var init, a := more[..|more| - 1], more[|more| - 1];
      RunAppend(s, acts, init);
      assert (acts + more)[..|acts + more| - 1] == acts + init;
    }
  }

  lemma RunTwo(s: State, a: Action, b: Action)
    requires s.log != []
    ensures Run(s, [a, b]) == Step(Step(s, a), b)
  {
    hide Step;
    assert [a, b][..1] == [a] && [a][..0] == [];
    assert Run(s, [a]) == Step(Run(s, []), a);
  }

  lemma {:induction false} RunGrows(s: State, acts: seq<Action>)
    requires s.log != []
    ensures s.log <= Run(s, acts).log
  {
    hide Step;
    if acts != [] {
      RunGrows(s, acts[..|acts| - 1]);
      StepKeepsLog(Run(s, acts[..|acts| - 1]), acts[|acts| - 1]);
    }
  }

  lemma StepKeepsLog(s: State, a: Action)
    requires s.log != []
    ensures s.log <= Step(s, a).log
  {
  }

  /** All versions of the store in a run that starts from an empty cluster. */
  function Versions(acts: seq<Action>): (log: seq<Store>)
    ensures log != []
  {
    Run(EMPTY, acts).log
  }
}
