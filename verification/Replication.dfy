/** The replica bootstrap the StatefulSet scripts run: pod 0 is the primary, every later pod clones its
    predecessor and then replicates from pod 0. The number of pods is arbitrary. */
module Replication {
  import opened Names

  type Txn = string

  /** xtrabackup_slave_info: absent, empty, or a CHANGE MASTER TO at a position of the primary's log. */
  datatype SlaveInfo = NoSlaveInfo | EmptySlaveInfo | SlavePos(pos: nat)

  /** change_master_to.sql.in or .orig: absent, created but not yet written, or holding a position. */
  datatype ChangeFile = NoFile | EmptyFile | ChangeTo(pos: nat)

  /** The sidecar between two commands of its script; `pos` is the matched BASH_REMATCH. */
  datatype Sidecar =
    | Down
    | Check
    | CatOpen
    | CatWrite
    | RemoveSlave
    | RemoveRest
    | RemoveBinlog(pos: nat)
    | RemoveEmpty(pos: nat)
    | EchoOpen(pos: nat)
    | EchoWrite(pos: nat)
    | TestChange
    | AwaitServer
    | ChangeMaster
    | StartSlave
    | Move
    | Serving

  /** One pod: whether its data directory exists, the transactions in it, the files the scripts use,
      mysqld and its replication channel (the next position to apply), and the sidecar. */
  datatype Pod = Pod(
    seeded: bool,
    data: seq<Txn>,
    slaveInfo: SlaveInfo,
    binlogInfo: Option<nat>,
    change: ChangeFile,
    orig: ChangeFile,
    up: bool,
    channel: Option<nat>,
    replicating: bool,
    sidecar: Sidecar)

  /** The primary's log and the pods; pod 0 is the primary. */
  datatype Cluster = Cluster(log: seq<Txn>, pods: seq<Pod>)

  const BLANK := Pod(false, [], NoSlaveInfo, None, NoFile, NoFile, false, None, false, Down)

  datatype Event =
    | Commit(txn: Txn)
    | Clone(pod: nat, emptyInfo: bool)
    | Boot(pod: nat)
    | CrashServer(pod: nat)
    | LaunchSidecar(pod: nat)
    | CrashSidecar(pod: nat)
    | Command(pod: nat)
    | Replicate(pod: nat)

  // ---------------------------------------------------------------- the sidecar script

  /** The next command of the sidecar script; a command that fails ends the container. */
  function RunCommand(p: Pod): Pod {
    match p.sidecar
    case Down => p
    case Check =>
      if p.slaveInfo.SlavePos? then p.(sidecar := CatOpen)
      else if p.binlogInfo.Some? then p.(sidecar := RemoveBinlog(p.binlogInfo.value))
      else p.(sidecar := TestChange)
    case CatOpen => p.(change := EmptyFile, sidecar := CatWrite)
    case CatWrite =>
      p.(change := if p.slaveInfo.SlavePos? then ChangeTo(p.slaveInfo.pos) else EmptyFile, sidecar := RemoveSlave)
    case RemoveSlave => p.(slaveInfo := NoSlaveInfo, sidecar := RemoveRest)
    case RemoveRest => p.(binlogInfo := None, sidecar := TestChange)
    case RemoveBinlog(n) => p.(binlogInfo := None, sidecar := RemoveEmpty(n))
    case RemoveEmpty(n) => p.(slaveInfo := NoSlaveInfo, sidecar := EchoOpen(n))
    case EchoOpen(n) => p.(change := EmptyFile, sidecar := EchoWrite(n))
    case EchoWrite(n) => p.(change := ChangeTo(n), sidecar := TestChange)
    case TestChange => p.(sidecar := if p.change.NoFile? then Serving else AwaitServer)
    case AwaitServer => if p.up then p.(sidecar := ChangeMaster) else p
    case ChangeMaster =>
      if p.up && !p.replicating && p.change.ChangeTo? then p.(channel := Some(p.change.pos), sidecar := StartSlave)
      else p.(sidecar := Down)
    case StartSlave => if p.up && p.channel.Some? then p.(replicating := true, sidecar := Move) else p.(sidecar := Down)
    case Move => p.(orig := p.change, change := NoFile, sidecar := Serving)
    case Serving => p
  }

  /** What a clone leaves in the data directory: the source's data; the source's channel position if it
      has a channel; a binlog position only if the source is the primary, the one pod with a binlog. */
  function Cloned(source: Pod, fromPrimary: bool, emptyInfo: bool): Pod {
    BLANK.(seeded := true, data := source.data,
           slaveInfo := if source.channel.Some? then SlavePos(source.channel.value)
                        else if emptyInfo then EmptySlaveInfo else NoSlaveInfo,
           binlogInfo := if fromPrimary then Some(|source.data|) else None)
  }

  // ---------------------------------------------------------------- events

  predicate Possible(c: Cluster, e: Event) {
    match e
    case Commit(_) => c.pods != [] && c.pods[0].up
    case Clone(i, _) => 0 < i < |c.pods| && !c.pods[i].seeded && c.pods[i - 1].sidecar.Serving? && c.pods[i - 1].up
    case Boot(i) => i < |c.pods| && (c.pods[i].seeded || i == 0)
    case CrashServer(i) => i < |c.pods|
    case LaunchSidecar(i) => i < |c.pods| && c.pods[i].seeded && c.pods[i].sidecar.Down?
    case CrashSidecar(i) => i < |c.pods|
    case Command(i) => i < |c.pods|
    case Replicate(i) => i < |c.pods| && c.pods[0].up && c.pods[i].replicating && c.pods[i].channel.Some?
                         && c.pods[i].channel.value < |c.log|
  }

  /** The pod an event changes, after the event. */
  function After(c: Cluster, e: Event, i: nat): Pod
    requires Possible(c, e) && i < |c.pods| && (e.Commit? ==> i == 0) && (!e.Commit? ==> e.pod == i)
  {
    var p := c.pods[i];
    match e
    case Commit(t) => p.(data := p.data + [t])
    case Clone(_, emptyInfo) => Cloned(c.pods[i - 1], i == 1, emptyInfo)
    case Boot(_) => p.(seeded := true, up := true, replicating := p.channel.Some?)
    case CrashServer(_) => p.(up := false, replicating := false)
    case LaunchSidecar(_) => p.(sidecar := Check)
    case CrashSidecar(_) => p.(sidecar := Down)
    case Command(_) => RunCommand(p)
    case Replicate(_) =>
      p.(data := p.data + [c.log[p.channel.value]], channel := Some(p.channel.value + 1))
  }

  /** One event; an event that is not possible changes nothing. */
  function Next(c: Cluster, e: Event): Cluster {
    if !Possible(c, e) then c
    else
      var i := if e.Commit? then 0 else e.pod;
      Cluster(if e.Commit? then c.log + [e.txn] else c.log, c.pods[i := After(c, e, i)])
  }

  function Play(c: Cluster, events: seq<Event>): Cluster {
    if events == [] then c else Next(Play(c, events[..|events| - 1]), events[|events| - 1])
  }

  function Fresh(n: nat): Cluster {
    Cluster([], seq(n, _ => BLANK))
  }

  // ---------------------------------------------------------------- the invariant

  /** A position the sidecar carries in its variable. */
  function Carried(s: Sidecar): Option<nat> {
    if s.RemoveBinlog? || s.RemoveEmpty? || s.EchoOpen? || s.EchoWrite? then Some(s.pos) else None
  }

  /** Every position the pod has on disk or in the script is the length of its data. */
  predicate PositionsExact(p: Pod) {
    && (p.slaveInfo.SlavePos? ==> p.slaveInfo.pos == |p.data|)
    && (p.binlogInfo.Some? ==> p.binlogInfo.value == |p.data|)
    && (p.change.ChangeTo? ==> p.change.pos == |p.data|)
    && (Carried(p.sidecar).Some? ==> Carried(p.sidecar).value == |p.data|)
  }

  /** The branch that reads the positions is behind the script: no input file holds one. */
  predicate InputsGone(p: Pod) {
    !p.slaveInfo.SlavePos? && p.binlogInfo.None?
  }

  predicate PastInputs(s: Sidecar) {
    s.TestChange? || s.AwaitServer? || s.ChangeMaster? || s.StartSlave? || s.Move? || s.Serving?
  }

  /** The sidecar is between removing xtrabackup_binlog_info and having written change_master_to.sql.in. */
  predicate Window(s: Sidecar) {
    s.RemoveEmpty? || s.EchoOpen? || s.EchoWrite?
  }

  /** What the script knows about the files at each of its positions. */
  predicate ScriptOK(p: Pod) {
    var s := p.sidecar;
    && (s.CatOpen? || s.CatWrite? || s.RemoveSlave? ==> p.slaveInfo.SlavePos? && p.channel.None?)
    && (s.RemoveSlave? || s.RemoveRest? ==> p.change.ChangeTo?)
    && (s.RemoveRest? || Carried(s).Some? ==> !p.slaveInfo.SlavePos? && p.channel.None?)
    && (s.RemoveBinlog? ==> p.binlogInfo.Some?)
    && (Window(s) ==> p.binlogInfo.None?)
    && (s.RemoveEmpty? || s.EchoOpen? || p.binlogInfo.Some? ==> p.change.NoFile?)
    && (s.EchoWrite? ==> p.change.EmptyFile?)
    && (p.binlogInfo.Some? ==> !p.slaveInfo.SlavePos?)
    && (PastInputs(s) ==> InputsGone(p))
    && (s.StartSlave? || s.Move? ==> p.channel.Some? && p.change.ChangeTo?)
    && (s.Serving? ==> p.change.NoFile?)
  }

  predicate ReplicaOK(log: seq<Txn>, p: Pod) {
    && p.data <= log
    && ScriptOK(p)
    && (p.channel.None? ==> PositionsExact(p))
    && (p.channel.Some? ==> p.channel.value == |p.data| && InputsGone(p))
    && (p.channel.Some? && p.up && !p.replicating && p.change.ChangeTo? ==> p.change.pos == |p.data|)
    && (p.replicating ==> p.up && p.channel.Some?)
  }

  predicate PrimaryOK(log: seq<Txn>, p: Pod) {
    p.data == log && p.channel.None? && !p.replicating && p.slaveInfo.NoSlaveInfo? && p.binlogInfo.None?
    && p.change.NoFile? && (p.sidecar.Down? || p.sidecar.Check? || p.sidecar.TestChange? || p.sidecar.Serving?)
  }

  predicate PodOK(c: Cluster, i: nat)
    requires i < |c.pods|
  {
    if i == 0 then PrimaryOK(c.log, c.pods[i]) else ReplicaOK(c.log, c.pods[i])
  }

  ghost predicate Consistent(c: Cluster) {
    forall i :: 0 <= i < |c.pods| ==> PodOK(c, i)
  }

  predicate SlaveBranch(s: Sidecar) {
    s.CatOpen? || s.CatWrite? || s.RemoveSlave? || s.RemoveRest?
  }

  lemma SlaveBranchKeeps(log: seq<Txn>, p: Pod)
    requires ReplicaOK(log, p) && SlaveBranch(p.sidecar)
    ensures ReplicaOK(log, RunCommand(p))
  {
  }

  lemma BinlogBranchKeeps(log: seq<Txn>, p: Pod)
    requires ReplicaOK(log, p) && Carried(p.sidecar).Some?
    ensures ReplicaOK(log, RunCommand(p))
  {
  }

  lemma ServerCommandKeeps(log: seq<Txn>, p: Pod)
    requires ReplicaOK(log, p) && (p.sidecar.ChangeMaster? || p.sidecar.StartSlave? || p.sidecar.Move?)
    ensures ReplicaOK(log, RunCommand(p))
  {
  }

  lemma TestKeeps(log: seq<Txn>, p: Pod)
    requires ReplicaOK(log, p) && !SlaveBranch(p.sidecar) && Carried(p.sidecar).None?
    requires !p.sidecar.ChangeMaster? && !p.sidecar.StartSlave? && !p.sidecar.Move?
    ensures ReplicaOK(log, RunCommand(p))
  {
  }

  lemma CommandKeepsReplica(log: seq<Txn>, p: Pod)
    requires ReplicaOK(log, p)
    ensures ReplicaOK(log, RunCommand(p))
  {
    if SlaveBranch(p.sidecar) {
      SlaveBranchKeeps(log, p);
    } else if Carried(p.sidecar).Some? {
      BinlogBranchKeeps(log, p);
    } else if p.sidecar.ChangeMaster? || p.sidecar.StartSlave? || p.sidecar.Move? {
      ServerCommandKeeps(log, p);
    } else {
      TestKeeps(log, p);
    }
  }

  lemma CloneIsReplica(log: seq<Txn>, source: Pod, fromPrimary: bool, emptyInfo: bool)
    requires if fromPrimary then PrimaryOK(log, source) else ReplicaOK(log, source)
    ensures ReplicaOK(log, Cloned(source, fromPrimary, emptyInfo))
  {
  }

  lemma EventKeepsReplica(c: Cluster, e: Event, i: nat)
    requires Consistent(c) && Possible(c, e) && 0 < i < |c.pods| && !e.Commit? && e.pod == i
    ensures ReplicaOK(c.log, After(c, e, i))
  {
    assert PodOK(c, i) && PodOK(c, i - 1);
    if e.Command? {
      CommandKeepsReplica(c.log, c.pods[i]);
    } else if e.Clone? {
      CloneIsReplica(c.log, c.pods[i - 1], i == 1, e.emptyInfo);
    }
  }

  lemma EventKeepsPrimary(c: Cluster, e: Event)
    requires Consistent(c) && Possible(c, e) && c.pods != [] && (e.Commit? || e.pod == 0)
    ensures PrimaryOK(Next(c, e).log, After(c, e, 0))
  {
    assert PodOK(c, 0);
  }

  lemma NextConsistent(c: Cluster, e: Event)
    requires Consistent(c)
    ensures Consistent(Next(c, e)) && c.log <= Next(c, e).log
  {
    var c' := Next(c, e);
    forall i | 0 <= i < |c'.pods| ensures PodOK(c', i) {
      assert PodOK(c, i);
      if Possible(c, e) {
        if i == 0 && (e.Commit? || e.pod == 0) {
          EventKeepsPrimary(c, e);
        } else if !e.Commit? && e.pod == i {
          EventKeepsReplica(c, e, i);
        }
      }
    }
  }

  lemma {:induction false} PlayConsistent(c: Cluster, events: seq<Event>)
    requires Consistent(c)
    ensures Consistent(Play(c, events)) && c.log <= Play(c, events).log
  {
    if events != [] {
      PlayConsistent(c, events[..|events| - 1]);
      NextConsistent(Play(c, events[..|events| - 1]), events[|events| - 1]);
    }
  }

  // ---------------------------------------------------------------- theorems

  lemma PlayOneMore(c: Cluster, events: seq<Event>, e: Event)
    ensures Play(c, events + [e]) == Next(Play(c, events), e)
  {
    assert (events + [e])[..|events + [e]| - 1] == events;
  }

  lemma {:induction false} PlaySize(n: nat, events: seq<Event>)
    ensures |Play(Fresh(n), events).pods| == n
  {
    if events != [] {
      PlaySize(n, events[..|events| - 1]);
    }
  }

  /** For any number of pods and any interleaving of commits, clones, replication and crashes, the data of
      every pod is a prefix of the primary's log, and the position of a replication channel is the
      length of that prefix: no transaction is skipped or applied twice, through any chain of clones. */
  lemma PrefixSafety(n: nat, events: seq<Event>, i: nat)
    requires i < |Play(Fresh(n), events).pods|
    ensures var c := Play(Fresh(n), events); var p := c.pods[i];
            && |p.data| <= |c.log| && p.data == c.log[..|p.data|]
            && (p.channel.Some? ==> p.channel.value == |p.data|)
            && (i == 0 ==> p.data == c.log)
  {
    PlayConsistent(Fresh(n), events);
    assert PodOK(Play(Fresh(n), events), i);
  }

  /** A replica never loses what it has: its data only grows, and a replication step appends exactly the
      transaction of the primary's log that follows. */
  lemma NothingLostOrRepeated(n: nat, events: seq<Event>, e: Event, i: nat)
    requires i < |Play(Fresh(n), events).pods|
    ensures var c := Play(Fresh(n), events); var c' := Next(c, e);
            && i < |c'.pods| && c.pods[i].data <= c'.pods[i].data
            && (e == Replicate(i) && Possible(c, e) && i > 0 ==>
                  |c.pods[i].data| < |c.log|
                  && c'.pods[i].data == c.pods[i].data + [c.log[|c.pods[i].data|]]
                  && c'.pods[i].channel == Some(|c'.pods[i].data|))
  {
    hide Play;
    PlayUnseeded(n, events, i);
    PlayConsistent(Fresh(n), events);
    assert PodOK(Play(Fresh(n), events), i);
  }

  /** A pod without a data directory has nothing at all. */
  lemma {:induction false} PlayUnseeded(n: nat, events: seq<Event>, i: nat)
    requires i < |Play(Fresh(n), events).pods|
    ensures var p := Play(Fresh(n), events).pods[i]; !p.seeded && i > 0 ==> p == BLANK
  {
    if events != [] {
      PlayUnseeded(n, events[..|events| - 1], i);
    }
  }

  /** A pod gets its data from the pod before it, and only while that one is up and serves. */
  lemma SeededByPeer(c: Cluster, e: Event, i: nat)
    requires 0 < i < |c.pods| && !c.pods[i].seeded
    ensures i < |Next(c, e).pods|
    ensures Next(c, e).pods[i].seeded <==>
              e.Clone? && e.pod == i && c.pods[i - 1].up && c.pods[i - 1].sidecar.Serving?
    ensures Next(c, e).pods[i].seeded ==> Next(c, e).pods[i].data == c.pods[i - 1].data
  {
  }

  /** While the primary is down nothing is committed and no replica gets further. */
  lemma FrozenWithoutPrimary(c: Cluster, e: Event, i: nat)
    requires i < |c.pods| && !c.pods[0].up && (i == 0 || c.pods[i].seeded)
    ensures Next(c, e).log == c.log && i < |Next(c, e).pods| && Next(c, e).pods[i].data == c.pods[i].data
  {
  }

  /** A server or a sidecar can die at any moment; what is on disk stays, and a restarted server goes on replicating
      where it has been told to. */
  lemma CrashesAreFree(c: Cluster, i: nat)
    requires i < |c.pods|
    ensures Next(c, CrashServer(i)) == c.(pods := c.pods[i := c.pods[i].(up := false, replicating := false)])
    ensures Next(c, CrashSidecar(i)) == c.(pods := c.pods[i := c.pods[i].(sidecar := Down)])
    ensures c.pods[i].seeded ==>
              Next(c, Boot(i)) == c.(pods := c.pods[i := c.pods[i].(up := true, replicating := c.pods[i].channel.Some?)])
  {
  }

  // ---------------------------------------------------------------- the lost coordinate

  /** The pod still has its replication position somewhere: in its channel, a file, or the script. */
  predicate Knows(p: Pod) {
    p.channel.Some? || p.slaveInfo.SlavePos? || p.binlogInfo.Some? || p.change.ChangeTo? || Carried(p.sidecar).Some?
  }

  /** Exactly one event makes a seeded replica lose its position: the sidecar dies in that window. */
  lemma LosesExactlyInWindow(c: Cluster, e: Event, i: nat)
    requires Consistent(c) && Possible(c, e) && 0 < i < |c.pods| && c.pods[i].seeded && Knows(c.pods[i])
    ensures !Knows(Next(c, e).pods[i]) <==> e == CrashSidecar(i) && Window(c.pods[i].sidecar)
  {
    assert PodOK(c, i);
  }

  /** A fresh clone knows its position exactly if its source is the primary or has a channel. */
  lemma CloneKnows(c: Cluster, i: nat, emptyInfo: bool)
    requires Consistent(c) && Possible(c, Clone(i, emptyInfo))
    ensures Knows(Next(c, Clone(i, emptyInfo)).pods[i]) <==> i == 1 || Knows(c.pods[i - 1])
  {
    assert PodOK(c, i - 1);
  }

  /** A pod that has lost its position never replicates: its data is frozen for good. */
  lemma {:induction false} LostForever(c: Cluster, events: seq<Event>, i: nat)
    requires Consistent(c) && 0 < i < |c.pods| && c.pods[i].seeded && !Knows(c.pods[i])
    ensures i < |Play(c, events).pods|
    ensures var p := Play(c, events).pods[i];
            p.seeded && !Knows(p) && !p.replicating && p.data == c.pods[i].data
  {
    if events != [] {
      var init := events[..|events| - 1];
      LostForever(c, init, i);
      PlayConsistent(c, init);
      assert PodOK(Play(c, init), i);
    } else {
      assert PodOK(c, i);
    }
  }

  /** The pods from ordinal 2 on clone from replicas and never hold a binlog position. */
  ghost predicate NoBinlogBeyondOne(c: Cluster) {
    forall i :: 2 <= i < |c.pods| ==> c.pods[i].binlogInfo.None? && Carried(c.pods[i].sidecar).None?
  }

  lemma CommandKeepsNoBinlog(p: Pod)
    requires p.binlogInfo.None? && Carried(p.sidecar).None?
    ensures RunCommand(p).binlogInfo.None? && Carried(RunCommand(p).sidecar).None?
  {
  }

  lemma NextNoBinlog(c: Cluster, e: Event)
    requires NoBinlogBeyondOne(c)
    ensures NoBinlogBeyondOne(Next(c, e))
  {
    if Possible(c, e) && e.Command? && e.pod >= 2 {
      CommandKeepsNoBinlog(c.pods[e.pod]);
    }
  }

  lemma {:induction false} PlayNoBinlog(n: nat, events: seq<Event>)
    ensures NoBinlogBeyondOne(Play(Fresh(n), events))
  {
    if events != [] {
      PlayNoBinlog(n, events[..|events| - 1]);
      NextNoBinlog(Play(Fresh(n), events[..|events| - 1]), events[|events| - 1]);
    }
  }

  /** A clone of a replica that has its position keeps it through every crash: the branch that copies
      the position before it removes the input has no such window. */
  lemma {:induction false} ReplicaCloneNeverLoses(n: nat, events: seq<Event>, more: seq<Event>, i: nat)
    requires 2 <= i < |Play(Fresh(n), events).pods|
    requires Play(Fresh(n), events).pods[i].seeded && Knows(Play(Fresh(n), events).pods[i])
    ensures i < |Play(Fresh(n), events + more).pods|
    ensures Play(Fresh(n), events + more).pods[i].seeded && Knows(Play(Fresh(n), events + more).pods[i])
  {
    if more == [] {
      assert events + more == events;
    } else {
      var init, e := more[..|more| - 1], more[|more| - 1];
      ReplicaCloneNeverLoses(n, events, init, i);
      assert events + more == events + init + [e];
      PlayOneMore(Fresh(n), events + init, e);
      PlayConsistent(Fresh(n), events + init);
      PlayNoBinlog(n, events + init);
      hide Play, Knows;
      StillKnows(Play(Fresh(n), events + init), e, i);
    }
  }

  lemma StillKnows(c: Cluster, e: Event, i: nat)
    requires Consistent(c) && NoBinlogBeyondOne(c) && 2 <= i < |c.pods| && c.pods[i].seeded && Knows(c.pods[i])
    ensures var c' := Next(c, e); i < |c'.pods| && c'.pods[i].seeded && Knows(c'.pods[i])
  {
    if Possible(c, e) {
      LosesExactlyInWindow(c, e, i);
    }
  }
}
