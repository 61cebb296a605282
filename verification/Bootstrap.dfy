/** The scripts of the StatefulSet as programs over a pod's files and server, proved to be runs of the
    commands the replication protocol is about. */
module Bootstrap {
  import opened Names
  import opened Replication
  import opened Recovery
  import Ordinals

  /** What init-mysql writes into conf.d. */
  datatype Config = Config(serverId: nat, primary: bool)

  /** init-mysql: a host name without an ordinal ends the container; pod i of a set becomes server
      100 + i, and pod 0 alone gets the primary's configuration. */
  method InitMysql(hostname: string) returns (conf: Option<Config>)
    ensures conf == None <==> Ordinals.Ordinal(hostname) == None
    ensures forall x: string, i: nat :: hostname == Ordinals.PodName(x, i) ==> conf == Some(Config(100 + i, i == 0))
  {
    hide Ordinals.PodName, Ordinals.Ordinal;
    forall x: string, i: nat | hostname == Ordinals.PodName(x, i) ensures Ordinals.Ordinal(hostname) == Some(i) {
      Ordinals.PodOrdinal(x, i);
    }
    var ordinal := Ordinals.Ordinal(hostname);
    if ordinal == None {
      return None;
    }
    var serverId := 100 + ordinal.value;
    if ordinal.value == 0 {
      conf := Some(Config(serverId, true));
    } else {
      conf := Some(Config(serverId, false));
    }
  }

  /** A pod: its data directory with the files the scripts use, and its server. */
  class Host {
    var seeded: bool
    var data: seq<Txn>
    var slaveInfo: SlaveInfo
    var binlogInfo: Option<nat>
    var change: ChangeFile
    var orig: ChangeFile
    var up: bool
    var channel: Option<nat>
    var replicating: bool

    /** The pod when its sidecar was started, and all that has happened to it since. */
    ghost var first: Pod
    ghost var events: seq<PodEvent>

    constructor (p: Pod)
      ensures Snapshot(p.sidecar) == p && first == p && events == []
    {
      seeded, data, slaveInfo, binlogInfo := p.seeded, p.data, p.slaveInfo, p.binlogInfo;
      change, orig, up, channel, replicating := p.change, p.orig, p.up, p.channel, p.replicating;
      first, events := p, [];
    }

    /** The pod as the protocol sees it, with its sidecar at this command. */
    function Snapshot(at: Sidecar): Pod
      reads `seeded, `data, `slaveInfo, `binlogInfo, `change, `orig, `up, `channel, `replicating
    {
      Pod(seeded, data, slaveInfo, binlogInfo, change, orig, up, channel, replicating, at)
    }

    /** What the pod is now is what its commands and its server made of it. */
    ghost predicate Tracks(at: Sidecar)
      reads this
    {
      Snapshot(at) == PodRun(first, events)
    }

    /** clone-mysql: nothing if data exists or on the primary; otherwise the backup the previous pod serves.
        On a blank pod that is what the clone event of the protocol does. */
    method CloneMysql(hostname: string, peer: Host, emptyInfo: bool) returns (ok: bool)
      requires peer != this
      modifies this
      ensures ok <==> old(seeded) || Ordinals.Ordinal(hostname) != None
      ensures old(seeded) || !ok || Ordinals.Ordinal(hostname) == Some(0) ==> Snapshot(Down) == old(Snapshot(Down))
      ensures old(Snapshot(Down)) == BLANK && ok && Ordinals.Ordinal(hostname) != Some(0) ==>
                Snapshot(Down) == Cloned(peer.Snapshot(Serving), Ordinals.Ordinal(hostname) == Some(1), emptyInfo)
      ensures old(Snapshot(Down)) == BLANK ==>
                forall c: Cluster, i: nat | Possible(c, Clone(i, emptyInfo)) && Ordinals.Ordinal(hostname) == Some(i)
                                            && c.pods[i - 1] == peer.Snapshot(Serving) ::
                  Next(c, Clone(i, emptyInfo)).pods[i] == Snapshot(Down)
    {
      if seeded {
        return true;
      }
      var ordinal := Ordinals.Ordinal(hostname);
      if ordinal == None {
        return false;
      }
      if ordinal.value == 0 {
        return true;
      }
      data := peer.data;
      if peer.channel.Some? {
        slaveInfo := SlavePos(peer.channel.value);
      } else {
        slaveInfo := if emptyInfo then EmptySlaveInfo else NoSlaveInfo;
      }
      binlogInfo := if ordinal.value == 1 then Some(|peer.data|) else None;
      seeded := true;
      ok := true;
    }

    // ---------------------------------------------------------------- between two commands

    /** Whatever the server does meanwhile: it crashes, restarts, applies transactions, any number of times. */
    method Server(at: Sidecar)
      requires Tracks(at)
      modifies `data, `up, `channel, `replicating, `events
      ensures Tracks(at) && Rans(events) == old(Rans(events))
    {
      var n: nat := *;
      while n > 0
        invariant Tracks(at) && Rans(events) == old(Rans(events))
      {
        var e: PodEvent := *;
        if !e.Ran? {
          PodRunMore(first, events, e);
          RansMore(events, e);
          events := events + [e];
          match e {
            case Crashed => up, replicating := false, false;
            case Booted => up, replicating := true, channel.Some?;
            case Applied(t) =>
              if replicating && channel.Some? {
                data, channel := data + [t], Some(channel.value + 1);
              }
          }
        }
        n := n - 1;
      }
    }

    /** Keep the record: what has just been done is the next command of the protocol. */
    ghost method Record(at: Sidecar)
      requires Snapshot(at) == RunCommand(PodRun(first, events))
      modifies `events
      ensures Tracks(at) && Rans(events) == old(Rans(events)) + 1
    {
      PodRunMore(first, events, Ran);
      RansMore(events, Ran);
      events := events + [Ran];
    }

    /** The next command has been done; then the server acts again. */
    method Done(at: Sidecar)
      requires Snapshot(at) == RunCommand(PodRun(first, events))
      modifies `data, `up, `channel, `replicating, `events
      ensures Tracks(at) && Rans(events) == old(Rans(events)) + 1
    {
      Record(at);
      Server(at);
    }

    // ---------------------------------------------------------------- the sidecar script

    // The methods below run their part of the sidecar script for at most `fuel` commands, after which the
    // container is killed: they return the command it was about to run and the fuel that was left.

    /** A clone of a replica: copy the position it carries, then remove the inputs. */
    method CopySlaveInfo(fuel: nat) returns (at: Sidecar, left: nat)
      requires Tracks(CatOpen) && slaveInfo.SlavePos?
      modifies `data, `up, `channel, `replicating, `events, `change, `slaveInfo, `binlogInfo
      ensures Tracks(at) && Rans(events) + left == old(Rans(events)) + fuel
      ensures left == 0 || at == TestChange
    {
      hide PodRun, PodStep, Rans;
      left := fuel;
      if left == 0 { return CatOpen, 0; }
      change, left := EmptyFile, left - 1;
      Done(CatWrite);
      if left == 0 { return CatWrite, 0; }
      change, left := ChangeTo(slaveInfo.pos), left - 1;
      Done(RemoveSlave);
      if left == 0 { return RemoveSlave, 0; }
      slaveInfo, left := NoSlaveInfo, left - 1;
      Done(RemoveRest);
      if left == 0 { return RemoveRest, 0; }
      binlogInfo, left := None, left - 1;
      Done(TestChange);
      at := TestChange;
    }

    /** A clone of the primary: read the position, remove the inputs, and only then write it down. */
    method WriteBinlogPosition(pos: nat, fuel: nat) returns (at: Sidecar, left: nat)
      requires Tracks(RemoveBinlog(pos))
      modifies `data, `up, `channel, `replicating, `events, `change, `slaveInfo, `binlogInfo
      ensures Tracks(at) && Rans(events) + left == old(Rans(events)) + fuel
      ensures left == 0 || at == TestChange
    {
      hide PodRun, PodStep, Rans;
      left := fuel;
      if left == 0 { return RemoveBinlog(pos), 0; }
      binlogInfo, left := None, left - 1;
      Done(RemoveEmpty(pos));
      if left == 0 { return RemoveEmpty(pos), 0; }
      slaveInfo, left := NoSlaveInfo, left - 1;
      Done(EchoOpen(pos));
      if left == 0 { return EchoOpen(pos), 0; }
      change, left := EmptyFile, left - 1;
      Done(EchoWrite(pos));
      if left == 0 { return EchoWrite(pos), 0; }
      change, left := ChangeTo(pos), left - 1;
      Done(TestChange);
      at := TestChange;
    }

    /** START SLAVE, and the final move. */
    method StartAndMove(fuel: nat) returns (at: Sidecar, left: nat)
      requires Tracks(StartSlave)
      modifies `data, `up, `channel, `replicating, `events, `change, `orig
      ensures Tracks(at) && Rans(events) + left == old(Rans(events)) + fuel
      ensures left == 0 || at == Serving || at == Down
    {
      hide PodRun, PodStep, Rans;
      left := fuel;
      if left == 0 { return StartSlave, 0; }
      left := left - 1;
      if !up || channel == None {
        Done(Down);
        return Down, left;
      }
      replicating := true;
      Done(Move);
      if left == 0 { return Move, 0; }
      orig, change, left := change, NoFile, left - 1;
      Done(Serving);
      at := Serving;
    }

    /** The mysql client call, which the server rejects while it replicates. */
    method StartReplication(fuel: nat) returns (at: Sidecar, left: nat)
      requires Tracks(ChangeMaster)
      modifies `data, `up, `channel, `replicating, `events, `change, `orig
      ensures Tracks(at) && Rans(events) + left == old(Rans(events)) + fuel
      ensures left == 0 || at == Serving || at == Down
    {
      hide PodRun, PodStep, Rans;
      left := fuel;
      if left == 0 { return ChangeMaster, 0; }
      left := left - 1;
      if !up || replicating || !change.ChangeTo? {
        Done(Down);
        return Down, left;
      }
      channel := Some(change.pos);
      Done(StartSlave);
      at, left := StartAndMove(left);
    }

    /** Complete a clone by starting replication, if there is a position to start at; then serve. */
    method CompleteClone(fuel: nat) returns (at: Sidecar, left: nat)
      requires Tracks(TestChange)
      modifies `data, `up, `channel, `replicating, `events, `change, `orig
      ensures Tracks(at) && Rans(events) + left == old(Rans(events)) + fuel
      ensures left == 0 || at == Serving || at == Down
    {
      hide PodRun, PodStep, Rans;
      left := fuel;
      if left == 0 { return TestChange, 0; }
      left := left - 1;
      if change.NoFile? {
        Done(Serving);
        return Serving, left;
      }
      Done(AwaitServer);
      while left > 0
        invariant Tracks(AwaitServer) && Rans(events) + left == old(Rans(events)) + fuel
        decreases left
      {
        left := left - 1;
        if up {
          Done(ChangeMaster);
          at, left := StartReplication(left);
          return;
        }
        Done(AwaitServer);
      }
      at := AwaitServer;
    }

    /** The xtrabackup container: whenever it is killed, and whatever the server did meanwhile, the pod is what
        as many commands of the protocol and those events make of it; only a script that serves or has
        failed stops before. */
    method RunSidecar(fuel: nat) returns (at: Sidecar, left: nat)
      requires Tracks(Check)
      modifies `data, `up, `channel, `replicating, `events, `change, `orig, `slaveInfo, `binlogInfo
      ensures Tracks(at) && Rans(events) + left == old(Rans(events)) + fuel
      ensures left == 0 || at == Serving || at == Down
    {
      hide PodRun, PodStep, Rans;
      Server(Check);
      if fuel == 0 { return Check, 0; }
      left := fuel - 1;
      if slaveInfo.SlavePos? {
        Done(CatOpen);
        at, left := CopySlaveInfo(left);
      } else if binlogInfo.Some? {
        Done(RemoveBinlog(binlogInfo.value));
        at, left := WriteBinlogPosition(binlogInfo.value, left);
      } else {
        Done(TestChange);
        at := TestChange;
      }
      if left > 0 {
        at, left := CompleteClone(left);
      }
    }
  }
}
