/** What becomes of a sidecar that is left alone, and of one that was killed: when it gets to serve clones,
    and the two ways in which it never will. */
module Recovery {
  import opened Names
  import opened Replication

  // ---------------------------------------------------------------- the sidecar that is left alone

  function Commands(p: Pod, n: nat): Pod
    decreases n
  {
    if n == 0 then p else Commands(RunCommand(p), n - 1)
  }

  lemma {:induction false} CommandsAdd(p: Pod, m: nat, n: nat)
    ensures Commands(p, m + n) == Commands(Commands(p, m), n)
    decreases m
  {
    hide RunCommand;
    if m > 0 {
      CommandsAdd(RunCommand(p), m - 1, n);
    }
  }

  /** The undisturbed script is a run of its commands as events of the cluster. */
  lemma {:induction false} CommandsPlay(c: Cluster, i: nat, n: nat)
    requires i < |c.pods|
    ensures Play(c, seq(n, _ => Command(i))) == c.(pods := c.pods[i := Commands(c.pods[i], n)])
    decreases n
  {
    hide RunCommand;
    if n > 0 {
      var events := seq(n, _ => Command(i));
      assert events[..n - 1] == seq(n - 1, _ => Command(i));
      CommandsPlay(c, i, n - 1);
      CommandsAdd(c.pods[i], n - 1, 1);
      assert Commands(Commands(c.pods[i], n - 1), 1) == RunCommand(Commands(c.pods[i], n - 1));
    }
  }

  /** A fresh clone after its first half of the script: the position is in change_master_to.sql.in and the
      inputs are gone, whichever branch was taken. */
  function Prepared(p: Pod): Pod {
    p.(slaveInfo := NoSlaveInfo, binlogInfo := None, change := ChangeTo(|p.data|), sidecar := TestChange)
  }

  lemma InputPrepares(p: Pod)
    requires p.sidecar.Check? && PositionsExact(p)
    requires p.slaveInfo.SlavePos? || (p.binlogInfo.Some? && p.change.NoFile?)
    ensures Commands(p, 5) == Prepared(p)
  {
    var p3 := RunCommand(RunCommand(RunCommand(p)));
    assert Commands(p, 5) == Commands(p3, 2) == RunCommand(RunCommand(p3));
  }

  lemma PreparedServes(p: Pod)
    requires p.sidecar.TestChange? && p.change.ChangeTo? && p.up && !p.replicating
    ensures Commands(p, 5) ==
              p.(orig := p.change, change := NoFile, channel := Some(p.change.pos), replicating := true, sidecar := Serving)
  {
    var p3 := RunCommand(RunCommand(RunCommand(p)));
    assert p3.sidecar.StartSlave?;
    assert Commands(p, 5) == Commands(p3, 2) == RunCommand(RunCommand(p3));
  }

  /** From a fresh clone with a position, ten undisturbed commands bring the sidecar to serve, with the
      channel at the end of the cloned data and the inputs gone. */
  lemma CloneGetsReady(source: Pod, fromPrimary: bool, emptyInfo: bool, log: seq<Txn>)
    requires if fromPrimary then PrimaryOK(log, source) else ReplicaOK(log, source) && source.channel.Some?
    ensures var p := Cloned(source, fromPrimary, emptyInfo).(up := true, sidecar := Check);
            Commands(p, 10) ==
              p.(slaveInfo := NoSlaveInfo, binlogInfo := None, orig := ChangeTo(|source.data|),
                 channel := Some(|source.data|), replicating := true, sidecar := Serving)
  {
    hide Commands, RunCommand;
    var p := Cloned(source, fromPrimary, emptyInfo).(up := true, sidecar := Check);
    InputPrepares(p);
    PreparedServes(Prepared(p));
    CommandsAdd(p, 5, 5);
  }

  // ---------------------------------------------------------------- the sidecar that never serves

  /** The script is before the CHANGE MASTER. */
  predicate BeforeChange(s: Sidecar) {
    s.Down? || s.Check? || s.TestChange? || s.AwaitServer? || s.ChangeMaster?
  }

  /** The position is out of reach: what is left is a change file that is empty, or one that repeats a CHANGE
      MASTER the running channel rejects; and the sidecar is not past that point. */
  predicate Stuck(p: Pod) {
    && InputsGone(p) && BeforeChange(p.sidecar)
    && (p.change.EmptyFile? || (p.change.ChangeTo? && p.channel.Some? && (p.up ==> p.replicating)))
  }

  lemma StuckStays(c: Cluster, e: Event, i: nat)
    requires Consistent(c) && 0 < i < |c.pods| && c.pods[i].seeded && Stuck(c.pods[i])
    ensures i < |Next(c, e).pods| && Next(c, e).pods[i].seeded && Stuck(Next(c, e).pods[i])
    ensures i + 1 < |c.pods| && !c.pods[i + 1].seeded ==> !Next(c, e).pods[i + 1].seeded
  {
    assert PodOK(c, i);
  }

  /** Every restart of such a sidecar ends the same way: it never serves a clone, and its successor is never
      seeded. */
  lemma {:induction false} StuckForever(c: Cluster, events: seq<Event>, i: nat)
    requires Consistent(c) && 0 < i < |c.pods| && c.pods[i].seeded && Stuck(c.pods[i])
    ensures |Play(c, events).pods| == |c.pods|
    ensures var p := Play(c, events).pods[i]; p.seeded && Stuck(p) && !p.sidecar.Serving?
    ensures i + 1 < |c.pods| && !c.pods[i + 1].seeded ==> !Play(c, events).pods[i + 1].seeded
  {
    hide Stuck;
    if events != [] {
      var init := events[..|events| - 1];
      StuckForever(c, init, i);
      PlayConsistent(c, init);
      StuckStays(Play(c, init), events[|events| - 1], i);
    }
    StuckNotServing(Play(c, events).pods[i]);
  }

  lemma StuckNotServing(p: Pod)
    requires Stuck(p)
    ensures !p.sidecar.Serving?
  {
  }

  /** A restarted sidecar, its server up and nothing else happening, gets to serve exactly if it has an input,
      has no change file, or has one the server will take. */
  lemma ServesExactly(log: seq<Txn>, p: Pod)
    requires ReplicaOK(log, p) && p.up && p.seeded && p.sidecar.Down?
    ensures Commands(p.(sidecar := Check), 10).sidecar.Serving? <==>
              p.slaveInfo.SlavePos? || p.binlogInfo.Some? || p.change.NoFile? || (p.change.ChangeTo? && !p.replicating)
  {
    var q := p.(sidecar := Check);
    if p.slaveInfo.SlavePos? || p.binlogInfo.Some? {
      WithInputServes(q);
    } else {
      WithoutInput(q);
    }
  }

  lemma WithInputServes(p: Pod)
    requires p.sidecar.Check? && PositionsExact(p) && p.up && !p.replicating
    requires p.slaveInfo.SlavePos? || (p.binlogInfo.Some? && p.change.NoFile?)
    ensures Commands(p, 10).sidecar.Serving?
  {
    hide Commands, RunCommand;
    InputPrepares(p);
    PreparedServes(Prepared(p));
    CommandsAdd(p, 5, 5);
  }

  lemma WithoutInput(p: Pod)
    requires p.sidecar.Check? && InputsGone(p) && p.up
    ensures Commands(p, 10).sidecar.Serving? <==> p.change.NoFile? || (p.change.ChangeTo? && !p.replicating)
  {
    hide Commands;
    assert RunCommand(p) == p.(sidecar := TestChange);
    CommandsAdd(p, 1, 9);
    OneCommand(p);
    var q := RunCommand(p);
    if p.change.NoFile? {
      OneCommand(q);
      CommandsAdd(q, 1, 8);
      Finished(RunCommand(q), 8);
    } else if p.change.ChangeTo? && !p.replicating {
      PreparedServes(q);
      CommandsAdd(q, 5, 4);
      Finished(Commands(q, 5), 4);
    } else {
      Rejected(q);
      CommandsAdd(q, 3, 6);
      Finished(Commands(q, 3), 6);
    }
  }

  lemma OneCommand(p: Pod)
    ensures Commands(p, 1) == RunCommand(p)
  {
    assert Commands(RunCommand(p), 0) == RunCommand(p);
  }

  lemma Rejected(p: Pod)
    requires p.sidecar.TestChange? && !p.change.NoFile? && p.up && (p.replicating || !p.change.ChangeTo?)
    ensures Commands(p, 3) == p.(sidecar := Down)
  {
    assert Commands(p, 3) == RunCommand(RunCommand(RunCommand(p)));
  }

  /** A sidecar that serves, or whose container has ended, runs no further command. */
  lemma {:induction false} Finished(p: Pod, n: nat)
    requires p.sidecar.Serving? || p.sidecar.Down?
    ensures Commands(p, n) == p
    decreases n
  {
    if n > 0 {
      Finished(p, n - 1);
    }
  }

  /** A replica whose sidecar has ended and that is not stuck can be brought to serve. */
  lemma CanServe(c: Cluster, i: nat) returns (events: seq<Event>)
    requires Consistent(c) && 0 < i < |c.pods| && c.pods[i].seeded && c.pods[i].sidecar.Down? && !Stuck(c.pods[i])
    ensures |Play(c, events).pods| == |c.pods| && Play(c, events).pods[i].sidecar.Serving?
  {
    hide Play, Commands;
    assert PodOK(c, i);
    var boot := if c.pods[i].up then [] else [Boot(i)];
    PlayNothing(c);
    PlayOneMore(c, [], Boot(i));
    assert [] + [Boot(i)] == [Boot(i)];
    var d := Play(c, boot);
    PlayConsistent(c, boot);
    assert PodOK(d, i);
    assert d.pods[i] == if c.pods[i].up then c.pods[i] else c.pods[i].(up := true, replicating := c.pods[i].channel.Some?);
    ServesExactly(d.log, d.pods[i]);
    PlayOneMore(c, boot, LaunchSidecar(i));
    var launched := boot + [LaunchSidecar(i)];
    CommandsPlay(Play(c, launched), i, 10);
    PlayAppend(c, launched, seq(10, _ => Command(i)));
    events := launched + seq(10, _ => Command(i));
  }

  /** A replica whose sidecar has ended never serves again, whatever happens, exactly if it is stuck. */
  lemma NeverServesExactly(c: Cluster, i: nat)
    requires Consistent(c) && 0 < i < |c.pods| && c.pods[i].seeded && c.pods[i].sidecar.Down?
    ensures Stuck(c.pods[i]) <==>
              forall events :: i < |Play(c, events).pods| ==> !Play(c, events).pods[i].sidecar.Serving?
  {
    hide Stuck, Play;
    if Stuck(c.pods[i]) {
      forall events | i < |Play(c, events).pods| ensures !Play(c, events).pods[i].sidecar.Serving? {
        StuckForever(c, events, i);
      }
    } else {
      var events := CanServe(c, i);
    }
  }

  /** The ways into it: the sidecar is killed while it writes the change file, or after it has configured the
      channel and before it has moved the file away; START SLAVE finds the server down; or the sidecar was
      killed before START SLAVE and then the server crashes or restarts. */
  lemma SticksExactly(c: Cluster, e: Event, i: nat)
    requires Consistent(c) && Possible(c, e) && 0 < i < |c.pods| && c.pods[i].seeded && !Stuck(c.pods[i])
    ensures var p := c.pods[i]; var s := p.sidecar;
            Stuck(Next(c, e).pods[i]) <==>
              || (e == CrashSidecar(i) && (s.EchoWrite? || ((s.StartSlave? || s.Move?) && (p.up ==> p.replicating))))
              || (e == Command(i) && s.StartSlave? && !p.up)
              || ((e == CrashServer(i) || e == Boot(i)) && p.channel.Some? && p.change.ChangeTo? && BeforeChange(s))
  {
    assert PodOK(c, i);
  }

  // ---------------------------------------------------------------- both failures do happen

  lemma {:induction false} PlayAppend(c: Cluster, events: seq<Event>, more: seq<Event>)
    ensures Play(c, events + more) == Play(Play(c, events), more)
  {
    hide Next;
    if more == [] {
      assert events + more == events;
    } else {
      var init := more[..|more| - 1];
      PlayAppend(c, events, init);
      assert (events + more)[..|events + more| - 1] == events + init;
    }
  }

  /** A primary that is up and serves clones, and a second pod that has just cloned it. */
  lemma FirstClone(n: nat) returns (events: seq<Event>)
    requires n >= 2
    ensures var c := Play(Fresh(n), events);
            && |c.pods| == n && c.pods[1] == Cloned(c.pods[0], true, false)
            && c.pods[0].data == [] && c.pods[0].channel == None
  {
    hide Play;
    var e1, e2 := [Boot(0)], [Boot(0)] + [LaunchSidecar(0)];
    var e3, e4 := e2 + [Command(0)], e2 + [Command(0)] + [Command(0)];
    PlayOneMore(Fresh(n), [], Boot(0));
    assert [] + [Boot(0)] == [Boot(0)];
    PlayNothing(Fresh(n));
    PlayOneMore(Fresh(n), e1, LaunchSidecar(0));
    PlayOneMore(Fresh(n), e2, Command(0));
    PlayOneMore(Fresh(n), e3, Command(0));
    events := e4 + [Clone(1, false)];
    PlayOneMore(Fresh(n), e4, Clone(1, false));
  }

  lemma PlayNothing(c: Cluster)
    ensures Play(c, []) == c
  {
  }

  /** The loss of a position is reached: two commands into its script the clone's sidecar is killed. */
  lemma PositionCanBeLost(n: nat) returns (events: seq<Event>)
    requires n >= 2
    ensures var c := Play(Fresh(n), events); 1 < |c.pods| && c.pods[1].seeded && !Knows(c.pods[1])
  {
    hide Play;
    var e0 := FirstClone(n);
    var e1 := e0 + [LaunchSidecar(1)];
    PlayOneMore(Fresh(n), e0, LaunchSidecar(1));
    PlayOneMore(Fresh(n), e1, Command(1));
    PlayOneMore(Fresh(n), e1 + [Command(1)], Command(1));
    var e3 := e1 + [Command(1)] + [Command(1)];
    assert Play(Fresh(n), e3).pods[1] == Play(Fresh(n), e0).pods[1].(binlogInfo := None, sidecar := RemoveEmpty(0));
    PlayOneMore(Fresh(n), e3, CrashSidecar(1));
    events := e3 + [CrashSidecar(1)];
  }

  lemma NineCommands(p: Pod)
    requires p.sidecar.Check? && p.change.NoFile? && PositionsExact(p) && p.up && !p.replicating
    requires p.slaveInfo.SlavePos? || p.binlogInfo.Some?
    ensures Commands(p, 9) == Prepared(p).(channel := Some(|p.data|), replicating := true, sidecar := Move)
  {
    hide Commands;
    InputPrepares(p);
    CommandsAdd(p, 5, 4);
    FourCommands(Prepared(p));
  }

  lemma FourCommands(p: Pod)
    requires p.sidecar.TestChange? && p.change.ChangeTo? && p.up && !p.replicating
    ensures Commands(p, 4) == p.(channel := Some(p.change.pos), replicating := true, sidecar := Move)
  {
    var p2 := RunCommand(RunCommand(p));
    assert Commands(p, 4) == Commands(p2, 2);
  }

  /** The sidecar that never serves is reached: it is killed nine commands into its script. */
  lemma SidecarCanStick(n: nat) returns (events: seq<Event>)
    requires n >= 2
    ensures var c := Play(Fresh(n), events); 1 < |c.pods| && c.pods[1].seeded && Stuck(c.pods[1])
  {
    hide Play, Commands;
    var e0 := FirstClone(n);
    var e1 := e0 + [Boot(1)];
    var e2 := e1 + [LaunchSidecar(1)];
    PlayOneMore(Fresh(n), e0, Boot(1));
    PlayOneMore(Fresh(n), e1, LaunchSidecar(1));
    var c0, c1 := Play(Fresh(n), e0), Play(Fresh(n), e1);
    assert c1.pods[1] == c0.pods[1].(up := true, replicating := false);
    var c := Play(Fresh(n), e2);
    assert c.pods[1] == c1.pods[1].(sidecar := Check);
    NineCommands(c.pods[1]);
    var commands := seq(9, _ => Command(1));
    CommandsPlay(c, 1, 9);
    PlayAppend(Fresh(n), e2, commands);
    PlayOneMore(Fresh(n), e2 + commands, CrashSidecar(1));
    events := e2 + commands + [CrashSidecar(1)];
  }

  /** So is the empty change file: the sidecar is killed between creating and writing it. */
  lemma EmptyFileCanStick(n: nat) returns (events: seq<Event>)
    requires n >= 2
    ensures var c := Play(Fresh(n), events);
            1 < |c.pods| && c.pods[1].seeded && Stuck(c.pods[1]) && c.pods[1].change.EmptyFile? && !Knows(c.pods[1])
  {
    hide Play, Commands;
    var e0 := FirstClone(n);
    var e1 := e0 + [LaunchSidecar(1)];
    PlayOneMore(Fresh(n), e0, LaunchSidecar(1));
    var c := Play(Fresh(n), e1);
    FourIntoBinlog(c.pods[1]);
    var commands := seq(4, _ => Command(1));
    CommandsPlay(c, 1, 4);
    PlayAppend(Fresh(n), e1, commands);
    PlayOneMore(Fresh(n), e1 + commands, CrashSidecar(1));
    events := e1 + commands + [CrashSidecar(1)];
  }

  lemma FourIntoBinlog(p: Pod)
    requires p.sidecar.Check? && !p.slaveInfo.SlavePos? && p.binlogInfo.Some?
    ensures Commands(p, 4) == p.(slaveInfo := NoSlaveInfo, binlogInfo := None, change := EmptyFile,
                                 sidecar := EchoWrite(p.binlogInfo.value))
  {
    var p2 := RunCommand(RunCommand(p));
    assert Commands(p, 4) == Commands(p2, 2);
  }

  lemma ThreeCommands(p: Pod)
    requires p.sidecar.TestChange? && p.change.ChangeTo? && p.up && !p.replicating
    ensures Commands(p, 3) == p.(channel := Some(p.change.pos), sidecar := StartSlave)
  {
    assert Commands(p, 3) == RunCommand(RunCommand(RunCommand(p)));
  }

  /** A clone whose channel is configured and not yet started. */
  lemma BeforeStart(n: nat) returns (events: seq<Event>)
    requires n >= 2
    ensures var c := Play(Fresh(n), events);
            1 < |c.pods| && c.pods[1].seeded && c.pods[1].up && !c.pods[1].replicating && c.pods[1].channel.Some?
            && c.pods[1].sidecar.StartSlave? && c.pods[1].change.ChangeTo? && InputsGone(c.pods[1])
  {
    hide Play, Commands;
    var e0 := FirstClone(n);
    var e1 := e0 + [Boot(1)];
    var e2 := e1 + [LaunchSidecar(1)];
    PlayOneMore(Fresh(n), e0, Boot(1));
    PlayOneMore(Fresh(n), e1, LaunchSidecar(1));
    var c := Play(Fresh(n), e2);
    assert c.pods[1] == Play(Fresh(n), e0).pods[1].(up := true, replicating := false, sidecar := Check);
    InputPrepares(c.pods[1]);
    ThreeCommands(Prepared(c.pods[1]));
    CommandsAdd(c.pods[1], 5, 3);
    var commands := seq(8, _ => Command(1));
    CommandsPlay(c, 1, 8);
    PlayAppend(Fresh(n), e2, commands);
    events := e2 + commands;
  }

  /** The last event of this run brings the second pod into that state. */
  predicate SticksLast(n: nat, events: seq<Event>, last: Event) {
    events != [] && events[|events| - 1] == last &&
    var before, after := Play(Fresh(n), events[..|events| - 1]).pods, Play(Fresh(n), events).pods;
    1 < |before| && !Stuck(before[1]) && 1 < |after| && after[1].seeded && Stuck(after[1])
  }

  /** The remaining ways into it are reached as well: before START SLAVE the server crashes and the script goes on; or
      the sidecar is killed there, and later the server crashes, or is restarted. */
  lemma ServerCanStick(n: nat) returns (a: seq<Event>, b: seq<Event>, d: seq<Event>)
    requires n >= 2
    ensures SticksLast(n, a, Command(1)) && SticksLast(n, b, CrashServer(1)) && SticksLast(n, d, Boot(1))
  {
    hide Play;
    var e := BeforeStart(n);
    PlayOneMore(Fresh(n), e, CrashServer(1));
    PlayOneMore(Fresh(n), e + [CrashServer(1)], Command(1));
    PlayOneMore(Fresh(n), e, CrashSidecar(1));
    PlayOneMore(Fresh(n), e + [CrashSidecar(1)], CrashServer(1));
    PlayOneMore(Fresh(n), e + [CrashSidecar(1)], Boot(1));
    a := e + [CrashServer(1)] + [Command(1)];
    b := e + [CrashSidecar(1)] + [CrashServer(1)];
    d := e + [CrashSidecar(1)] + [Boot(1)];
    assert a[..|a| - 1] == e + [CrashServer(1)] && b[..|b| - 1] == e + [CrashSidecar(1)];
    assert d[..|d| - 1] == e + [CrashSidecar(1)];
  }

  // ---------------------------------------------------------------- one pod, its script and its server

  /** What can happen to a pod while its script is under way. */
  datatype PodEvent = Ran | Crashed | Booted | Applied(txn: Txn)

  function PodStep(p: Pod, e: PodEvent): Pod {
    match e
    case Ran => RunCommand(p)
    case Crashed => p.(up := false, replicating := false)
    case Booted => p.(up := true, replicating := p.channel.Some?)
    case Applied(t) =>
      if p.replicating && p.channel.Some? then p.(data := p.data + [t], channel := Some(p.channel.value + 1)) else p
  }

  function PodRun(p: Pod, events: seq<PodEvent>): Pod {
    if events == [] then p else PodStep(PodRun(p, events[..|events| - 1]), events[|events| - 1])
  }

  lemma PodRunMore(p: Pod, events: seq<PodEvent>, e: PodEvent)
    ensures PodRun(p, events + [e]) == PodStep(PodRun(p, events), e)
  {
    assert (events + [e])[..|events + [e]| - 1] == events;
  }

  function ClusterEvent(i: nat, e: PodEvent): Event {
    match e
    case Ran => Command(i)
    case Crashed => CrashServer(i)
    case Booted => Boot(i)
    case Applied(_) => Replicate(i)
  }

  function ClusterEvents(i: nat, events: seq<PodEvent>): (r: seq<Event>)
    ensures |r| == |events|
  {
    seq(|events|, n requires 0 <= n < |events| => ClusterEvent(i, events[n]))
  }

  /** Whatever the server applies is what the primary's log has next. */
  ghost predicate FollowsLog(c: Cluster, i: nat, events: seq<PodEvent>) {
    events != [] ==>
      var init, e := events[..|events| - 1], events[|events| - 1];
      var d := Play(c, ClusterEvents(i, init));
      && FollowsLog(c, i, init)
      && (e.Applied? ==> Possible(d, Replicate(i)) && e.txn == d.log[d.pods[i].channel.value])
  }

  lemma PodStepIsEvent(c: Cluster, i: nat, e: PodEvent)
    requires i < |c.pods| && c.pods[i].seeded
    requires e.Applied? ==> Possible(c, Replicate(i)) && e.txn == c.log[c.pods[i].channel.value]
    ensures var d := Next(c, ClusterEvent(i, e));
            |d.pods| == |c.pods| && d.pods[i].seeded && d.pods[i] == PodStep(c.pods[i], e)
  {
  }

  /** Then what happens to the pod is what those events of the cluster do to it. */
  lemma {:induction false} PodRunIsPlay(c: Cluster, i: nat, events: seq<PodEvent>)
    requires i < |c.pods| && c.pods[i].seeded && FollowsLog(c, i, events)
    ensures var d := Play(c, ClusterEvents(i, events));
            |d.pods| == |c.pods| && d.pods[i].seeded && d.pods[i] == PodRun(c.pods[i], events)
  {
    hide Next, PodStep, ClusterEvent;
    if events != [] {
      var init, e := events[..|events| - 1], events[|events| - 1];
      PodRunIsPlay(c, i, init);
      assert ClusterEvents(i, events) == ClusterEvents(i, init) + [ClusterEvent(i, e)];
      PlayOneMore(c, ClusterEvents(i, init), ClusterEvent(i, e));
      PodStepIsEvent(Play(c, ClusterEvents(i, init)), i, e);
    }
  }

  /** How many commands of the script are among the events. */
  function Rans(events: seq<PodEvent>): nat {
    if events == [] then 0 else Rans(events[..|events| - 1]) + if events[|events| - 1].Ran? then 1 else 0
  }

  lemma RansMore(events: seq<PodEvent>, e: PodEvent)
    ensures Rans(events + [e]) == Rans(events) + if e.Ran? then 1 else 0
  {
    assert (events + [e])[..|events + [e]| - 1] == events;
  }
}
