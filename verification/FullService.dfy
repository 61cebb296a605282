/** When a cluster can be brought to full service: every pod up, serving clones, replicating, and with all of the
    primary's data. From a new StatefulSet it always can. */
module FullService {
  import opened Names
  import opened Replication
  import opened Recovery

  // ---------------------------------------------------------------- events that concern one pod

  /** These events concern this pod only, and none kills its sidecar. */
  ghost predicate About(events: seq<Event>, i: nat) {
    forall e :: e in events ==> !e.Commit? && !e.CrashSidecar? && e.pod == i
  }

  lemma AboutJoin(a: seq<Event>, b: seq<Event>, i: nat)
    requires About(a, i) && About(b, i)
    ensures About(a + b, i)
  {
  }

  /** They leave the log and every other pod as they are. */
  lemma {:induction false} OthersStay(c: Cluster, events: seq<Event>, i: nat)
    requires About(events, i) && i < |c.pods|
    ensures var d := Play(c, events);
            d.log == c.log && |d.pods| == |c.pods| && d == c.(pods := c.pods[i := d.pods[i]])
  {
    if events != [] {
      var init, e := events[..|events| - 1], events[|events| - 1];
      assert e in events && forall x :: x in init ==> x in events;
      OthersStay(c, init, i);
      hide After, RunCommand;
      var d := Play(c, init);
      assert Next(d, e) == d.(pods := d.pods[i := Next(d, e).pods[i]]);
    }
  }

  /** A replica that can still be brought to serve: it has its data and its position, and is not stuck. */
  predicate Fit(p: Pod) {
    p.seeded && Knows(p) && !Stuck(p)
  }

  lemma StepStaysFit(c: Cluster, e: Event, i: nat)
    requires Consistent(c) && 0 < i < |c.pods| && Fit(c.pods[i]) && !e.Commit? && e.pod == i
    requires e.Command? || e.LaunchSidecar? || e.Replicate? || e.Boot?
    requires e.Command? ==> c.pods[i].up
    requires e.Boot? ==> !c.pods[i].up || c.pods[i].sidecar.Serving?
    ensures i < |Next(c, e).pods| && Fit(Next(c, e).pods[i])
  {
    if Possible(c, e) {
      assert PodOK(c, i);
      LosesExactlyInWindow(c, e, i);
      SticksExactly(c, e, i);
      StaysSeeded(c, e, i);
    }
  }

  lemma StaysSeeded(c: Cluster, e: Event, i: nat)
    requires i < |c.pods| && c.pods[i].seeded
    ensures i < |Next(c, e).pods| && Next(c, e).pods[i].seeded
  {
  }

  // ---------------------------------------------------------------- one replica

  /** How many commands the script is from serving, or from its end, at most. */
  function Left(s: Sidecar): nat {
    match s
    case Check => 12
    case CatOpen => 11
    case CatWrite => 10
    case RemoveSlave => 9
    case RemoveRest => 8
    case RemoveBinlog(_) => 11
    case RemoveEmpty(_) => 10
    case EchoOpen(_) => 9
    case EchoWrite(_) => 8
    case TestChange => 7
    case AwaitServer => 6
    case ChangeMaster => 5
    case StartSlave => 4
    case Move => 3
    case _ => 0
  }

  lemma CommandAdvances(p: Pod)
    requires p.up && !p.sidecar.Serving? && !p.sidecar.Down?
    ensures RunCommand(p).up && Left(RunCommand(p).sidecar) < Left(p.sidecar)
  {
  }

  /** With its server up, the script runs until it serves or its container ends. */
  lemma {:induction false} RunsOut(c: Cluster, i: nat) returns (events: seq<Event>)
    requires Consistent(c) && 0 < i < |c.pods| && Fit(c.pods[i]) && c.pods[i].up
    ensures About(events, i)
    ensures var d := Play(c, events);
            Consistent(d) && |d.pods| == |c.pods| && Fit(d.pods[i]) && d.pods[i].up
            && (d.pods[i].sidecar.Serving? || d.pods[i].sidecar.Down?)
    decreases Left(c.pods[i].sidecar)
  {
    hide Fit, Consistent, RunCommand, Left;
    if c.pods[i].sidecar.Serving? || c.pods[i].sidecar.Down? {
      events := [];
    } else {
      var d := Next(c, Command(i));
      CommandAdvances(c.pods[i]);
      StepStaysFit(c, Command(i), i);
      NextConsistent(c, Command(i));
      assert d.pods[i] == RunCommand(c.pods[i]);
      var rest := RunsOut(d, i);
      PlayFirst(c, Command(i), rest);
      events := [Command(i)] + rest;
    }
  }

  lemma PlayFirst(c: Cluster, e: Event, rest: seq<Event>)
    ensures Play(c, [e] + rest) == Play(Next(c, e), rest)
  {
    hide Next;
    PlayAppend(c, [e], rest);
    assert [e][..0] == [] && Play(c, [e][..0]) == c;
  }

  /** A sidecar that is launched again gets to serve. */
  lemma Relaunch(c: Cluster, i: nat) returns (events: seq<Event>)
    requires Consistent(c) && 0 < i < |c.pods| && Fit(c.pods[i]) && c.pods[i].up && c.pods[i].sidecar.Down?
    ensures About(events, i)
    ensures var d := Play(c, events); |d.pods| == |c.pods| && d.pods[i].sidecar.Serving?
  {
    hide Play, Commands;
    assert PodOK(c, i);
    ServesExactly(c.log, c.pods[i]);
    var d := Next(c, LaunchSidecar(i));
    CommandsPlay(d, i, 10);
    PlayFirst(c, LaunchSidecar(i), seq(10, _ => Command(i)));
    events := [LaunchSidecar(i)] + seq(10, _ => Command(i));
  }

  /** Only the death of the sidecar loses a position. */
  lemma {:induction false} KeepsPosition(c: Cluster, events: seq<Event>, i: nat)
    requires About(events, i) && Consistent(c) && 0 < i < |c.pods| && c.pods[i].seeded && Knows(c.pods[i])
    ensures i < |Play(c, events).pods| && Play(c, events).pods[i].seeded && Knows(Play(c, events).pods[i])
  {
    hide Next, Knows, Window;
    if events != [] {
      var init, e := events[..|events| - 1], events[|events| - 1];
      assert e in events && forall x :: x in init ==> x in events;
      KeepsPosition(c, init, i);
      PlayConsistent(c, init);
      StillPositioned(Play(c, init), e, i);
    }
  }

  lemma StillPositioned(c: Cluster, e: Event, i: nat)
    requires Consistent(c) && 0 < i < |c.pods| && c.pods[i].seeded && Knows(c.pods[i])
    requires !e.Commit? && !e.CrashSidecar? && e.pod == i
    ensures i < |Next(c, e).pods| && Next(c, e).pods[i].seeded && Knows(Next(c, e).pods[i])
  {
    if Possible(c, e) {
      hide Consistent, Knows;
      LosesExactlyInWindow(c, e, i);
      StaysSeeded(c, e, i);
    }
  }

  /** The pod is up, serves clones, replicates, and has all of the log; the primary has it without replicating. */
  predicate InService(log: seq<Txn>, p: Pod, primary: bool) {
    p.seeded && p.up && p.sidecar.Serving? && p.data == log && (!primary ==> p.replicating && p.channel == Some(|log|))
  }

  /** A serving replica whose server is started anew replicates. */
  lemma Replicates(c: Cluster, i: nat) returns (events: seq<Event>)
    requires Consistent(c) && 0 < i < |c.pods| && c.pods[i].seeded && Knows(c.pods[i]) && c.pods[i].sidecar.Serving?
    ensures About(events, i)
    ensures var d := Play(c, events);
            |d.pods| == |c.pods| && d.pods[i].seeded && d.pods[i].up && d.pods[i].sidecar.Serving?
            && d.pods[i].replicating && d.pods[i].channel.Some?
  {
    assert PodOK(c, i);
    events := [Boot(i)];
    PlayNothing(c);
    PlayFirst(c, Boot(i), []);
    assert [Boot(i)] + [] == [Boot(i)];
  }

  /** And it applies what it has not applied yet. */
  lemma {:induction false} CatchesUp(c: Cluster, i: nat) returns (events: seq<Event>)
    requires Consistent(c) && 0 < i < |c.pods| && c.pods[0].up && c.pods[i].seeded && c.pods[i].up
    requires c.pods[i].sidecar.Serving? && c.pods[i].replicating && c.pods[i].channel.Some?
    ensures About(events, i)
    ensures var d := Play(c, events); |d.pods| == |c.pods| && InService(c.log, d.pods[i], false)
    decreases |c.log| - |c.pods[i].data|
  {
    hide Consistent, Play;
    assert PodOK(c, i) by { EachOK(c, i); }
    if |c.pods[i].data| == |c.log| {
      events := [];
      PlayNothing(c);
    } else {
      var d := Next(c, Replicate(i));
      NextConsistent(c, Replicate(i));
      var rest := CatchesUp(d, i);
      PlayFirst(c, Replicate(i), rest);
      events := [Replicate(i)] + rest;
    }
  }

  lemma EachOK(c: Cluster, i: nat)
    requires Consistent(c) && i < |c.pods|
    ensures PodOK(c, i)
  {
  }

  /** A replica that is fit is brought into service, and nothing else is touched. */
  lemma Bring(c: Cluster, i: nat) returns (events: seq<Event>)
    requires Consistent(c) && 0 < i < |c.pods| && c.pods[0].up && Fit(c.pods[i])
    ensures About(events, i)
    ensures var d := Play(c, events);
            Consistent(d) && |d.pods| == |c.pods| && d == c.(pods := c.pods[i := d.pods[i]])
            && InService(d.log, d.pods[i], false)
  {
    hide Consistent, Play, Fit, InService, Knows;
    FitHas(c.pods[i]);
    var e0 := if c.pods[i].up then [] else [Boot(i)];
    var c0 := Play(c, e0);
    GetsUp(c, i);
    var e1 := RunsOut(c0, i);
    var c1 := Play(c0, e1);
    FitHas(c1.pods[i]);
    var e2: seq<Event> := [];
    if c1.pods[i].sidecar.Down? {
      e2 := Relaunch(c1, i);
    } else {
      PlayNothing(c1);
    }
    KeepsPosition(c1, e2, i);
    PlayConsistent(c1, e2);
    var e3 := Replicates(Play(c1, e2), i);
    PlayAppend(c, e0, e1);
    PlayAppend(c, e0 + e1, e2);
    PlayAppend(c, e0 + e1 + e2, e3);
    AboutJoin(e0, e1, i);
    AboutJoin(e0 + e1, e2, i);
    AboutJoin(e0 + e1 + e2, e3, i);
    var early := e0 + e1 + e2 + e3;
    PlayConsistent(c, early);
    OthersStay(c, early, i);
    var e4 := CatchesUp(Play(c, early), i);
    PlayAppend(c, early, e4);
    AboutJoin(early, e4, i);
    events := early + e4;
    PlayConsistent(c, events);
    OthersStay(c, events, i);
  }

  lemma FitHas(p: Pod)
    requires Fit(p)
    ensures p.seeded && Knows(p)
  {
  }

  lemma GetsUp(c: Cluster, i: nat)
    requires Consistent(c) && 0 < i < |c.pods| && Fit(c.pods[i])
    ensures var events := if c.pods[i].up then [] else [Boot(i)]; var d := Play(c, events);
            && About(events, i) && Consistent(d) && |d.pods| == |c.pods| && Fit(d.pods[i]) && d.pods[i].up
  {
    hide Consistent, Fit, Play;
    PlayNothing(c);
    if !c.pods[i].up {
      PlayFirst(c, Boot(i), []);
      assert [Boot(i)] + [] == [Boot(i)];
      PlayNothing(Next(c, Boot(i)));
      FitHas(c.pods[i]);
      NextConsistent(c, Boot(i));
      StepStaysFit(c, Boot(i), i);
    }
  }

  // ---------------------------------------------------------------- the primary, and a pod without data

  lemma BringPrimary(c: Cluster) returns (events: seq<Event>)
    requires Consistent(c) && c.pods != []
    ensures About(events, 0)
    ensures var d := Play(c, events);
            Consistent(d) && |d.pods| == |c.pods| && d == c.(pods := c.pods[0 := d.pods[0]])
            && InService(d.log, d.pods[0], true)
  {
    hide Consistent, Play, Commands, RunCommand;
    EachOK(c, 0);
    var launch := if c.pods[0].sidecar.Down? then [LaunchSidecar(0)] else [];
    var c2 := Play(c, [Boot(0)] + launch);
    PrimaryStarts(c);
    PrimaryServes(c2.pods[0]);
    var commands := seq(2, _ => Command(0));
    CommandsPlay(c2, 0, 2);
    PlayAppend(c, [Boot(0)] + launch, commands);
    events := [Boot(0)] + launch + commands;
    PlayConsistent(c, events);
    OthersStay(c, events, 0);
    EachOK(Play(c, events), 0);
  }

  /** The primary is started, and its sidecar if that is down. */
  lemma PrimaryStarts(c: Cluster)
    requires c.pods != []
    ensures var p := c.pods[0];
            Play(c, [Boot(0)] + if p.sidecar.Down? then [LaunchSidecar(0)] else []) ==
              c.(pods := c.pods[0 := p.(seeded := true, up := true, replicating := p.channel.Some?,
                                        sidecar := if p.sidecar.Down? then Check else p.sidecar)])
  {
    hide Play, RunCommand;
    var launch := if c.pods[0].sidecar.Down? then [LaunchSidecar(0)] else [];
    PlayFirst(c, Boot(0), launch);
    PlayFirst(Next(c, Boot(0)), LaunchSidecar(0), []);
    assert [LaunchSidecar(0)] + [] == [LaunchSidecar(0)];
    PlayNothing(Next(c, Boot(0)));
    PlayNothing(Next(Next(c, Boot(0)), LaunchSidecar(0)));
  }

  lemma PrimaryServes(p: Pod)
    requires p.sidecar.Check? || p.sidecar.TestChange? || p.sidecar.Serving?
    requires !p.slaveInfo.SlavePos? && p.binlogInfo.None? && p.change.NoFile?
    ensures Commands(p, 2) == p.(sidecar := Serving)
  {
    assert Commands(p, 2) == RunCommand(RunCommand(p));
  }

  /** A pod without a data directory clones its predecessor, and is fit. */
  lemma CloneIsFit(c: Cluster, i: nat)
    requires Consistent(c) && 0 < i < |c.pods| && !c.pods[i].seeded && InService(c.log, c.pods[i - 1], i == 1)
    ensures var d := Next(c, Clone(i, false));
            Consistent(d) && |d.pods| == |c.pods| && d == c.(pods := c.pods[i := d.pods[i]]) && Fit(d.pods[i])
  {
    EachOK(c, i - 1);
    NextConsistent(c, Clone(i, false));
  }

  // ---------------------------------------------------------------- theorems

  /** Every pod is in service. */
  ghost predicate FullyInService(c: Cluster) {
    forall i :: 0 <= i < |c.pods| ==> InService(c.log, c.pods[i], i == 0)
  }

  /** The first n pods are in service, and no other replica with data has become unfit. */
  ghost predicate UpTo(c: Cluster, n: nat) {
    && Consistent(c) && n <= |c.pods|
    && (forall i :: 0 <= i < n ==> InService(c.log, c.pods[i], i == 0))
    && (forall i :: 0 < i < |c.pods| && c.pods[i].seeded ==> Fit(c.pods[i]))
  }

  lemma OneMore(c: Cluster, n: nat) returns (events: seq<Event>)
    requires UpTo(c, n) && n < |c.pods|
    ensures var d := Play(c, events); d.log == c.log && |d.pods| == |c.pods| && UpTo(d, n + 1)
  {
    hide Consistent, Play, Fit, InService;
    if n == 0 {
      events := BringPrimary(c);
    } else {
      var clone: seq<Event> := if c.pods[n].seeded then [] else [Clone(n, false)];
      PlayNothing(c);
      if !c.pods[n].seeded {
        CloneIsFit(c, n);
        PlayFirst(c, Clone(n, false), []);
        assert [Clone(n, false)] + [] == [Clone(n, false)];
        PlayNothing(Next(c, Clone(n, false)));
      }
      var c1 := Play(c, clone);
      PrimaryIsUp(c1);
      var rest := Bring(c1, n);
      PlayAppend(c, clone, rest);
      events := clone + rest;
    }
    StillFit(Play(c, events), n);
  }

  lemma PrimaryIsUp(c: Cluster)
    requires c.pods != [] && InService(c.log, c.pods[0], true)
    ensures c.pods[0].up
  {
  }

  /** A replica in service is fit. */
  lemma StillFit(c: Cluster, n: nat)
    requires n < |c.pods| && InService(c.log, c.pods[n], n == 0)
    ensures n > 0 ==> Fit(c.pods[n])
  {
  }

  lemma {:induction false} AllTheRest(c: Cluster, n: nat) returns (events: seq<Event>)
    requires UpTo(c, n)
    ensures var d := Play(c, events); d.log == c.log && |d.pods| == |c.pods| && FullyInService(d)
    decreases |c.pods| - n
  {
    hide Consistent, Play, Fit, InService;
    if n == |c.pods| {
      events := [];
      PlayNothing(c);
    } else {
      var first := OneMore(c, n);
      var rest := AllTheRest(Play(c, first), n + 1);
      PlayAppend(c, first, rest);
      events := first + rest;
    }
  }

  /** Whatever has happened before, a cluster can be brought to full service if and only if every replica with data
      has its position somewhere and none is stuck; and then without a further transaction. */
  lemma ServiceExactly(c: Cluster)
    requires Consistent(c)
    ensures (forall i :: 0 < i < |c.pods| && c.pods[i].seeded ==> Knows(c.pods[i]) && !Stuck(c.pods[i])) <==>
              exists events :: FullyInService(Play(c, events))
  {
    hide Consistent, Play, Knows, Stuck, InService;
    if forall i :: 0 < i < |c.pods| && c.pods[i].seeded ==> Knows(c.pods[i]) && !Stuck(c.pods[i]) {
      var events := AllTheRest(c, 0);
    }
    if events :| FullyInService(Play(c, events)) {
      forall i | 0 < i < |c.pods| && c.pods[i].seeded ensures Knows(c.pods[i]) && !Stuck(c.pods[i]) {
        if !Knows(c.pods[i]) {
          LostForever(c, events, i);
        } else if Stuck(c.pods[i]) {
          StuckForever(c, events, i);
        }
        SizeStays(c, events);
        ServesWithPosition(Play(c, events), i);
      }
    }
  }

  lemma {:induction false} SizeStays(c: Cluster, events: seq<Event>)
    ensures |Play(c, events).pods| == |c.pods|
  {
    if events != [] {
      SizeStays(c, events[..|events| - 1]);
    }
  }

  lemma ServesWithPosition(c: Cluster, i: nat)
    requires 0 < i < |c.pods| && InService(c.log, c.pods[i], false)
    ensures Knows(c.pods[i]) && c.pods[i].sidecar.Serving?
  {
  }

  lemma {:induction false} Commits(c: Cluster, txns: seq<Txn>) returns (events: seq<Event>)
    requires c.pods != [] && c.pods[0].up && c.pods[0].data == c.log
    ensures var d := Play(c, events);
            d.log == c.log + txns && |d.pods| == |c.pods| && d.pods == c.pods[0 := d.pods[0]]
            && d.pods[0].seeded == c.pods[0].seeded
  {
    hide Play;
    events := [];
    PlayNothing(c);
    for n := 0 to |txns|
      invariant var d := Play(c, events);
                d.log == c.log + txns[..n] && |d.pods| == |c.pods| && d.pods == c.pods[0 := d.pods[0]] && d.pods[0].up
                && d.pods[0].seeded == c.pods[0].seeded
    {
      PlayOneMore(c, events, Commit(txns[n]));
      events := events + [Commit(txns[n])];
      assert txns[..n + 1] == txns[..n] + [txns[n]];
    }
    assert txns[..|txns|] == txns;
  }

  /** A new StatefulSet, with any number of pods: whatever transactions come before the clones are made and whatever
      ones after, every pod can be brought to serve, each replica cloned from the one before it, with its channel at
      the end of the log and with all of the data. */
  lemma StatefulSetComesUp(n: nat, before: seq<Txn>, after: seq<Txn>) returns (events: seq<Event>)
    requires n > 0
    ensures var c := Play(Fresh(n), events);
            && c.log == before + after && |c.pods| == n
            && forall i :: 0 <= i < n ==>
                 var p := c.pods[i];
                 && p.seeded && p.up && p.sidecar.Serving? && p.data == c.log
                 && (i > 0 ==> p.replicating && p.channel == Some(|c.log|))
  {
    hide Play, Consistent;
    var c0 := Fresh(n);
    PlayNothing(c0);
    PlayFirst(c0, Boot(0), []);
    assert [Boot(0)] + [] == [Boot(0)];
    PlayNothing(Next(c0, Boot(0)));
    var c1 := Play(c0, [Boot(0)]);
    var e1 := Commits(c1, before);
    PlayAppend(c0, [Boot(0)], e1);
    var h1 := [Boot(0)] + e1;
    FreshConsistent(n);
    PlayConsistent(c0, h1);
    var e2 := AllTheRest(Play(c0, h1), 0);
    PlayAppend(c0, h1, e2);
    var h2 := h1 + e2;
    PlayConsistent(c0, h2);
    PrimaryHasLog(Play(c0, h2));
    var e3 := Commits(Play(c0, h2), after);
    PlayAppend(c0, h2, e3);
    var h3 := h2 + e3;
    PlayConsistent(c0, h3);
    ReplicasFit(Play(c0, h2), Play(c0, h3));
    var e4 := AllTheRest(Play(c0, h3), 0);
    PlayAppend(c0, h3, e4);
    events := h3 + e4;
  }

  lemma FreshConsistent(n: nat)
    ensures Consistent(Fresh(n))
  {
  }

  lemma PrimaryHasLog(c: Cluster)
    requires FullyInService(c) && c.pods != []
    ensures c.pods[0].up && c.pods[0].data == c.log
  {
  }

  /** Commits leave the replicas as they are. */
  lemma ReplicasFit(c: Cluster, d: Cluster)
    requires FullyInService(c) && Consistent(d) && c.pods != [] && |d.pods| == |c.pods| && d.pods == c.pods[0 := d.pods[0]]
    ensures UpTo(d, 0)
  {
    hide Consistent;
    forall i | 0 < i < |d.pods| ensures Fit(d.pods[i]) {
      StillFit(c, i);
    }
  }
}
