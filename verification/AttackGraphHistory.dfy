/**
 The graph against the bare history of events: which network events get an edge of their own,
 which are merged, which are lost, and which library loads they are tied to.
 */
module AttackGraphHistory {
  import opened Wrappers
  import opened NodeIdentity
  import opened AttackGraph
  import opened AttackGraphRuns

  // ---- deduplication, from the history alone ----------------------------------------------

  datatype Recorded = Recorded(pid: nat, event: NetEvent)

  predicate RecordedOn(r: Recorded, pid: nat, port: nat) { r.pid == pid && r.event.dport == port }

  /** Time of the last recorded event of a process and port: the anchor of its window. */
  function Anchor(recorded: seq<Recorded>, pid: nat, port: nat): Option<nat> {
    if recorded == [] then None
    else
      var r := recorded[|recorded| - 1];
      if RecordedOn(r, pid, port) then Some(r.event.timestampNs)
      else Anchor(recorded[..|recorded| - 1], pid, port)
  }

  /** An event collapses when it falls inside the window of its anchor. Collapsed events never move the anchor. */
  predicate InWindow(env: Environment, recorded: seq<Recorded>, pid: nat, event: NetEvent) {
    env.config.dedupEnabled &&
    match Anchor(recorded, pid, event.dport)
    case None => false
    case Some(t) =>
      t < event.timestampNs &&
      event.timestampNs - t < env.config.networkWindowSecs * 1_000_000_000 % TWO_TO_64
  }

  /** The events that get an edge of their own, in order. */
  function RecordedEvents(env: Environment, ops: seq<Op>): seq<Recorded> {
    if ops == [] then []
    else
      var before := RecordedEvents(env, ops[..|ops| - 1]);
      match ops[|ops| - 1]
      case Net(pid, _, _, event) =>
        if InWindow(env, before, pid, event) then before else before + [Recorded(pid, event)]
      case _ => before
  }

  ghost predicate AnchorsAgree(g: Graph, recorded: seq<Recorded>) {
    forall pid: nat, port: nat ::
      match Anchor(recorded, pid, port) {
        case None => (pid, port) !in g.lastNetwork
        case Some(t) => (pid, port) in g.lastNetwork && g.lastNetwork[(pid, port)] == t
      }
  }

  lemma StepKeepsAnchors(env: Environment, g: Graph, op: Op, recorded: seq<Recorded>)
    requires Sound(env) && AnchorsAgree(g, recorded)
    ensures AnchorsAgree(Step(env, g, op),
      if op.Net? && !InWindow(env, recorded, op.pid, op.event) then recorded + [Recorded(op.pid, op.event)]
      else recorded)
    ensures op.Net? ==> Collapses(env, g, op.pid, op.event) == InWindow(env, recorded, op.pid, op.event)
  {
    if op.Net? {
      StepMovesAnchor(env, g, op);
      forall pid: nat, port: nat { AnchorOneMore(recorded, Recorded(op.pid, op.event), pid, port); }
    }
  }

  lemma AnchorOneMore(recorded: seq<Recorded>, r: Recorded, pid: nat, port: nat)
    ensures Anchor(recorded + [r], pid, port) ==
      if RecordedOn(r, pid, port) then Some(r.event.timestampNs) else Anchor(recorded, pid, port)
  {
    assert (recorded + [r])[..|recorded|] == recorded;
  }

  lemma StepMovesAnchor(env: Environment, g: Graph, op: Op)
    requires Sound(env) && op.Net?
    ensures Step(env, g, op).lastNetwork ==
      if Collapses(env, g, op.pid, op.event) then g.lastNetwork
      else g.lastNetwork[(op.pid, op.event.dport) := op.event.timestampNs]
  {
  }

  lemma {:induction false} AnchorsAlwaysAgree(env: Environment, ops: seq<Op>)
    requires Sound(env)
    ensures AnchorsAgree(After(env, ops), RecordedEvents(env, ops))
  {
    if ops != [] {
      AnchorsAlwaysAgree(env, ops[..|ops| - 1]);
      StepKeepsAnchors(env, After(env, ops[..|ops| - 1]), ops[|ops| - 1], RecordedEvents(env, ops[..|ops| - 1]));
    }
  }

  /** The graph's decision to collapse an event is the history's. */
  lemma CollapsesIsInWindow(env: Environment, ops: seq<Op>, pid: nat, event: NetEvent)
    requires Sound(env)
    ensures Collapses(env, After(env, ops), pid, event) <==> InWindow(env, RecordedEvents(env, ops), pid, event)
  {
    AnchorsAlwaysAgree(env, ops);
  }

  // ---- connections are exactly the recorded events ----------------------------------------

  ghost function Recordings(s: Selector, recorded: seq<Recorded>): nat {
    if recorded == [] then 0
    else
      var r := recorded[|recorded| - 1];
      Recordings(s, recorded[..|recorded| - 1]) + if Selects(s, ProcId(r.pid), Destination(r.event)) then 1 else 0
  }

  lemma RecordingsOneMore(s: Selector, recorded: seq<Recorded>, r: Recorded)
    ensures Recordings(s, recorded + [r]) ==
      Recordings(s, recorded) + if Selects(s, ProcId(r.pid), Destination(r.event)) then 1 else 0
  {
    assert (recorded + [r])[..|recorded|] == recorded;
  }

  /** How one operation changes a measure. */
  ghost function Increment(m: Measure, s: Selector, env: Environment, g: Graph, op: Op): nat {
    match op
    case Load(pid, _, _, path, t) => Weigh(m, s, ProcId(pid), LibId(path), LibraryLoaded(t, 1.0))
    case Net(pid, _, _, event) =>
      if !Collapses(env, g, pid, event) then
        Weigh(m, s, ProcId(pid), Destination(event), Connection(env.config, event))
        + Sum(m, s, AttemptViews(env.config, LoadsOf(g, pid), event))
      else if MergeTarget(env, g, pid, event).None? then 0
      else Gain(m, s, EdgeUpdated(ProcId(pid), Destination(event), event.dataSize))
    case _ => 0
  }

  lemma NetSum(m: Measure, s: Selector, env: Environment, g: Graph, pid: nat, name: string, cgroupId: nat,
               event: NetEvent)
    requires Sound(env) && WellFormed(g)
    ensures var g' := ProcessNetworkEvent(env, g, pid, name, cgroupId, event);
      WellFormed(g') &&
        Sum(m, s, View(g')) == Sum(m, s, View(g)) + Increment(m, s, env, g, Net(pid, name, cgroupId, event))
  {
    if Collapses(env, g, pid, event) {
      AggregateSum(m, s, env, g, pid, event);
      BumpKeeps(AggregateNetworkEvent(env, g, pid, event));
    } else {
      RecordSum(m, s, env.config, g, pid, name, cgroupId, event);
    }
  }

  lemma StepSum(m: Measure, s: Selector, env: Environment, g: Graph, op: Op)
    requires Sound(env) && WellFormed(g)
    ensures WellFormed(Step(env, g, op))
    ensures Sum(m, s, View(Step(env, g, op))) == Sum(m, s, View(g)) + Increment(m, s, env, g, op)
  {
    match op
    case Load(pid, name, cgroupId, path, t) => LoadSum(m, s, g, pid, name, cgroupId, path, t);
    case Net(pid, name, cgroupId, event) => NetSum(m, s, env, g, pid, name, cgroupId, event);
    case Associate(cveId, package, cvss, epss, kev) => AssociateSum(m, s, env, g, cveId, package, cvss, epss, kev);
    case Drain => DrainKeeps(g);
  }

  lemma ConnectionIncrement(s: Selector, env: Environment, g: Graph, op: Op)
    requires Sound(env)
    ensures Increment(ConnectionCount, s, env, g, op) ==
      if op.Net? && !Collapses(env, g, op.pid, op.event) && Selects(s, ProcId(op.pid), Destination(op.event))
      then 1 else 0
  {
    if op.Net? { AttemptsWeighNothing(ConnectionCount, s, env.config, LoadsOf(g, op.pid), op.event); }
  }

  /** One NetworkConnection edge per recorded event: for each pair of ends, each port, and in all. */
  lemma {:induction false} ConnectionsAreRecordings(env: Environment, ops: seq<Op>, s: Selector)
    requires Sound(env)
    ensures WellFormed(After(env, ops))
    ensures Sum(ConnectionCount, s, View(After(env, ops))) == Recordings(s, RecordedEvents(env, ops))
  {
    if ops != [] {
      var init, op := ops[..|ops| - 1], ops[|ops| - 1];
      var g, recorded := After(env, init), RecordedEvents(env, init);
      ConnectionsAreRecordings(env, init, s);
      StepSum(ConnectionCount, s, env, g, op);
      ConnectionIncrement(s, env, g, op);
      if op.Net? {
        CollapsesIsInWindow(env, init, op.pid, op.event);
        RecordingsOneMore(s, recorded, Recorded(op.pid, op.event));
      }
    }
  }

  // ---- every network event is accounted for -----------------------------------------------

  /** The process was recorded connecting to this very destination before. */
  predicate Seen(recorded: seq<Recorded>, pid: nat, event: NetEvent) {
    exists i | 0 <= i < |recorded| :: SameEnds(recorded[i], pid, event)
  }

  predicate SameEnds(r: Recorded, pid: nat, event: NetEvent) {
    r.pid == pid && r.event.daddr == event.daddr && r.event.dport == event.dport
  }

  lemma SameEndsSameIds(r: Recorded, pid: nat, event: NetEvent)
    ensures SameEnds(r, pid, event) <==> ProcId(r.pid) == ProcId(pid) && Destination(r.event) == Destination(event)
  {
    NodeIdInjective(Process(pid, "", 0), Process(r.pid, "", 0));
    if Destination(r.event) == Destination(event) {
      NetIdInjective(Dotted(r.event.daddr), r.event.dport, Dotted(event.daddr), event.dport);
      DottedInjective(r.event.daddr, event.daddr);
    }
  }

  lemma {:induction false} SeenIsRecorded(recorded: seq<Recorded>, pid: nat, event: NetEvent)
    ensures Seen(recorded, pid, event) <==> Recordings(Between(ProcId(pid), Destination(event)), recorded) > 0
  {
    if recorded != [] {
      var init, r := recorded[..|recorded| - 1], recorded[|recorded| - 1];
      assert recorded == init + [r];
      SeenIsRecorded(init, pid, event);
      SameEndsSameIds(r, pid, event);
      RecordingsOneMore(Between(ProcId(pid), Destination(event)), init, r);
      SeenOneMore(init, r, pid, event);
    }
  }

  lemma SeenOneMore(recorded: seq<Recorded>, r: Recorded, pid: nat, event: NetEvent)
    ensures Seen(recorded + [r], pid, event) <==> Seen(recorded, pid, event) || SameEnds(r, pid, event)
  {
    var more := recorded + [r];
    assert more[|recorded|] == r;
    assert forall i | 0 <= i < |recorded| :: more[i] == recorded[i];
  }

  lemma NoTargetNoConnection(env: Environment, g: Graph, pid: nat, event: NetEvent)
    requires Sound(env) && WellFormed(g) && MergeTarget(env, g, pid, event).None?
    ensures Sum(ConnectionCount, Between(ProcId(pid), Destination(event)), View(g)) == 0
  {
    var s := Between(ProcId(pid), Destination(event));
    forall k: nat | k < |View(g)|
      ensures Weigh(ConnectionCount, s, View(g)[k].from, View(g)[k].to, View(g)[k].weight) == 0
    {
      var p, n := g.edges[k].src, g.edges[k].dst;
      assert Joins(g.edges, k, p, n);
      assert Finds(g.edges, p, n, env.findEdge(g.edges, p, n));
    }
    SumOfNothing(ConnectionCount, s, View(g));
  }

  /** A collapsed event finds an edge to merge into exactly when its destination was recorded before. */
  lemma MergesIffSeen(env: Environment, ops: seq<Op>, pid: nat, event: NetEvent)
    requires Sound(env)
    ensures MergeTarget(env, After(env, ops), pid, event).Some? <==> Seen(RecordedEvents(env, ops), pid, event)
  {
    var g, s := After(env, ops), Between(ProcId(pid), Destination(event));
    ConnectionsAreRecordings(env, ops, s);
    SeenIsRecorded(RecordedEvents(env, ops), pid, event);
    if MergeTarget(env, g, pid, event).Some? {
      TargetIsConnection(env, g, pid, event);
    } else {
      NoTargetNoConnection(env, g, pid, event);
    }
  }

  lemma TargetIsConnection(env: Environment, g: Graph, pid: nat, event: NetEvent)
    requires Sound(env) && WellFormed(g) && MergeTarget(env, g, pid, event).Some?
    ensures Sum(ConnectionCount, Between(ProcId(pid), Destination(event)), View(g)) > 0
  {
    AggregateView(env, g, pid, event);
    WeighsAtMostSum(ConnectionCount, Between(ProcId(pid), Destination(event)), View(g),
      MergeTarget(env, g, pid, event).value);
  }

  /** What the network events of a run offer to a measure. */
  ghost function Offered(m: Measure, s: Selector, ops: seq<Op>): nat {
    if ops == [] then 0
    else Offered(m, s, ops[..|ops| - 1]) + OfferedBy(m, s, ops[|ops| - 1])
  }

  ghost function OfferedBy(m: Measure, s: Selector, op: Op): nat {
    if op.Net? then Gain(m, s, EdgeUpdated(ProcId(op.pid), Destination(op.event), op.event.dataSize)) else 0
  }

  /** Operation `i` is an event that collapses towards a destination its process never had recorded. */
  predicate LostAt(env: Environment, ops: seq<Op>, i: nat)
    requires i < |ops|
  {
    ops[i].Net? &&
    InWindow(env, RecordedEvents(env, ops[..i]), ops[i].pid, ops[i].event) &&
    !Seen(RecordedEvents(env, ops[..i]), ops[i].pid, ops[i].event)
  }

  ghost function Lost(m: Measure, s: Selector, env: Environment, ops: seq<Op>): nat {
    if ops == [] then 0
    else
      var op := ops[|ops| - 1];
      Lost(m, s, env, ops[..|ops| - 1]) +
      if LostAt(env, ops, |ops| - 1) then OfferedBy(m, s, op) else 0
  }

  /**
   Conservation: the graph's event counts (and bytes) plus those of the lost events are exactly
   what the run offered, in total, per connection and per port.
   */
  lemma {:induction false} EventsAreConserved(env: Environment, ops: seq<Op>, m: Measure, s: Selector)
    requires Sound(env) && (m == EventCount || m == ByteCount)
    ensures WellFormed(After(env, ops))
    ensures Sum(m, s, View(After(env, ops))) + Lost(m, s, env, ops) == Offered(m, s, ops)
  {
    if ops != [] {
      var init, op := ops[..|ops| - 1], ops[|ops| - 1];
      EventsAreConserved(env, init, m, s);
      StepSum(m, s, env, After(env, init), op);
      if op.Net? {
        CollapsesIsInWindow(env, init, op.pid, op.event);
        MergesIffSeen(env, init, op.pid, op.event);
      }
      VolumeIncrement(m, s, env, After(env, init), op);
    }
  }

  lemma VolumeIncrement(m: Measure, s: Selector, env: Environment, g: Graph, op: Op)
    requires Sound(env) && (m == EventCount || m == ByteCount)
    ensures Increment(m, s, env, g, op) ==
      if op.Net? && Collapses(env, g, op.pid, op.event) && MergeTarget(env, g, op.pid, op.event).None? then 0
      else OfferedBy(m, s, op)
  {
    if op.Net? { AttemptsWeighNothing(m, s, env.config, LoadsOf(g, op.pid), op.event); }
  }

  function NetCalls(ops: seq<Op>): nat {
    if ops == [] then 0 else NetCalls(ops[..|ops| - 1]) + if ops[|ops| - 1].Net? then 1 else 0
  }

  lemma {:induction false} EveryCallOffersOneEvent(ops: seq<Op>)
    ensures Offered(EventCount, All, ops) == NetCalls(ops)
    ensures Offered(ByteCount, All, ops) <= NetCalls(ops) * (TWO_TO_32 - 1)
  {
    if ops != [] { EveryCallOffersOneEvent(ops[..|ops| - 1]); }
  }

  lemma StepCountsCollapsed(env: Environment, g: Graph, op: Op)
    requires Sound(env)
    ensures Step(env, g, op).burstsCollapsed ==
      g.burstsCollapsed + if op.Net? && Collapses(env, g, op.pid, op.event) then 1 else 0
  {
  }

  /** Every network call either made an edge or was collapsed. */
  lemma {:induction false} CallsAreEdgesPlusCollapsed(env: Environment, ops: seq<Op>)
    requires Sound(env)
    ensures WellFormed(After(env, ops))
    ensures Sum(ConnectionCount, All, View(After(env, ops))) + After(env, ops).burstsCollapsed == NetCalls(ops)
  {
    if ops != [] {
      var g, op := After(env, ops[..|ops| - 1]), ops[|ops| - 1];
      CallsAreEdgesPlusCollapsed(env, ops[..|ops| - 1]);
      StepSum(ConnectionCount, All, env, g, op);
      ConnectionIncrement(All, env, g, op);
      StepCountsCollapsed(env, g, op);
    }
  }

  /** An event that weighs something in the measure is lost. */
  ghost predicate LosesWeight(m: Measure, s: Selector, env: Environment, ops: seq<Op>, i: nat)
    requires i < |ops|
  {
    LostAt(env, ops, i) && OfferedBy(m, s, ops[i]) > 0
  }

  lemma LossOfPrefix(m: Measure, s: Selector, env: Environment, ops: seq<Op>, n: nat, i: nat)
    requires i < n <= |ops|
    ensures LosesWeight(m, s, env, ops[..n], i) == LosesWeight(m, s, env, ops, i)
  {
    assert ops[..n][..i] == ops[..i];
  }

  lemma LostOneMore(m: Measure, s: Selector, env: Environment, ops: seq<Op>, n: nat)
    requires n < |ops|
    ensures Lost(m, s, env, ops[..n + 1]) == 0 <==> Lost(m, s, env, ops[..n]) == 0 && !LosesWeight(m, s, env, ops, n)
  {
    assert ops[..n + 1][..n] == ops[..n];
    LossOfPrefix(m, s, env, ops, n + 1, n);
  }

  /** A total that stays at zero exactly over the steps that are not bad. */
  lemma {:induction false} ZeroIff(totals: seq<nat>, bad: seq<bool>, n: nat)
    requires n <= |bad| == |totals| - 1 && totals[0] == 0
    requires forall i | 0 <= i < |bad| :: totals[i + 1] == 0 <==> totals[i] == 0 && !bad[i]
    ensures totals[n] == 0 <==> forall i | 0 <= i < n :: !bad[i]
  {
    if n > 0 { ZeroIff(totals, bad, n - 1); }
  }

  ghost function Losses(m: Measure, s: Selector, env: Environment, ops: seq<Op>): seq<nat> {
    seq(|ops| + 1, k requires 0 <= k <= |ops| => Lost(m, s, env, ops[..k]))
  }

  ghost function Losing(m: Measure, s: Selector, env: Environment, ops: seq<Op>): seq<bool> {
    seq(|ops|, i requires 0 <= i < |ops| => LosesWeight(m, s, env, ops, i))
  }

  lemma NothingLostIff(m: Measure, s: Selector, env: Environment, ops: seq<Op>)
    ensures Lost(m, s, env, ops) == 0 <==> forall i: nat | i < |ops| :: !LosesWeight(m, s, env, ops, i)
  {
    var totals, bad := Losses(m, s, env, ops), Losing(m, s, env, ops);
    forall i | 0 <= i < |ops|
      ensures totals[i + 1] == 0 <==> totals[i] == 0 && !bad[i]
    {
      LostOneMore(m, s, env, ops, i);
    }
    ZeroIff(totals, bad, |ops|);
    assert ops[..|ops|] == ops;
    assert forall i: nat | i < |ops| :: bad[i] == LosesWeight(m, s, env, ops, i);
  }

  /**
   Event counts, and bytes, add up to what the run offered, in total, per connection or per port,
   exactly when no event of any weight there collapses towards a destination its process was never
   recorded connecting to.
   */
  lemma TotalsMatchIff(m: Measure, s: Selector, env: Environment, ops: seq<Op>)
    requires Sound(env) && (m == EventCount || m == ByteCount)
    ensures WellFormed(After(env, ops))
    ensures Sum(m, s, View(After(env, ops))) == Offered(m, s, ops)
      <==> forall i: nat | i < |ops| :: !LosesWeight(m, s, env, ops, i)
  {
    EventsAreConserved(env, ops, m, s);
    NothingLostIff(m, s, env, ops);
  }

  lemma EveryEventCounts(env: Environment, ops: seq<Op>, i: nat)
    requires i < |ops|
    ensures LosesWeight(EventCount, All, env, ops, i) == LostAt(env, ops, i)
  {
  }

  /** The event counts add up to the calls exactly when no call at all is lost so. */
  lemma CountsMatchCallsIff(env: Environment, ops: seq<Op>)
    requires Sound(env)
    ensures WellFormed(After(env, ops))
    ensures Sum(EventCount, All, View(After(env, ops))) == NetCalls(ops)
      <==> forall i | 0 <= i < |ops| :: !LostAt(env, ops, i)
  {
    TotalsMatchIff(EventCount, All, env, ops);
    EveryCallOffersOneEvent(ops);
    forall i: nat | i < |ops| ensures LosesWeight(EventCount, All, env, ops, i) == LostAt(env, ops, i) {
      EveryEventCounts(env, ops, i);
    }
  }

  lemma {:induction false} AnchorIsRecorded(recorded: seq<Recorded>, pid: nat, port: nat) returns (i: nat)
    requires Anchor(recorded, pid, port).Some?
    ensures i < |recorded| && RecordedOn(recorded[i], pid, port)
  {
    i := |recorded| - 1;
    if !(RecordedOn(recorded[i], pid, port)) {
      i := AnchorIsRecorded(recorded[..i], pid, port);
    }
  }

  lemma {:induction false} RecordedWasCalled(env: Environment, ops: seq<Op>, i: nat) returns (j: nat)
    requires i < |RecordedEvents(env, ops)|
    ensures j < |ops| && ops[j].Net? && Recorded(ops[j].pid, ops[j].event) == RecordedEvents(env, ops)[i]
  {
    j := |ops| - 1;
    if i < |RecordedEvents(env, ops[..j])| { j := RecordedWasCalled(env, ops[..j], i); }
  }

  predicate OneAddressPerPort(ops: seq<Op>) {
    forall i, j | 0 <= i < |ops| && 0 <= j < |ops| && ops[i].Net? && ops[j].Net? ::
      ops[i].pid == ops[j].pid && ops[i].event.dport == ops[j].event.dport ==> ops[i].event.daddr == ops[j].event.daddr
  }

  /** If each process uses each port with one address only, no byte and no event is lost. */
  lemma OneAddressLosesNothing(env: Environment, ops: seq<Op>, i: nat)
    requires OneAddressPerPort(ops) && i < |ops|
    ensures !LostAt(env, ops, i)
  {
    var recorded := RecordedEvents(env, ops[..i]);
    if ops[i].Net? && InWindow(env, recorded, ops[i].pid, ops[i].event) {
      var k := AnchorIsRecorded(recorded, ops[i].pid, ops[i].event.dport);
      var j := RecordedWasCalled(env, ops[..i], k);
      assert ops[j] == ops[..i][j];
      assert SameEnds(recorded[k], ops[i].pid, ops[i].event);
    }
  }

  /** With one address per process and port, bytes and event counts are conserved connection by connection. */
  lemma OneAddressConserves(env: Environment, ops: seq<Op>, m: Measure, s: Selector)
    requires Sound(env) && OneAddressPerPort(ops) && (m == EventCount || m == ByteCount)
    ensures WellFormed(After(env, ops)) && Sum(m, s, View(After(env, ops))) == Offered(m, s, ops)
  {
    forall i: nat | i < |ops| ensures !LosesWeight(m, s, env, ops, i) { OneAddressLosesNothing(env, ops, i); }
    TotalsMatchIff(m, s, env, ops);
  }

  /** The deduplication key leaves the address out: a second address inside the window vanishes. */
  lemma SecondAddressIsLost(env: Environment, first: Op, second: Op)
    requires Sound(env) && env.config.dedupEnabled && first.Net? && second.Net?
    requires first.pid == second.pid && first.event.dport == second.event.dport &&
      first.event.daddr != second.event.daddr
    requires Within(first.event.timestampNs, second.event.timestampNs, WindowNs(env.config.networkWindowSecs))
    ensures LostAt(env, [first, second], 1) && WellFormed(After(env, [first, second]))
    ensures Sum(EventCount, All, View(After(env, [first, second]))) != NetCalls([first, second])
    ensures second.event.dataSize > 0 ==>
      Sum(ByteCount, All, View(After(env, [first, second]))) != Offered(ByteCount, All, [first, second])
  {
    var ops := [first, second];
    OnlyEventIsRecorded(env, first);
    assert ops[..1] == [first];
    var recorded := RecordedEvents(env, ops[..1]);
    assert Anchor(recorded, second.pid, second.event.dport) == Some(first.event.timestampNs);
    assert !Seen(recorded, second.pid, second.event) by { assert !SameEnds(recorded[0], second.pid, second.event); }
    assert LostAt(env, ops, 1);
    assert second.event.dataSize > 0 ==> LosesWeight(ByteCount, All, env, ops, 1);
    CountsMatchCallsIff(env, ops);
    TotalsMatchIff(ByteCount, All, env, ops);
  }

  lemma OnlyEventIsRecorded(env: Environment, op: Op)
    requires op.Net?
    ensures RecordedEvents(env, [op]) == [Recorded(op.pid, op.event)]
  {
    assert [op][..0] == [];
    assert RecordedEvents(env, []) == [];
    assert Anchor([], op.pid, op.event.dport).None?;
  }

  /** Fewer than 2^32 network calls: no 32-bit event count and no 64-bit byte count can wrap. */
  lemma CountersFit(env: Environment, ops: seq<Op>, k: nat)
    requires Sound(env) && NetCalls(ops) < TWO_TO_32
    requires k < |After(env, ops).edges| && After(env, ops).edges[k].weight.NetworkConnection?
    ensures After(env, ops).edges[k].weight.eventCount < TWO_TO_32
    ensures After(env, ops).edges[k].weight.totalBytes < TWO_TO_64
  {
    EveryCallOffersOneEvent(ops);
    EdgeWithinOffer(env, ops, EventCount, k);
    EdgeWithinOffer(env, ops, ByteCount, k);
  }

  lemma EdgeWithinOffer(env: Environment, ops: seq<Op>, m: Measure, k: nat)
    requires Sound(env) && (m == EventCount || m == ByteCount)
    requires k < |After(env, ops).edges| && After(env, ops).edges[k].weight.NetworkConnection?
    ensures var w := After(env, ops).edges[k].weight;
      (if m == EventCount then w.eventCount else w.totalBytes) <= Offered(m, All, ops)
  {
    EventsAreConserved(env, ops, m, All);
    EdgeWithinSum(After(env, ops), m, k);
  }

  lemma EdgeWithinSum(g: Graph, m: Measure, k: nat)
    requires WellFormed(g) && (m == EventCount || m == ByteCount)
    requires k < |g.edges| && g.edges[k].weight.NetworkConnection?
    ensures var w := g.edges[k].weight;
      (if m == EventCount then w.eventCount else w.totalBytes) <= Sum(m, All, View(g))
  {
    assert View(g)[k].weight == g.edges[k].weight;
    WeighsAtMostSum(m, All, View(g), k);
  }
}
