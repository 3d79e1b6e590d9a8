/**
 What every run of the runtime attack graph keeps: a well-formed index, an update log that
 replays to the graph, and an account of every network event.
 */
module AttackGraphRuns {
  import opened Wrappers
  import opened NodeIdentity
  import opened AttackGraph

  // ---- how one operation changes the identifier view --------------------------------------

  lemma LoadView(g: Graph, pid: nat, name: string, cgroupId: nat, path: string, t: nat)
    requires WellFormed(g)
    ensures var g' := ProcessLibraryLoad(g, pid, name, cgroupId, path, t);
      && WellFormed(g') && g.nodes <= g'.nodes
      && View(g') == View(g) + [EdgeView(ProcId(pid), LibId(path), LibraryLoaded(t, 1.0))]
  {
    AddNodesKeepIndex(g, Process(pid, name, cgroupId), Library(path, []));
    var (g2, p, l) := AddNodes(g, Process(pid, name, cgroupId), Library(path, []));
    AppendEdges(g2, [GraphEdge(p, l, LibraryLoaded(t, 1.0))]);
  }

  /** The attempts a recorded event gives rise to, by identifier and without any index. */
  function AttemptViews(config: AttackGraphConfig, loads: seq<LibraryLoad>, event: NetEvent): seq<EdgeView> {
    if loads == [] then []
    else
      var rest := AttemptViews(config, loads[..|loads| - 1], event);
      var load := loads[|loads| - 1];
      if Correlates(config, load, event) then
        rest + [EdgeView(LibId(load.path), Destination(event), Attempt(config, load, event))]
      else rest
  }

  /** No lookup misses: the edges added are exactly the attempts of the loads in the window. */
  lemma {:induction false} AttemptsNeverMiss(g: Graph, config: AttackGraphConfig, loads: seq<LibraryLoad>, net: nat,
                                             event: NetEvent)
    requires WellFormed(g) && net < |g.nodes| && g.nodes[net].Network? && NodeId(g.nodes[net]) == Destination(event)
    requires forall i | 0 <= i < |loads| :: LibId(loads[i].path) in g.index
    ensures EdgesTyped(g.nodes, Attempts(config, g.index, loads, net, event))
    ensures ViewOf(g.nodes, Attempts(config, g.index, loads, net, event)) == AttemptViews(config, loads, event)
  {
    if loads != [] {
      var load := loads[|loads| - 1];
      AttemptsNeverMiss(g, config, loads[..|loads| - 1], net, event);
      NodeIdInjective(g.nodes[g.index[LibId(load.path)]], Library(load.path, []));
    }
  }

  /** The edges a recorded event adds: its connection, then its attempts. */
  function RecordedViews(config: AttackGraphConfig, loads: seq<LibraryLoad>, pid: nat, event: NetEvent): seq<EdgeView> {
    [EdgeView(ProcId(pid), Destination(event), Connection(config, event))] + AttemptViews(config, loads, event)
  }

  lemma RecordView(config: AttackGraphConfig, g: Graph, pid: nat, name: string, cgroupId: nat, event: NetEvent)
    requires WellFormed(g)
    ensures var g' := RecordConnection(config, g, pid, name, cgroupId, event);
      && WellFormed(g') && g.nodes <= g'.nodes && g'.loads == g.loads
      && View(g') == View(g) + RecordedViews(config, LoadsOf(g, pid), pid, event)
  {
    var g0 := g.(lastNetwork := g.lastNetwork[(pid, event.dport) := event.timestampNs]);
    assert View(g0) == View(g);
    var node := Network(Dotted(event.daddr), event.dport, Protocol(event.kind));
    AddNodesKeepIndex(g0, Process(pid, name, cgroupId), node);
    var (g2, p, n) := AddNodes(g0, Process(pid, name, cgroupId), node);
    ConnectionView(config, g2, p, n, pid, event);
  }

  lemma ConnectionView(config: AttackGraphConfig, g: Graph, p: nat, n: nat, pid: nat, event: NetEvent)
    requires WellFormed(g) && p < |g.nodes| && n < |g.nodes|
    requires g.nodes[p].Process? && NodeId(g.nodes[p]) == ProcId(pid)
    requires g.nodes[n].Network? && NodeId(g.nodes[n]) == Destination(event)
    ensures
      var g' := g.(edges := g.edges + [GraphEdge(p, n, Connection(config, event))] +
        Attempts(config, g.index, LoadsOf(g, pid), n, event));
      WellFormed(g') && View(g') == View(g) + RecordedViews(config, LoadsOf(g, pid), pid, event)
  {
    var more := Attempts(config, g.index, LoadsOf(g, pid), n, event);
    AttemptsNeverMiss(g, config, LoadsOf(g, pid), n, event);
    var conn := GraphEdge(p, n, Connection(config, event));
    assert EdgesTyped(g.nodes, [conn] + more) &&
      ViewOf(g.nodes, [conn] + more) == RecordedViews(config, LoadsOf(g, pid), pid, event) by {
      ViewOfOneMore(g.nodes, conn, more);
    }
    Regroup(g.edges, [conn], more);
    AppendEdges(g, [conn] + more);
  }

  lemma Regroup<T>(a: seq<T>, b: seq<T>, c: seq<T>)
    ensures a + b + c == a + (b + c)
  {
  }

  lemma ViewOfOneMore(nodes: seq<RuntimeNode>, e: GraphEdge, more: seq<GraphEdge>)
    requires EdgesTyped(nodes, more) && e.src < |nodes| && e.dst < |nodes| &&
      Typed(nodes[e.src], nodes[e.dst], e.weight)
    ensures EdgesTyped(nodes, [e] + more) && ViewOf(nodes, [e] + more) == [ViewEdge(nodes, e)] + ViewOf(nodes, more)
  {
  }

  /** A collapsed event changes one connection of its own process and destination, or nothing. */
  lemma AggregateView(env: Environment, g: Graph, pid: nat, event: NetEvent)
    requires Sound(env) && WellFormed(g)
    ensures var g' := AggregateNetworkEvent(env, g, pid, event);
      && WellFormed(g') && g'.nodes == g.nodes && g'.loads == g.loads
      && match MergeTarget(env, g, pid, event) {
           case None => g' == g
           case Some(k) =>
             && k < |g.edges| && View(g)[k].from == ProcId(pid) && View(g)[k].to == Destination(event)
             && View(g)[k].weight.NetworkConnection?
             && View(g') == View(g)[k := View(g)[k].(weight := Merge(View(g)[k].weight, event))]
             && g'.queue == g.queue + [EdgeUpdated(ProcId(pid), Destination(event), event.dataSize)]
         }
  {
    match MergeTarget(env, g, pid, event)
    case None =>
    case Some(k) =>
      var p, n := g.index[ProcId(pid)], g.index[Destination(event)];
      assert Finds(g.edges, p, n, Some(k));
      NodeIdInjective(g.nodes[p], Process(pid, "", 0));
      NodeIdInjective(g.nodes[n], Network(Dotted(event.daddr), event.dport, ""));
  }

  lemma {:induction false} VulnerableView(env: Environment, g: Graph, m: nat, vuln: nat, package: string)
    requires m <= |g.nodes| && vuln < |g.nodes| && g.nodes[vuln].Vulnerability?
    ensures var more := VulnerableEdges(env, g.nodes[..m], vuln, package);
      && EdgesTyped(g.nodes, more)
      && forall i | 0 <= i < |more| :: more[i].weight.Vulnerable? && more[i].src == vuln
  {
    if m > 0 {
      assert g.nodes[..m][..m - 1] == g.nodes[..m - 1];
      VulnerableView(env, g, m - 1, vuln, package);
    }
  }

  lemma AssociateView(env: Environment, g: Graph, cveId: string, package: string, cvss: real, epss: real, kev: bool)
    returns (more: seq<EdgeView>)
    requires WellFormed(g)
    ensures var g' := AssociateCveWithLibrary(env, g, cveId, package, cvss, epss, kev);
      && WellFormed(g') && g.nodes <= g'.nodes && View(g') == View(g) + more
    ensures forall i | 0 <= i < |more| :: more[i].weight.Vulnerable?
  {
    var node := Vulnerability(cveId, package, cvss, epss, kev);
    AddNodeKeepsIndex(g, node);
    var (g1, v) := AddNode(g, node);
    assert g1.nodes[..|g1.nodes|] == g1.nodes;
    VulnerableView(env, g1, |g1.nodes|, v, package);
    AppendEdges(g1, VulnerableEdges(env, g1.nodes, v, package));
    more := ViewOf(g1.nodes, VulnerableEdges(env, g1.nodes, v, package));
  }

  /** Every operation keeps the index exact and the edges typed, and never moves or drops a node. */
  lemma StepKeepsWellFormed(env: Environment, g: Graph, op: Op)
    requires Sound(env) && WellFormed(g)
    ensures WellFormed(Step(env, g, op)) && g.nodes <= Step(env, g, op).nodes
  {
    match op
    case Load(pid, name, cgroupId, path, t) => LoadView(g, pid, name, cgroupId, path, t);
    case Net(pid, name, cgroupId, event) =>
      RecordView(env.config, g, pid, name, cgroupId, event);
      AggregateView(env, g, pid, event);
    case Associate(cveId, package, cvss, epss, kev) => var _ := AssociateView(env, g, cveId, package, cvss, epss, kev);
    case Drain =>
  }

  lemma {:induction false} AlwaysWellFormed(env: Environment, ops: seq<Op>)
    requires Sound(env)
    ensures WellFormed(After(env, ops))
  {
    if ops != [] {
      AlwaysWellFormed(env, ops[..|ops| - 1]);
      StepKeepsWellFormed(env, After(env, ops[..|ops| - 1]), ops[|ops| - 1]);
    }
  }

  // ---- measuring a view -------------------------------------------------------------------

  datatype Measure = LoadCount | ConnectionCount | ByteCount | EventCount | AttemptCount

  /** Which edges are measured: all, one identifier pair, or one process's connections to a port. */
  datatype Selector = All | Between(from: string, to: string) | OnPort(pid: nat, port: nat)

  ghost predicate Selects(s: Selector, from: string, to: string) {
    match s
    case All => true
    case Between(f, t) => from == f && to == t
    case OnPort(pid, port) => from == ProcId(pid) && exists ip :: to == NetId(ip, port)
  }

  ghost function Weigh(m: Measure, s: Selector, from: string, to: string, w: RuntimeEdge): nat {
    if !Selects(s, from, to) then 0
    else match (m, w)
      case (LoadCount, LibraryLoaded(_, _)) => 1
      case (ConnectionCount, NetworkConnection(_, _, _, _)) => 1
      case (ByteCount, NetworkConnection(_, bytes, _, _)) => bytes
      case (EventCount, NetworkConnection(_, _, count, _)) => count
      case (AttemptCount, ExploitationAttempt(_, _)) => 1
      case _ => 0
  }

  ghost function Sum(m: Measure, s: Selector, view: seq<EdgeView>): nat {
    if view == [] then 0
    else var e := view[|view| - 1]; Sum(m, s, view[..|view| - 1]) + Weigh(m, s, e.from, e.to, e.weight)
  }

  lemma {:induction false} SumAppend(m: Measure, s: Selector, a: seq<EdgeView>, b: seq<EdgeView>)
    ensures Sum(m, s, a + b) == Sum(m, s, a) + Sum(m, s, b)
  {
    if b == [] {
      assert a + b == a;
    } else {
      assert (a + b)[..|a + b| - 1] == a + b[..|b| - 1];
      SumAppend(m, s, a, b[..|b| - 1]);
    }
  }

  lemma {:induction false} SumOne(m: Measure, s: Selector, e: EdgeView)
    ensures Sum(m, s, [e]) == Weigh(m, s, e.from, e.to, e.weight)
  {
    assert [e][..0] == [];
  }

  lemma {:induction false} SumReplace(m: Measure, s: Selector, v: seq<EdgeView>, k: nat, e: EdgeView)
    requires k < |v|
    ensures Sum(m, s, v[k := e]) ==
      Sum(m, s, v) - Weigh(m, s, v[k].from, v[k].to, v[k].weight) + Weigh(m, s, e.from, e.to, e.weight)
  {
    var last := |v| - 1;
    if k == last {
      assert v[k := e][..last] == v[..last];
    } else {
      assert v[k := e][..last] == v[..last][k := e];
      SumReplace(m, s, v[..last], k, e);
    }
  }

  lemma {:induction false} SumOfNothing(m: Measure, s: Selector, v: seq<EdgeView>)
    requires forall i | 0 <= i < |v| :: Weigh(m, s, v[i].from, v[i].to, v[i].weight) == 0
    ensures Sum(m, s, v) == 0
  {
    if v != [] {
      assert forall i | 0 <= i < |v| - 1 :: v[..|v| - 1][i] == v[i];
      SumOfNothing(m, s, v[..|v| - 1]);
    }
  }

  lemma {:induction false} WeighsAtMostSum(m: Measure, s: Selector, v: seq<EdgeView>, k: nat)
    requires k < |v|
    ensures Weigh(m, s, v[k].from, v[k].to, v[k].weight) <= Sum(m, s, v)
  {
    if k < |v| - 1 { WeighsAtMostSum(m, s, v[..|v| - 1], k); }
  }

  lemma AttemptViewsAreAttempts(config: AttackGraphConfig, loads: seq<LibraryLoad>, event: NetEvent)
    ensures forall i | 0 <= i < |AttemptViews(config, loads, event)| ::
      AttemptViews(config, loads, event)[i].weight.ExploitationAttempt?
  {
  }

  /** Attempts weigh nothing but themselves. */
  lemma AttemptsWeighNothing(m: Measure, s: Selector, config: AttackGraphConfig, loads: seq<LibraryLoad>,
                             event: NetEvent)
    requires m != AttemptCount
    ensures Sum(m, s, AttemptViews(config, loads, event)) == 0
  {
    AttemptViewsAreAttempts(config, loads, event);
    SumOfNothing(m, s, AttemptViews(config, loads, event));
  }

  // ---- the update log replays to the graph ------------------------------------------------

  /** What a consumer of the log adds up: an added edge with its weight, an update with its delta. */
  ghost function Gain(m: Measure, s: Selector, u: GraphUpdate): nat {
    match u
    case EdgeAdded(from, to, edge) => Weigh(m, s, from, to, edge)
    case EdgeUpdated(from, to, delta) =>
      if !Selects(s, from, to) then 0
      else match m
        case ByteCount => delta
        case EventCount => 1
        case _ => 0
  }

  ghost function Replayed(m: Measure, s: Selector, log: seq<GraphUpdate>): nat {
    if log == [] then 0 else Replayed(m, s, log[..|log| - 1]) + Gain(m, s, log[|log| - 1])
  }

  function Log(g: Graph): seq<GraphUpdate> { g.drained + g.queue }

  lemma ReplayOneMore(m: Measure, s: Selector, g: Graph, g': Graph, u: GraphUpdate)
    requires g'.drained == g.drained && g'.queue == g.queue + [u]
    ensures Replayed(m, s, Log(g')) == Replayed(m, s, Log(g)) + Gain(m, s, u)
  {
    assert Log(g') == Log(g) + [u];
    assert Log(g')[..|Log(g)|] == Log(g);
  }

  /** One recorded connection changes a measure by its own weight and those of its attempts. */
  lemma RecordSum(m: Measure, s: Selector, config: AttackGraphConfig, g: Graph, pid: nat, name: string, cgroupId: nat,
                  event: NetEvent)
    requires WellFormed(g)
    ensures var g' := RecordConnection(config, g, pid, name, cgroupId, event);
      WellFormed(g') &&
      Sum(m, s, View(g')) ==
        Sum(m, s, View(g)) + Weigh(m, s, ProcId(pid), Destination(event), Connection(config, event))
                             + Sum(m, s, AttemptViews(config, LoadsOf(g, pid), event))
  {
    RecordView(config, g, pid, name, cgroupId, event);
    var one := EdgeView(ProcId(pid), Destination(event), Connection(config, event));
    SumAppend(m, s, View(g), RecordedViews(config, LoadsOf(g, pid), pid, event));
    SumAppend(m, s, [one], AttemptViews(config, LoadsOf(g, pid), event));
    SumOne(m, s, one);
  }

  /** One merged event changes a measure by one event and its bytes; an unmerged one changes nothing. */
  lemma AggregateSum(m: Measure, s: Selector, env: Environment, g: Graph, pid: nat, event: NetEvent)
    requires Sound(env) && WellFormed(g)
    ensures var g' := AggregateNetworkEvent(env, g, pid, event);
      WellFormed(g') &&
      Sum(m, s, View(g')) == Sum(m, s, View(g)) +
        if MergeTarget(env, g, pid, event).None? then 0
        else Gain(m, s, EdgeUpdated(ProcId(pid), Destination(event), event.dataSize))
  {
    AggregateView(env, g, pid, event);
    match MergeTarget(env, g, pid, event)
    case None =>
    case Some(k) =>
      var e := View(g)[k];
      SumReplace(m, s, View(g), k, e.(weight := Merge(e.weight, event)));
      MergeWeighs(m, s, e, event);
  }

  lemma MergeWeighs(m: Measure, s: Selector, e: EdgeView, event: NetEvent)
    requires e.weight.NetworkConnection?
    ensures Weigh(m, s, e.from, e.to, Merge(e.weight, event)) ==
      Weigh(m, s, e.from, e.to, e.weight) + Gain(m, s, EdgeUpdated(e.from, e.to, event.dataSize))
  {
  }

  lemma AssociateSum(m: Measure, s: Selector, env: Environment, g: Graph, cveId: string, package: string, cvss: real,
                     epss: real, kev: bool)
    requires WellFormed(g)
    ensures var g' := AssociateCveWithLibrary(env, g, cveId, package, cvss, epss, kev);
      WellFormed(g') && Sum(m, s, View(g')) == Sum(m, s, View(g))
  {
    var more := AssociateView(env, g, cveId, package, cvss, epss, kev);
    SumAppend(m, s, View(g), more);
    VulnerableWeighsNothing(m, s, more);
  }

  lemma VulnerableWeighsNothing(m: Measure, s: Selector, more: seq<EdgeView>)
    requires forall i | 0 <= i < |more| :: more[i].weight.Vulnerable?
    ensures Sum(m, s, more) == 0
  {
    SumOfNothing(m, s, more);
  }

  lemma LoadSum(m: Measure, s: Selector, g: Graph, pid: nat, name: string, cgroupId: nat, path: string, t: nat)
    requires WellFormed(g)
    ensures var g' := ProcessLibraryLoad(g, pid, name, cgroupId, path, t);
      WellFormed(g') &&
      Sum(m, s, View(g')) == Sum(m, s, View(g)) + Weigh(m, s, ProcId(pid), LibId(path), LibraryLoaded(t, 1.0))
  {
    var one := EdgeView(ProcId(pid), LibId(path), LibraryLoaded(t, 1.0));
    LoadView(g, pid, name, cgroupId, path, t);
    SumAppend(m, s, View(g), [one]);
    SumOne(m, s, one);
  }

  lemma CollapsedReplays(m: Measure, s: Selector, env: Environment, g: Graph, pid: nat, event: NetEvent)
    requires Sound(env) && WellFormed(g)
    requires Sum(m, s, View(g)) == Replayed(m, s, Log(g))
    ensures var g' := AggregateNetworkEvent(env, g, pid, event);
      WellFormed(g') && Sum(m, s, View(g')) == Replayed(m, s, Log(g'))
  {
    var g' := AggregateNetworkEvent(env, g, pid, event);
    AggregateSum(m, s, env, g, pid, event);
    AggregateView(env, g, pid, event);
    if MergeTarget(env, g, pid, event).Some? {
      ReplayOneMore(m, s, g, g', EdgeUpdated(ProcId(pid), Destination(event), event.dataSize));
    }
  }

  lemma RecordedReplays(m: Measure, s: Selector, config: AttackGraphConfig, g: Graph, pid: nat, name: string,
                        cgroupId: nat, event: NetEvent)
    requires WellFormed(g) && m != AttemptCount
    requires Sum(m, s, View(g)) == Replayed(m, s, Log(g))
    ensures var g' := RecordConnection(config, g, pid, name, cgroupId, event);
      WellFormed(g') && Sum(m, s, View(g')) == Replayed(m, s, Log(g'))
  {
    RecordSum(m, s, config, g, pid, name, cgroupId, event);
    AttemptsWeighNothing(m, s, config, LoadsOf(g, pid), event);
    ReplayOneMore(m, s, g, RecordConnection(config, g, pid, name, cgroupId, event),
                  EdgeAdded(ProcId(pid), Destination(event), Connection(config, event)));
  }

  lemma LoadReplays(m: Measure, s: Selector, g: Graph, pid: nat, name: string, cgroupId: nat, path: string, t: nat)
    requires WellFormed(g) && Sum(m, s, View(g)) == Replayed(m, s, Log(g))
    ensures var g' := ProcessLibraryLoad(g, pid, name, cgroupId, path, t);
      WellFormed(g') && Sum(m, s, View(g')) == Replayed(m, s, Log(g'))
  {
    LoadSum(m, s, g, pid, name, cgroupId, path, t);
    ReplayOneMore(m, s, g, ProcessLibraryLoad(g, pid, name, cgroupId, path, t),
      EdgeAdded(ProcId(pid), LibId(path), LibraryLoaded(t, 1.0)));
  }

  /** Counting a collapsed event leaves the edges and the log alone. */
  lemma BumpKeeps(g: Graph)
    requires WellFormed(g)
    ensures WellFormed(g.(burstsCollapsed := g.burstsCollapsed + 1))
    ensures View(g.(burstsCollapsed := g.burstsCollapsed + 1)) == View(g)
  {
  }

  lemma DrainKeeps(g: Graph)
    requires WellFormed(g)
    ensures WellFormed(DrainUpdates(g)) && View(DrainUpdates(g)) == View(g) && Log(DrainUpdates(g)) == Log(g)
  {
  }

  lemma StepReplays(m: Measure, s: Selector, env: Environment, g: Graph, op: Op)
    requires Sound(env) && WellFormed(g) && m != AttemptCount
    requires Sum(m, s, View(g)) == Replayed(m, s, Log(g))
    ensures WellFormed(Step(env, g, op))
    ensures Sum(m, s, View(Step(env, g, op))) == Replayed(m, s, Log(Step(env, g, op)))
  {
    match op
    case Load(pid, name, cgroupId, path, t) => LoadReplays(m, s, g, pid, name, cgroupId, path, t);
    case Net(pid, name, cgroupId, event) =>
      if Collapses(env, g, pid, event) {
        CollapsedReplays(m, s, env, g, pid, event);
        BumpKeeps(AggregateNetworkEvent(env, g, pid, event));
      } else {
        RecordedReplays(m, s, env.config, g, pid, name, cgroupId, event);
      }
    case Associate(cveId, package, cvss, epss, kev) => AssociateSum(m, s, env, g, cveId, package, cvss, epss, kev);
    case Drain => DrainKeeps(g);
  }

  /**
   Replaying every drained update and then the queue gives the graph's own load count, connection
   count, bytes and event count: for each identifier pair, each port, and in total.
   */
  lemma {:induction false} LogReplaysToGraph(env: Environment, ops: seq<Op>, m: Measure, s: Selector)
    requires Sound(env) && m != AttemptCount
    ensures WellFormed(After(env, ops))
    ensures Sum(m, s, View(After(env, ops))) == Replayed(m, s, Log(After(env, ops)))
  {
    if ops != [] {
      LogReplaysToGraph(env, ops[..|ops| - 1], m, s);
      StepReplays(m, s, env, After(env, ops[..|ops| - 1]), ops[|ops| - 1]);
    }
  }
}
