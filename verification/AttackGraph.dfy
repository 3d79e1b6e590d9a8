/**
 Runtime attack graph, second version: its data and the effect of each operation as a
 function on graph values. The class in RuntimeAttackGraph.dfy is proved to compute these.
 Confidences are exact reals. Counters are mathematical integers; `CountersFit` in
 AttackGraphHistory.dfy says when the machine counters cannot wrap.
 */
module AttackGraph {
  import opened Wrappers
  import opened NodeIdentity

  datatype EventKind = TcpSend | TcpRecv | UdpSend | UdpRecv | OtherKind

  datatype NetEvent = NetEvent(timestampNs: nat, daddr: u32, dport: nat, kind: EventKind, dataSize: u32)

  datatype RuntimeEdge =
    | ProcessCreated(timestampNs: nat, confidence: real)
    | LibraryLoaded(timestampNs: nat, confidence: real)
    | Vulnerable(confidence: real)
    | NetworkConnection(timestampNs: nat, totalBytes: nat, eventCount: nat, confidence: real)
    | ExploitationAttempt(confidence: real, evidence: string)
    | UsesTechnique(confidence: real)

  datatype GraphEdge = GraphEdge(src: nat, dst: nat, weight: RuntimeEdge)

  datatype GraphUpdate =
    | EdgeAdded(from: string, to: string, edge: RuntimeEdge)
    | EdgeUpdated(from: string, to: string, deltaBytes: nat)

  datatype LibraryLoad = LibraryLoad(path: string, timestampNs: nat)

  datatype AttackGraphConfig = AttackGraphConfig(
    mmapWindowSecs: nat,
    networkWindowSecs: nat,
    minBytesThreshold: nat,
    topK: nat,
    minEnforcementConfidence: real,
    minEnforcementDepth: nat,
    dedupEnabled: bool)

  const DEFAULT_CONFIG := AttackGraphConfig(300, 30, 1024, 3, 0.8, 3, true)

  /**
   What the graph is given from outside: its configuration, the library-name matcher, and the
   graph library's choices of a parallel edge and of iteration order.
   */
  datatype Environment = Environment(
    config: AttackGraphConfig,
    matches: (string, string) -> bool,
    findEdge: (seq<GraphEdge>, nat, nat) -> Option<nat>,
    outgoing: (seq<GraphEdge>, nat) -> seq<nat>,
    incoming: (seq<GraphEdge>, nat) -> seq<nat>)

  predicate Joins(edges: seq<GraphEdge>, k: nat, src: nat, dst: nat) {
    k < |edges| && edges[k].src == src && edges[k].dst == dst
  }

  /** `find_edge` returns some edge between the two nodes, and fails only when there is none. */
  ghost predicate Finds(edges: seq<GraphEdge>, src: nat, dst: nat, found: Option<nat>) {
    match found
    case Some(k) => Joins(edges, k, src, dst)
    case None => forall k: nat :: !Joins(edges, k, src, dst)
  }

  ghost predicate NoRepeats(list: seq<nat>) { forall k: nat :: multiset(list)[k] <= 1 }

  /** Iteration at a node lists each of its edges once, in some order. */
  ghost predicate ListsOutgoing(edges: seq<GraphEdge>, node: nat, list: seq<nat>) {
    NoRepeats(list) && forall k: nat :: k in list <==> k < |edges| && edges[k].src == node
  }

  ghost predicate ListsIncoming(edges: seq<GraphEdge>, node: nat, list: seq<nat>) {
    NoRepeats(list) && forall k: nat :: k in list <==> k < |edges| && edges[k].dst == node
  }

  ghost predicate Sound(env: Environment) {
    && (forall edges, a, b :: Finds(edges, a, b, env.findEdge(edges, a, b)))
    && (forall edges, a :: ListsOutgoing(edges, a, env.outgoing(edges, a)))
    && (forall edges, a :: ListsIncoming(edges, a, env.incoming(edges, a)))
  }

  /** The newest edge between two nodes, as a walk of the adjacency list from its head finds it. */
  function NewestEdge(edges: seq<GraphEdge>, src: nat, dst: nat): Option<nat> {
    if edges == [] then None
    else
      var k := |edges| - 1;
      if edges[k].src == src && edges[k].dst == dst then Some(k) else NewestEdge(edges[..k], src, dst)
  }

  /** The edges at a node, newest first, on the side wanted. */
  function NewestAt(edges: seq<GraphEdge>, node: nat, outgoing: bool): seq<nat> {
    if edges == [] then []
    else
      var k := |edges| - 1;
      var rest := NewestAt(edges[..k], node, outgoing);
      if (if outgoing then edges[k].src else edges[k].dst) == node then [k] + rest else rest
  }

  function NewestFirst(config: AttackGraphConfig, matches: (string, string) -> bool): Environment {
    Environment(config, matches, NewestEdge,
                (edges, node) => NewestAt(edges, node, true), (edges, node) => NewestAt(edges, node, false))
  }

  lemma {:induction false} NewestEdgeFinds(edges: seq<GraphEdge>, src: nat, dst: nat)
    ensures Finds(edges, src, dst, NewestEdge(edges, src, dst))
  {
    if edges != [] {
      var k := |edges| - 1;
      NewestEdgeFinds(edges[..k], src, dst);
      forall j: nat ensures j < k ==> Joins(edges[..k], j, src, dst) == Joins(edges, j, src, dst) { }
      match NewestEdge(edges[..k], src, dst)
      case None =>
      case Some(j) => assert Joins(edges[..k], j, src, dst);
    }
  }

  lemma {:induction false} NewestAtLists(edges: seq<GraphEdge>, node: nat, outgoing: bool)
    ensures forall k: nat :: k in NewestAt(edges, node, outgoing) <==>
      k < |edges| && (if outgoing then edges[k].src else edges[k].dst) == node
    ensures NoRepeats(NewestAt(edges, node, outgoing))
  {
    if edges != [] {
      var k := |edges| - 1;
      NewestAtLists(edges[..k], node, outgoing);
      var rest := NewestAt(edges[..k], node, outgoing);
      assert k !in rest;
    }
  }

  /** The assumption on the graph library can be met: walking newest first meets it. */
  lemma NewestFirstIsSound(config: AttackGraphConfig, matches: (string, string) -> bool)
    ensures Sound(NewestFirst(config, matches))
  {
    var env := NewestFirst(config, matches);
    forall edges, a, b ensures Finds(edges, a, b, env.findEdge(edges, a, b)) { NewestEdgeFinds(edges, a, b); }
    forall edges, a ensures ListsOutgoing(edges, a, env.outgoing(edges, a)) { NewestAtLists(edges, a, true); }
    forall edges, a ensures ListsIncoming(edges, a, env.incoming(edges, a)) { NewestAtLists(edges, a, false); }
  }

  /** Seconds to nanoseconds, truncated to 64 bits as the cast does. */
  function WindowNs(secs: nat): nat { secs * 1_000_000_000 % TWO_TO_64 }

  datatype Graph = Graph(
    nodes: seq<RuntimeNode>,
    edges: seq<GraphEdge>,
    index: map<string, nat>,
    loads: map<nat, seq<LibraryLoad>>,
    lastNetwork: map<(nat, nat), nat>,
    burstsCollapsed: nat,
    queue: seq<GraphUpdate>,
    drained: seq<GraphUpdate>)

  const EMPTY := Graph([], [], map[], map[], map[], 0, [], [])

  function AddNode(g: Graph, node: RuntimeNode): (Graph, nat) {
    var id := NodeId(node);
    if id in g.index then (g, g.index[id])
    else (g.(nodes := g.nodes + [node], index := g.index[id := |g.nodes|]), |g.nodes|)
  }

  function LoadsOf(g: Graph, pid: nat): seq<LibraryLoad> {
    if pid in g.loads then g.loads[pid] else []
  }

  function ProcessLibraryLoad(g: Graph, pid: nat, name: string, cgroupId: nat, path: string, timestampNs: nat): Graph {
    var (g1, p) := AddNode(g, Process(pid, name, cgroupId));
    var (g2, l) := AddNode(g1, Library(path, []));
    var edge := LibraryLoaded(timestampNs, 1.0);
    g2.(edges := g2.edges + [GraphEdge(p, l, edge)],
        loads := g2.loads[pid := LoadsOf(g2, pid) + [LibraryLoad(path, timestampNs)]],
        queue := g2.queue + [EdgeAdded(ProcId(pid), LibId(path), edge)])
  }

  /** Strictly inside the window that opens at `anchor`. */
  predicate Within(anchor: nat, now: nat, windowNs: nat) {
    anchor < now && now - anchor < windowNs
  }

  predicate Collapses(env: Environment, g: Graph, pid: nat, event: NetEvent) {
    env.config.dedupEnabled && (pid, event.dport) in g.lastNetwork &&
    Within(g.lastNetwork[(pid, event.dport)], event.timestampNs, WindowNs(env.config.networkWindowSecs))
  }

  function Protocol(kind: EventKind): string {
    match kind
    case TcpSend | TcpRecv => "TCP"
    case UdpSend | UdpRecv => "UDP"
    case OtherKind => "UNKNOWN"
  }

  function BaseConfidence(config: AttackGraphConfig, event: NetEvent): real {
    if event.dataSize > config.minBytesThreshold then 0.9 else 0.7
  }

  function Connection(config: AttackGraphConfig, event: NetEvent): RuntimeEdge {
    NetworkConnection(event.timestampNs, event.dataSize, 1, BaseConfidence(config, event))
  }

  function Destination(event: NetEvent): string { NetId(Dotted(event.daddr), event.dport) }

  /** Boosted by one more event, capped. */
  function Boost(confidence: real): real {
    if confidence + 0.05 <= 0.95 then confidence + 0.05 else 0.95
  }

  function Merge(edge: RuntimeEdge, event: NetEvent): RuntimeEdge
    requires edge.NetworkConnection?
  {
    edge.(totalBytes := edge.totalBytes + event.dataSize, eventCount := edge.eventCount + 1,
          confidence := Boost(edge.confidence))
  }

  /** The edge a collapsed event is merged into, if both ends are known and some edge joins them. */
  function MergeTarget(env: Environment, g: Graph, pid: nat, event: NetEvent): Option<nat> {
    if ProcId(pid) in g.index && Destination(event) in g.index then
      env.findEdge(g.edges, g.index[ProcId(pid)], g.index[Destination(event)])
    else None
  }

  function AggregateNetworkEvent(env: Environment, g: Graph, pid: nat, event: NetEvent): Graph
    requires Sound(env)
  {
    match MergeTarget(env, g, pid, event)
    case None => g
    case Some(k) =>
      assert Finds(g.edges, g.index[ProcId(pid)], g.index[Destination(event)], Some(k));
      var old_edge := g.edges[k];
      if old_edge.weight.NetworkConnection? then
        g.(edges := g.edges[k := old_edge.(weight := Merge(old_edge.weight, event))],
           queue := g.queue + [EdgeUpdated(ProcId(pid), Destination(event), event.dataSize)])
      else g
  }

  function Attempt(config: AttackGraphConfig, load: LibraryLoad, event: NetEvent): RuntimeEdge
    requires load.timestampNs <= event.timestampNs
  {
    ExploitationAttempt(BaseConfidence(config, event) * 0.8,
                        "Library " + load.path + " loaded "
                        + Decimal((event.timestampNs - load.timestampNs) / 1_000_000_000)
                        + "s before network activity")
  }

  predicate Correlates(config: AttackGraphConfig, load: LibraryLoad, event: NetEvent) {
    Within(load.timestampNs, event.timestampNs, WindowNs(config.mmapWindowSecs))
  }

  /** Edges `correlate_with_libraries` adds for a prefix of the process's loads. */
  function Attempts(config: AttackGraphConfig, index: map<string, nat>, loads: seq<LibraryLoad>, net: nat,
                    event: NetEvent)
    : seq<GraphEdge>
  {
    if loads == [] then []
    else
      var rest := Attempts(config, index, loads[..|loads| - 1], net, event);
      var load := loads[|loads| - 1];
      if Correlates(config, load, event) && LibId(load.path) in index then
        rest + [GraphEdge(index[LibId(load.path)], net, Attempt(config, load, event))]
      else rest
  }

  function ProcessNetworkEvent(env: Environment, g: Graph, pid: nat, name: string, cgroupId: nat,
                               event: NetEvent): Graph
    requires Sound(env)
  {
    if Collapses(env, g, pid, event) then
      var g' := AggregateNetworkEvent(env, g, pid, event);
      g'.(burstsCollapsed := g'.burstsCollapsed + 1)
    else
      RecordConnection(env.config, g, pid, name, cgroupId, event)
  }

  function RecordConnection(config: AttackGraphConfig, g: Graph, pid: nat, name: string, cgroupId: nat,
                            event: NetEvent): Graph {
    var g0 := g.(lastNetwork := g.lastNetwork[(pid, event.dport) := event.timestampNs]);
    var (g1, p) := AddNode(g0, Process(pid, name, cgroupId));
    var (g2, n) := AddNode(g1, Network(Dotted(event.daddr), event.dport, Protocol(event.kind)));
    var edge := Connection(config, event);
    g2.(edges := g2.edges + [GraphEdge(p, n, edge)] + Attempts(config, g2.index, LoadsOf(g2, pid), n, event),
        queue := g2.queue + [EdgeAdded(ProcId(pid), Destination(event), edge)])
  }

  /** Edges `associate_cve_with_library` adds for a prefix of the nodes. */
  function VulnerableEdges(env: Environment, nodes: seq<RuntimeNode>, vuln: nat, package: string): seq<GraphEdge> {
    if nodes == [] then []
    else
      var last := |nodes| - 1;
      var rest := VulnerableEdges(env, nodes[..last], vuln, package);
      if nodes[last].Library? && env.matches(nodes[last].path, package) then
        rest + [GraphEdge(vuln, last, Vulnerable(0.95))]
      else rest
  }

  function AssociateCveWithLibrary(env: Environment, g: Graph, cveId: string, package: string, cvss: real, epss: real,
                                   kev: bool)
    : Graph
  {
    var (g1, v) := AddNode(g, Vulnerability(cveId, package, cvss, epss, kev));
    g1.(edges := g1.edges + VulnerableEdges(env, g1.nodes, v, package))
  }

  function DrainUpdates(g: Graph): Graph {
    g.(queue := [], drained := g.drained + g.queue)
  }

  datatype Op =
    | Load(pid: nat, name: string, cgroupId: nat, path: string, timestampNs: nat)
    | Net(pid: nat, name: string, cgroupId: nat, event: NetEvent)
    | Associate(cveId: string, package: string, cvss: real, epss: real, kev: bool)
    | Drain

  function Step(env: Environment, g: Graph, op: Op): Graph
    requires Sound(env)
  {
    match op
    case Load(pid, name, cgroupId, path, t) => ProcessLibraryLoad(g, pid, name, cgroupId, path, t)
    case Net(pid, name, cgroupId, event) => ProcessNetworkEvent(env, g, pid, name, cgroupId, event)
    case Associate(cveId, package, cvss, epss, kev) => AssociateCveWithLibrary(env, g, cveId, package, cvss, epss, kev)
    case Drain => DrainUpdates(g)
  }

  /** The graph after a run of operations from the empty graph. */
  function After(env: Environment, ops: seq<Op>): Graph
    requires Sound(env)
  {
    if ops == [] then EMPTY else Step(env, After(env, ops[..|ops| - 1]), ops[|ops| - 1])
  }

  // ---- well-formedness and the identifier view -------------------------------------------

  ghost predicate IndexMatches(nodes: seq<RuntimeNode>, index: map<string, nat>) {
    && (forall i | 0 <= i < |nodes| :: NodeId(nodes[i]) in index && index[NodeId(nodes[i])] == i)
    && (forall id | id in index :: index[id] < |nodes| && NodeId(nodes[index[id]]) == id)
  }

  predicate Typed(src: RuntimeNode, dst: RuntimeNode, weight: RuntimeEdge) {
    match weight
    case LibraryLoaded(_, _) => src.Process? && dst.Library?
    case NetworkConnection(_, _, _, _) => src.Process? && dst.Network?
    case Vulnerable(_) => src.Vulnerability? && dst.Library?
    case ExploitationAttempt(_, _) => src.Library? && dst.Network?
    case ProcessCreated(_, _) => false
    case UsesTechnique(_) => false
  }

  ghost predicate EdgesTyped(nodes: seq<RuntimeNode>, edges: seq<GraphEdge>) {
    forall k | 0 <= k < |edges| ::
      edges[k].src < |nodes| && edges[k].dst < |nodes| &&
      Typed(nodes[edges[k].src], nodes[edges[k].dst], edges[k].weight)
  }

  ghost predicate LoadsIndexed(loads: map<nat, seq<LibraryLoad>>, index: map<string, nat>) {
    forall pid, i | pid in loads && 0 <= i < |loads[pid]| :: LibId(loads[pid][i].path) in index
  }

  ghost predicate WellFormed(g: Graph) {
    IndexMatches(g.nodes, g.index) && EdgesTyped(g.nodes, g.edges) && LoadsIndexed(g.loads, g.index)
  }

  /** An edge as the public `edges()` listing shows it: by identifiers. */
  datatype EdgeView = EdgeView(from: string, to: string, weight: RuntimeEdge)

  ghost function ViewEdge(nodes: seq<RuntimeNode>, e: GraphEdge): EdgeView
    requires e.src < |nodes| && e.dst < |nodes|
  {
    EdgeView(NodeId(nodes[e.src]), NodeId(nodes[e.dst]), e.weight)
  }

  ghost function ViewOf(nodes: seq<RuntimeNode>, edges: seq<GraphEdge>): seq<EdgeView>
    requires EdgesTyped(nodes, edges)
  {
    seq(|edges|, k requires 0 <= k < |edges| => ViewEdge(nodes, edges[k]))
  }

  ghost function View(g: Graph): seq<EdgeView>
    requires WellFormed(g)
  {
    ViewOf(g.nodes, g.edges)
  }

  /** `add_node` keeps the index exact, reuses an indexed entity, and never moves a node. */
  lemma AddNodeKeepsIndex(g: Graph, node: RuntimeNode)
    requires WellFormed(g)
    ensures var (g', i) := AddNode(g, node);
      && WellFormed(g') && g.nodes <= g'.nodes && g' == g.(nodes := g'.nodes, index := g'.index)
      && View(g') == View(g)
      && i < |g'.nodes| && NodeId(g'.nodes[i]) == NodeId(node) && SameEntity(g'.nodes[i], node)
      && NodeId(node) in g'.index && g'.index[NodeId(node)] == i
      && (forall id | id in g.index :: id in g'.index && g'.index[id] == g.index[id])
  {
    var (g', i) := AddNode(g, node);
    assert forall k | 0 <= k < |g.nodes| :: g'.nodes[k] == g.nodes[k];
    NodeIdInjective(g'.nodes[i], node);
  }

  function AddNodes(g: Graph, a: RuntimeNode, b: RuntimeNode): (Graph, nat, nat) {
    var (g1, i) := AddNode(g, a);
    var (g2, j) := AddNode(g1, b);
    (g2, i, j)
  }

  lemma AddNodesKeepIndex(g: Graph, a: RuntimeNode, b: RuntimeNode)
    requires WellFormed(g)
    ensures var (g', i, j) := AddNodes(g, a, b);
      && WellFormed(g') && g.nodes <= g'.nodes && g' == g.(nodes := g'.nodes, index := g'.index)
      && View(g') == View(g)
      && i < |g'.nodes| && NodeId(g'.nodes[i]) == NodeId(a) && SameEntity(g'.nodes[i], a)
      && j < |g'.nodes| && NodeId(g'.nodes[j]) == NodeId(b) && SameEntity(g'.nodes[j], b)
      && NodeId(b) in g'.index
      && (forall id | id in g.index :: id in g'.index)
  {
    AddNodeKeepsIndex(g, a);
    AddNodeKeepsIndex(AddNode(g, a).0, b);
  }

  lemma AppendEdges(g: Graph, more: seq<GraphEdge>)
    requires WellFormed(g) && EdgesTyped(g.nodes, more)
    ensures WellFormed(g.(edges := g.edges + more))
    ensures View(g.(edges := g.edges + more)) == View(g) + ViewOf(g.nodes, more)
  {
  }
}
