/**
 Attack paths: what the triple loop of path construction collects from the graph, and exactly
 which findings pass the enforcement gate.
 */
module AttackPaths {
  import opened NodeIdentity
  import opened AttackGraph

  datatype Finding = Finding(cve: string, package: string, cvss: real, epss: real, kev: bool, reachable: bool,
                             score: real)

  datatype PathEdge = PathEdge(src: nat, dst: nat, weight: RuntimeEdge)

  datatype SignalType = VulnerabilitySignal | LibraryLoadedSignal | NetworkSignal

  /** The vectors a path is built in. */
  datatype Draft = Draft(nodes: seq<RuntimeNode>, edges: seq<PathEdge>, indicators: seq<string>,
                         signals: set<SignalType>, totalBytes: nat)

  datatype AttackPath = AttackPath(
    nodes: seq<RuntimeNode>,
    edges: seq<PathEdge>,
    confidence: real,
    riskScore: real,
    timeWindowSecs: nat,
    indicators: seq<string>,
    depth: nat,
    signalTypes: set<SignalType>,
    totalBytes: nat)

  // ---- construction, one function per loop -------------------------------------------------

  predicate HasId(nodes: seq<RuntimeNode>, id: string) {
    exists i | 0 <= i < |nodes| :: NodeId(nodes[i]) == id
  }

  /** The line a pushed node adds to the indicators. */
  function Indicated(node: RuntimeNode, w: RuntimeEdge): seq<string> {
    if w.Vulnerable? then ["Vulnerable library: " + NodeId(node)]
    else if w.NetworkConnection? then ["Network: " + Decimal(w.totalBytes) + " bytes to " + NodeId(node)]
    else []
  }

  function PushConnection(d: Draft, node: RuntimeNode, w: RuntimeEdge): Draft
    requires w.NetworkConnection?
  {
    Draft(d.nodes + [node], d.edges + [PathEdge(if d.nodes == [] then 0 else |d.nodes| - 1, |d.nodes|, w)],
          d.indicators + Indicated(node, w), d.signals + {NetworkSignal}, d.totalBytes + w.totalBytes)
  }

  function PushProcess(d: Draft, node: RuntimeNode, w: RuntimeEdge): Draft {
    if HasId(d.nodes, NodeId(node)) then d
    else Draft(d.nodes + [node], d.edges + [PathEdge(if d.nodes == [] then 0 else |d.nodes| - 1, |d.nodes|, w)],
               d.indicators, d.signals + {LibraryLoadedSignal}, d.totalBytes)
  }

  function PushLibrary(d: Draft, node: RuntimeNode): Draft {
    Draft(d.nodes + [node], d.edges + [PathEdge(0, |d.nodes|, Vulnerable(0.95))],
          d.indicators + Indicated(node, Vulnerable(0.95)), d.signals + {VulnerabilitySignal}, d.totalBytes)
  }

  function Last(list: seq<nat>): (k: nat)
    requires list != []
    ensures k in list
  {
    list[|list| - 1]
  }

  function Init(list: seq<nat>): (rest: seq<nat>)
    requires list != []
    ensures rest == list[..|list| - 1] && forall k :: k in list <==> k in rest || k == Last(list)
  {
    assert list == list[..|list| - 1] + [list[|list| - 1]];
    list[..|list| - 1]
  }

  /** Indices of edges of this graph. */
  predicate Indices(g: Graph, list: seq<nat>) {
    forall k | k in list :: k < |g.edges| && g.edges[k].src < |g.nodes| && g.edges[k].dst < |g.nodes|
  }

  /** Innermost loop: the connections among a process's outgoing edges. */
  function AddConnections(g: Graph, d: Draft, list: seq<nat>): Draft
    requires Indices(g, list)
  {
    if list == [] then d
    else
      var e := g.edges[Last(list)];
      var d' := AddConnections(g, d, Init(list));
      if e.weight.NetworkConnection? then PushConnection(d', g.nodes[e.dst], e.weight) else d'
  }

  /** Middle loop: the processes among a library's incoming loads, each with its connections. */
  function AddProcesses(env: Environment, g: Graph, d: Draft, list: seq<nat>): Draft
    requires Sound(env) && WellFormed(g) && Indices(g, list)
  {
    if list == [] then d
    else
      var e := g.edges[Last(list)];
      var d' := AddProcesses(env, g, d, Init(list));
      if e.weight.LibraryLoaded? then
        OutgoingIsIndices(env, g, e.src);
        AddConnections(g, PushProcess(d', g.nodes[e.src], e.weight), env.outgoing(g.edges, e.src))
      else d'
  }

  /** Outer loop: the libraries among the vulnerability's outgoing edges, each with its processes. */
  function AddLibraries(env: Environment, g: Graph, d: Draft, list: seq<nat>): Draft
    requires Sound(env) && WellFormed(g) && Indices(g, list)
  {
    if list == [] then d
    else
      var e := g.edges[Last(list)];
      var d' := AddLibraries(env, g, d, Init(list));
      if e.weight.Vulnerable? then
        IncomingIsIndices(env, g, e.dst);
        AddProcesses(env, g, PushLibrary(d', g.nodes[e.dst]), env.incoming(g.edges, e.dst))
      else d'
  }

  lemma OutgoingIsIndices(env: Environment, g: Graph, v: nat)
    requires Sound(env) && WellFormed(g)
    ensures Indices(g, env.outgoing(g.edges, v))
    ensures forall k: nat :: k in env.outgoing(g.edges, v) <==> k < |g.edges| && g.edges[k].src == v
    ensures NoRepeats(env.outgoing(g.edges, v))
  {
    assert ListsOutgoing(g.edges, v, env.outgoing(g.edges, v));
  }

  lemma IncomingIsIndices(env: Environment, g: Graph, v: nat)
    requires Sound(env) && WellFormed(g)
    ensures Indices(g, env.incoming(g.edges, v))
    ensures forall k: nat :: k in env.incoming(g.edges, v) <==> k < |g.edges| && g.edges[k].dst == v
    ensures NoRepeats(env.incoming(g.edges, v))
  {
    assert ListsIncoming(g.edges, v, env.incoming(g.edges, v));
  }

  function StartOf(f: Finding): Draft {
    Draft([Vulnerability(f.cve, f.package, f.cvss, f.epss, f.kev)], [], [], {}, 0)
  }

  function DraftFor(env: Environment, g: Graph, f: Finding): Draft
    requires Sound(env) && WellFormed(g)
  {
    if VulnId(f.cve) in g.index then
      OutgoingIsIndices(env, g, g.index[VulnId(f.cve)]);
      AddLibraries(env, g, StartOf(f), env.outgoing(g.edges, g.index[VulnId(f.cve)]))
    else StartOf(f)
  }

  predicate HasLoad(edges: seq<PathEdge>) { exists i | 0 <= i < |edges| :: edges[i].weight.LibraryLoaded? }
  predicate HasConnection(edges: seq<PathEdge>) { exists i | 0 <= i < |edges| :: edges[i].weight.NetworkConnection? }
  predicate HasStrong(edges: seq<PathEdge>) {
    exists i | 0 <= i < |edges| :: edges[i].weight.NetworkConnection? && edges[i].weight.confidence >= 0.9
  }

  function Clamp(x: real): real { if x < 0.0 then 0.0 else if x > 1.0 then 1.0 else x }

  function PathConfidence(d: Draft, f: Finding): real {
    var n := |d.nodes|;
    Clamp(0.3
          + (if n >= 4 then 0.2 else if n >= 3 then 0.1 else 0.0)
          + (if HasLoad(d.edges) && HasConnection(d.edges) then 0.2 else 0.0)
          + (if f.kev then 0.15 else 0.0)
          + (if f.epss >= 0.7 then 0.1 else 0.0)
          - (if n < 3 then 0.2 else 0.0)
          - (if !HasStrong(d.edges) && d.edges != [] then 0.1 else 0.0))
  }

  function RiskScore(score: real, n: nat): real {
    var scale := n as real * 0.2;
    score * (if scale <= 1.0 then scale else 1.0)
  }

  function PathFor(env: Environment, g: Graph, f: Finding): AttackPath
    requires Sound(env) && WellFormed(g)
  {
    var d := DraftFor(env, g, f);
    AttackPath(d.nodes, d.edges, PathConfidence(d, f), RiskScore(f.score, |d.nodes|),
               env.config.mmapWindowSecs, d.indicators, |d.nodes|, d.signals, d.totalBytes)
  }

  predicate MeetsEnforcementCriteria(p: AttackPath, config: AttackGraphConfig) {
    p.depth >= config.minEnforcementDepth && p.confidence >= config.minEnforcementConfidence && |p.signalTypes| >= 2
  }

  function EnforceablePaths(env: Environment, g: Graph, findings: seq<Finding>): seq<AttackPath>
    requires Sound(env) && WellFormed(g)
  {
    if findings == [] then []
    else
      var f := findings[|findings| - 1];
      var rest := EnforceablePaths(env, g, findings[..|findings| - 1]);
      if f.reachable && MeetsEnforcementCriteria(PathFor(env, g, f), env.config) then rest + [PathFor(env, g, f)]
      else rest
  }

  // ---- every node of a path is justified by an edge of the graph ---------------------------

  /** Some graph edge of the wanted kind runs from `a` to `b`, told apart by identity. */
  ghost predicate Backed(g: Graph, a: RuntimeNode, b: RuntimeNode, k: nat) {
    && k < |g.edges| && g.edges[k].src < |g.nodes| && g.edges[k].dst < |g.nodes|
    && SameEntity(g.nodes[g.edges[k].src], a) && SameEntity(g.nodes[g.edges[k].dst], b)
  }

  ghost predicate Justified(g: Graph, nodes: seq<RuntimeNode>, i: nat)
    requires i < |nodes|
  {
    match nodes[i]
    case Library(_, _) => exists k: nat :: Backed(g, nodes[0], nodes[i], k) && g.edges[k].weight.Vulnerable?
    case Process(_, _, _) =>
      exists j: nat, k: nat :: j < i && Backed(g, nodes[i], nodes[j], k) && g.edges[k].weight.LibraryLoaded?
    case Network(_, _, _) =>
      exists j: nat, k: nat :: j < i && Backed(g, nodes[j], nodes[i], k) && g.edges[k].weight.NetworkConnection?
    case _ => false
  }

  datatype PathMeasure = ConnectionTotal | ByteTotal

  function Worth(m: PathMeasure, w: RuntimeEdge): nat {
    if w.NetworkConnection? then (if m == ByteTotal then w.totalBytes else 1) else 0
  }

  /** The connections on a list of path edges, or their bytes. */
  function PathWorth(m: PathMeasure, edges: seq<PathEdge>): nat {
    if edges == [] then 0 else PathWorth(m, edges[..|edges| - 1]) + Worth(m, edges[|edges| - 1].weight)
  }

  /** The indicators a path tells: a line for each library and each connection, in path order. */
  function Told(nodes: seq<RuntimeNode>, edges: seq<PathEdge>): seq<string>
    requires |nodes| == |edges|
  {
    if edges == [] then []
    else
      var n := |edges| - 1;
      Told(nodes[..n], edges[..n]) +
      match edges[n].weight
      case Vulnerable(_) => ["Vulnerable library: " + NodeId(nodes[n])]
      case NetworkConnection(_, bytes, _, _) => ["Network: " + Decimal(bytes) + " bytes to " + NodeId(nodes[n])]
      case _ => []
  }

  predicate Fits(w: RuntimeEdge, node: RuntimeNode) {
    match node
    case Library(_, _) => w.Vulnerable?
    case Process(_, _, _) => w.LibraryLoaded?
    case Network(_, _, _) => w.NetworkConnection?
    case _ => false
  }

  function SignalOf(node: RuntimeNode): SignalType {
    if node.Library? then VulnerabilitySignal else if node.Process? then LibraryLoadedSignal else NetworkSignal
  }

  /** What construction keeps at every point of its three loops. */
  ghost predicate SoundDraft(g: Graph, d: Draft) {
    && |d.nodes| >= 1 && d.nodes[0].Vulnerability? && |d.edges| == |d.nodes| - 1
    && (forall i | 1 <= i < |d.nodes| :: d.nodes[i] in g.nodes)
    && (forall i {:trigger Justified(g, d.nodes, i)} | 1 <= i < |d.nodes| :: Justified(g, d.nodes, i))
    && (forall i | 1 <= i < |d.nodes| :: SignalOf(d.nodes[i]) in d.signals)
    && (forall i | 0 <= i < |d.edges| ::
      d.edges[i].src == (if d.nodes[i + 1].Library? then 0 else i) && d.edges[i].dst == i + 1
      && Fits(d.edges[i].weight, d.nodes[i + 1]))
    && (forall i, j | 0 <= i < j < |d.nodes| && d.nodes[i].Process? && d.nodes[j].Process? ::
      !SameEntity(d.nodes[i], d.nodes[j]))
  }

  lemma JustifiedStays(g: Graph, nodes: seq<RuntimeNode>, node: RuntimeNode, i: nat)
    requires i < |nodes| && Justified(g, nodes, i)
    ensures Justified(g, nodes + [node], i)
  {
    var more := nodes + [node];
    match nodes[i]
    case Library(_, _) =>
      var k: nat :| Backed(g, nodes[0], nodes[i], k) && g.edges[k].weight.Vulnerable?;
      assert Backed(g, more[0], more[i], k);
    case Process(_, _, _) =>
      var j: nat, k: nat :| j < i && Backed(g, nodes[i], nodes[j], k) && g.edges[k].weight.LibraryLoaded?;
      assert Backed(g, more[i], more[j], k);
    case Network(_, _, _) =>
      var j: nat, k: nat :| j < i && Backed(g, nodes[j], nodes[i], k) && g.edges[k].weight.NetworkConnection?;
      assert Backed(g, more[j], more[i], k);
    case _ =>
  }

  /** Pushing a justified node, with an edge into it, keeps a draft sound. */
  lemma PushKeepsSound(g: Graph, d: Draft, d': Draft, node: RuntimeNode, e: PathEdge)
    requires SoundDraft(g, d) && node in g.nodes
    requires d'.nodes == d.nodes + [node] && d'.edges == d.edges + [e]
    requires e.src == (if node.Library? then 0 else |d.nodes| - 1) && e.dst == |d.nodes| && Fits(e.weight, node) &&
      d'.signals == d.signals + {SignalOf(node)}
    requires Justified(g, d'.nodes, |d.nodes|)
    requires node.Process? ==> !HasId(d.nodes, NodeId(node))
    ensures SoundDraft(g, d')
  {
    AllJustifiedStay(g, d.nodes, node);
    if node.Process? { UnknownIdIsNew(d.nodes, node); }
  }

  lemma AllJustifiedStay(g: Graph, nodes: seq<RuntimeNode>, node: RuntimeNode)
    requires forall i {:trigger Justified(g, nodes, i)} | 1 <= i < |nodes| :: Justified(g, nodes, i)
    requires Justified(g, nodes + [node], |nodes|)
    ensures forall i {:trigger Justified(g, nodes + [node], i)} | 1 <= i < |nodes| + 1 ::
      Justified(g, nodes + [node], i)
  {
    forall i | 1 <= i < |nodes| ensures Justified(g, nodes + [node], i) {
      JustifiedStays(g, nodes, node, i);
    }
  }

  lemma UnknownIdIsNew(nodes: seq<RuntimeNode>, node: RuntimeNode)
    requires !HasId(nodes, NodeId(node))
    ensures forall i | 0 <= i < |nodes| :: !SameEntity(nodes[i], node)
  {
    forall i | 0 <= i < |nodes| ensures !SameEntity(nodes[i], node) { NodeIdInjective(nodes[i], node); }
  }

  lemma ConnectionKeepsSound(g: Graph, d: Draft, k: nat)
    requires WellFormed(g) && SoundDraft(g, d) && k < |g.edges| && g.edges[k].weight.NetworkConnection?
    requires g.nodes[g.edges[k].src] in d.nodes
    ensures SoundDraft(g, PushConnection(d, g.nodes[g.edges[k].dst], g.edges[k].weight))
  {
    var e := g.edges[k];
    var node := g.nodes[e.dst];
    var j :| 0 <= j < |d.nodes| && d.nodes[j] == g.nodes[e.src];
    assert Backed(g, (d.nodes + [node])[j], node, k);
    PushKeepsSound(g, d, PushConnection(d, node, e.weight), node, PathEdge(|d.nodes| - 1, |d.nodes|, e.weight));
  }

  lemma {:induction false} ConnectionsKeepSound(g: Graph, d: Draft, list: seq<nat>, p: nat)
    requires WellFormed(g) && Indices(g, list) && SoundDraft(g, d)
    requires forall k | k in list :: g.edges[k].src == p
    requires p < |g.nodes| && g.nodes[p] in d.nodes
    ensures SoundDraft(g, AddConnections(g, d, list)) && d.nodes <= AddConnections(g, d, list).nodes
  {
    if list != [] {
      var k := Last(list);
      ConnectionsKeepSound(g, d, Init(list), p);
      if g.edges[k].weight.NetworkConnection? {
        ConnectionKeepsSound(g, AddConnections(g, d, Init(list)), k);
      }
    }
  }

  /** In a sound draft, a node with a process's identifier is that very node of the graph. */
  lemma IdFindsNode(g: Graph, d: Draft, p: nat)
    requires WellFormed(g) && SoundDraft(g, d) && p < |g.nodes| && g.nodes[p].Process?
    ensures HasId(d.nodes, NodeId(g.nodes[p])) <==> g.nodes[p] in d.nodes
  {
    if HasId(d.nodes, NodeId(g.nodes[p])) {
      var i :| 0 <= i < |d.nodes| && NodeId(d.nodes[i]) == NodeId(g.nodes[p]);
      NodeIdInjective(d.nodes[i], g.nodes[p]);
      assert d.nodes[i] in g.nodes;
      var q :| 0 <= q < |g.nodes| && g.nodes[q] == d.nodes[i];
      assert q == g.index[NodeId(g.nodes[q])] == p;
    }
  }

  lemma ProcessKeepsSound(g: Graph, d: Draft, k: nat)
    requires WellFormed(g) && SoundDraft(g, d) && k < |g.edges| && g.edges[k].weight.LibraryLoaded?
    requires g.nodes[g.edges[k].dst] in d.nodes
    ensures var d' := PushProcess(d, g.nodes[g.edges[k].src], g.edges[k].weight);
      SoundDraft(g, d') && d.nodes <= d'.nodes && g.nodes[g.edges[k].src] in d'.nodes
  {
    if HasId(d.nodes, NodeId(g.nodes[g.edges[k].src])) {
      IdFindsNode(g, d, g.edges[k].src);
    } else {
      NewProcessKeepsSound(g, d, k);
    }
  }

  lemma NewProcessKeepsSound(g: Graph, d: Draft, k: nat)
    requires WellFormed(g) && SoundDraft(g, d) && k < |g.edges| && g.edges[k].weight.LibraryLoaded?
    requires g.nodes[g.edges[k].dst] in d.nodes && !HasId(d.nodes, NodeId(g.nodes[g.edges[k].src]))
    ensures var d' := PushProcess(d, g.nodes[g.edges[k].src], g.edges[k].weight);
      SoundDraft(g, d') && d.nodes <= d'.nodes && g.nodes[g.edges[k].src] in d'.nodes
  {
    var e := g.edges[k];
    var node := g.nodes[e.src];
    var j :| 0 <= j < |d.nodes| && d.nodes[j] == g.nodes[e.dst];
    assert Backed(g, node, (d.nodes + [node])[j], k);
    PushKeepsSound(g, d, PushProcess(d, node, e.weight), node, PathEdge(|d.nodes| - 1, |d.nodes|, e.weight));
    assert (d.nodes + [node])[|d.nodes|] == node;
  }

  lemma {:induction false} ProcessesKeepSound(env: Environment, g: Graph, d: Draft, list: seq<nat>, l: nat)
    requires Sound(env) && WellFormed(g) && Indices(g, list) && SoundDraft(g, d)
    requires forall k | k in list :: g.edges[k].dst == l
    requires l < |g.nodes| && g.nodes[l] in d.nodes
    ensures SoundDraft(g, AddProcesses(env, g, d, list)) && d.nodes <= AddProcesses(env, g, d, list).nodes
  {
    if list != [] {
      var k := Last(list);
      var e := g.edges[k];
      ProcessesKeepSound(env, g, d, Init(list), l);
      var d' := AddProcesses(env, g, d, Init(list));
      if e.weight.LibraryLoaded? {
        assert g.nodes[e.dst] in d'.nodes;
        ProcessKeepsSound(g, d', k);
        OutgoingIsIndices(env, g, e.src);
        ConnectionsKeepSound(g, PushProcess(d', g.nodes[e.src], e.weight), env.outgoing(g.edges, e.src), e.src);
      }
    }
  }

  lemma {:induction false} LibrariesKeepSound(env: Environment, g: Graph, d: Draft, list: seq<nat>, v: nat)
    requires Sound(env) && WellFormed(g) && Indices(g, list) && SoundDraft(g, d)
    requires v < |g.nodes| && SameEntity(g.nodes[v], d.nodes[0])
    requires forall k | k in list :: g.edges[k].src == v
    ensures SoundDraft(g, AddLibraries(env, g, d, list)) && d.nodes <= AddLibraries(env, g, d, list).nodes
  {
    if list != [] {
      var k := Last(list);
      var e := g.edges[k];
      LibrariesKeepSound(env, g, d, Init(list), v);
      var d' := AddLibraries(env, g, d, Init(list));
      if e.weight.Vulnerable? {
        var node := g.nodes[e.dst];
        var pushed := PushLibrary(d', node);
        assert Backed(g, pushed.nodes[0], node, k);
        PushKeepsSound(g, d', pushed, node, PathEdge(0, |d'.nodes|, Vulnerable(0.95)));
        assert pushed.nodes[|d'.nodes|] == node;
        IncomingIsIndices(env, g, e.dst);
        ProcessesKeepSound(env, g, pushed, env.incoming(g.edges, e.dst), e.dst);
      }
    }
  }

  // ---- bytes and indicators follow nodes and edges -----------------------------------------

  lemma WorthOneMore(m: PathMeasure, edges: seq<PathEdge>, e: PathEdge)
    ensures PathWorth(m, edges + [e]) == PathWorth(m, edges) + Worth(m, e.weight)
  {
    assert (edges + [e])[..|edges|] == edges;
  }

  lemma ToldOneMore(nodes: seq<RuntimeNode>, edges: seq<PathEdge>, node: RuntimeNode, e: PathEdge)
    requires |nodes| == |edges|
    ensures Told(nodes + [node], edges + [e]) == Told(nodes, edges) + Indicated(node, e.weight)
  {
    assert (nodes + [node])[..|edges|] == nodes && (edges + [e])[..|edges|] == edges;
  }

  /** The signal that an edge of a path stands for. */
  function SignalFor(w: RuntimeEdge): SignalType {
    if w.Vulnerable? then VulnerabilitySignal else if w.LibraryLoaded? then LibraryLoadedSignal else NetworkSignal
  }

  /** The node is the path's side of a graph edge, and the weight is that edge's. */
  ghost predicate Carries(g: Graph, node: RuntimeNode, w: RuntimeEdge) {
    exists k: nat :: k < |g.edges| && g.edges[k].src < |g.nodes| && g.edges[k].dst < |g.nodes|
      && node == g.nodes[if w.LibraryLoaded? then g.edges[k].src else g.edges[k].dst]
      && if w.Vulnerable? then g.edges[k].weight.Vulnerable? && w == Vulnerable(0.95) else g.edges[k].weight == w
  }

  ghost predicate AllCarried(g: Graph, nodes: seq<RuntimeNode>, edges: seq<PathEdge>) {
    |nodes| == |edges| && forall i | 0 <= i < |edges| :: Carries(g, nodes[i], edges[i].weight)
  }

  /**
   One edge into each node after the first, with the weight of the graph edge it stands for; bytes,
   indicators and signals are those of the nodes and edges.
   */
  ghost predicate Accounts(g: Graph, d: Draft) {
    && |d.nodes| == |d.edges| + 1
    && d.totalBytes == PathWorth(ByteTotal, d.edges) && d.indicators == Told(d.nodes[1..], d.edges)
    && (forall s :: s in d.signals <==> exists i | 0 <= i < |d.edges| :: SignalFor(d.edges[i].weight) == s)
    && AllCarried(g, d.nodes[1..], d.edges)
  }

  lemma PushKeepsAccounts(g: Graph, d: Draft, d': Draft, node: RuntimeNode, e: PathEdge)
    requires Accounts(g, d) && d'.nodes == d.nodes + [node] && d'.edges == d.edges + [e] && Carries(g, node, e.weight)
    requires d'.totalBytes == d.totalBytes + Worth(ByteTotal, e.weight)
    requires d'.indicators == d.indicators + Indicated(node, e.weight)
    requires d'.signals == d.signals + {SignalFor(e.weight)}
    ensures Accounts(g, d')
  {
    WorthOneMore(ByteTotal, d.edges, e);
    ToldOneMore(d.nodes[1..], d.edges, node, e);
    SignalsOneMore(d.edges, d.signals, e);
    CarriedOneMore(g, d.nodes[1..], d.edges, node, e);
    assert d'.nodes[1..] == d.nodes[1..] + [node];
  }

  lemma CarriedOneMore(g: Graph, nodes: seq<RuntimeNode>, edges: seq<PathEdge>, node: RuntimeNode, e: PathEdge)
    requires AllCarried(g, nodes, edges) && Carries(g, node, e.weight)
    ensures AllCarried(g, nodes + [node], edges + [e])
  {
  }

  lemma SignalsOneMore(edges: seq<PathEdge>, signals: set<SignalType>, e: PathEdge)
    requires forall s :: s in signals <==> exists i | 0 <= i < |edges| :: SignalFor(edges[i].weight) == s
    ensures var more := edges + [e];
      forall s :: s in signals + {SignalFor(e.weight)} <==> exists i | 0 <= i < |more| :: SignalFor(more[i].weight) == s
  {
    var more := edges + [e];
    assert more[|edges|] == e && forall i | 0 <= i < |edges| :: more[i] == edges[i];
  }

  lemma {:induction false} ConnectionsKeepAccounts(g: Graph, d: Draft, list: seq<nat>)
    requires Indices(g, list) && Accounts(g, d)
    ensures Accounts(g, AddConnections(g, d, list))
    decreases |list|
  {
    if list != [] {
      var e := g.edges[Last(list)];
      var d' := AddConnections(g, d, Init(list));
      ConnectionsKeepAccounts(g, d, Init(list));
      if e.weight.NetworkConnection? {
        var node := g.nodes[e.dst];
        assert Carries(g, node, e.weight);
        PushKeepsAccounts(g, d', PushConnection(d', node, e.weight), node,
          PathEdge(|d'.nodes| - 1, |d'.nodes|, e.weight));
      }
    }
  }

  lemma {:induction false} ProcessesKeepAccounts(env: Environment, g: Graph, d: Draft, list: seq<nat>)
    requires Sound(env) && WellFormed(g) && Indices(g, list) && Accounts(g, d)
    ensures Accounts(g, AddProcesses(env, g, d, list))
    decreases |list|
  {
    if list != [] {
      var e := g.edges[Last(list)];
      var d' := AddProcesses(env, g, d, Init(list));
      ProcessesKeepAccounts(env, g, d, Init(list));
      if e.weight.LibraryLoaded? {
        var node := g.nodes[e.src];
        assert Carries(g, node, e.weight);
        var pushed := PushProcess(d', node, e.weight);
        if pushed != d' { PushKeepsAccounts(g, d', pushed, node, PathEdge(|d'.nodes| - 1, |d'.nodes|, e.weight)); }
        OutgoingIsIndices(env, g, e.src);
        ConnectionsKeepAccounts(g, pushed, env.outgoing(g.edges, e.src));
      }
    }
  }

  lemma {:induction false} LibrariesKeepAccounts(env: Environment, g: Graph, d: Draft, list: seq<nat>)
    requires Sound(env) && WellFormed(g) && Indices(g, list) && Accounts(g, d)
    ensures Accounts(g, AddLibraries(env, g, d, list))
    decreases |list|
  {
    if list != [] {
      var e := g.edges[Last(list)];
      var d' := AddLibraries(env, g, d, Init(list));
      LibrariesKeepAccounts(env, g, d, Init(list));
      if e.weight.Vulnerable? {
        var node := g.nodes[e.dst];
        assert Carries(g, node, Vulnerable(0.95));
        PushKeepsAccounts(g, d', PushLibrary(d', node), node, PathEdge(0, |d'.nodes|, Vulnerable(0.95)));
        IncomingIsIndices(env, g, e.dst);
        ProcessesKeepAccounts(env, g, PushLibrary(d', node), env.incoming(g.edges, e.dst));
      }
    }
  }

  /**
   For every graph and finding, the path starts at the vulnerability; each further node is a graph
   node backed by a Vulnerable, LibraryLoaded or NetworkConnection edge to another node of the path;
   edges point forward, one into each node; no process occurs twice; bytes are the connections' sum;
   the indicators tell its libraries and connections in order, the signals its kinds of edges, and each
   edge has the weight of the graph edge it stands for.
   */
  lemma PathIsJustified(env: Environment, g: Graph, f: Finding)
    requires Sound(env) && WellFormed(g)
    ensures SoundDraft(g, DraftFor(env, g, f)) && StartOf(f).nodes <= DraftFor(env, g, f).nodes
    ensures Accounts(g, DraftFor(env, g, f))
  {
    if VulnId(f.cve) in g.index {
      var v := g.index[VulnId(f.cve)];
      OutgoingIsIndices(env, g, v);
      NodeIdInjective(g.nodes[v], StartOf(f).nodes[0]);
      LibrariesKeepSound(env, g, StartOf(f), env.outgoing(g.edges, v), v);
      LibrariesKeepAccounts(env, g, StartOf(f), env.outgoing(g.edges, v));
    }
  }

  // ---- the path collects exactly the chains of the vulnerability ---------------------------

  /** A thing a path can hold: a node, or a connection with all its data. */
  datatype Item = NodeItem(node: RuntimeNode) | ConnectionItem(w: RuntimeEdge)

  ghost predicate Has(d: Draft, item: Item) {
    match item
    case NodeItem(n) => n in d.nodes
    case ConnectionItem(w) => w.NetworkConnection? && exists i :: 0 <= i < |d.edges| && d.edges[i].weight == w
  }

  predicate GivesConnection(g: Graph, k: nat, item: Item) {
    && k < |g.edges| && g.edges[k].dst < |g.nodes| && g.edges[k].weight.NetworkConnection?
    && (item == NodeItem(g.nodes[g.edges[k].dst]) || item == ConnectionItem(g.edges[k].weight))
  }

  ghost predicate ByConnection(g: Graph, p: nat, item: Item) {
    exists k: nat :: GivesConnection(g, k, item) && g.edges[k].src == p
  }

  ghost predicate GivesLoad(g: Graph, k: nat, item: Item) {
    && k < |g.edges| && g.edges[k].src < |g.nodes| && g.edges[k].weight.LibraryLoaded?
    && (item == NodeItem(g.nodes[g.edges[k].src]) || ByConnection(g, g.edges[k].src, item))
  }

  ghost predicate ByLoad(g: Graph, l: nat, item: Item) {
    exists k: nat :: GivesLoad(g, k, item) && g.edges[k].dst == l
  }

  ghost predicate GivesLibrary(g: Graph, k: nat, item: Item) {
    && k < |g.edges| && g.edges[k].dst < |g.nodes| && g.edges[k].weight.Vulnerable?
    && (item == NodeItem(g.nodes[g.edges[k].dst]) || ByLoad(g, g.edges[k].dst, item))
  }

  /** On a chain vulnerability, vulnerable library, process that loads it, connection of that process. */
  ghost predicate OnChain(g: Graph, v: nat, item: Item) {
    exists k: nat :: GivesLibrary(g, k, item) && g.edges[k].src == v
  }

  lemma PushHas(d: Draft, d': Draft, node: RuntimeNode, e: PathEdge, item: Item)
    requires d'.nodes == d.nodes + [node] && d'.edges == d.edges + [e]
    ensures Has(d', item) <==>
      Has(d, item) || item == NodeItem(node) || (e.weight.NetworkConnection? && item == ConnectionItem(e.weight))
  {
    assert d'.edges[|d.edges|] == e;
    assert forall i | 0 <= i < |d.edges| :: d'.edges[i] == d.edges[i];
  }

  lemma {:induction false} ConnectionsCollect(g: Graph, d: Draft, list: seq<nat>, item: Item)
    requires Indices(g, list)
    ensures Has(AddConnections(g, d, list), item) <==>
      Has(d, item) || exists k :: k in list && GivesConnection(g, k, item)
  {
    if list != [] {
      var e := g.edges[Last(list)];
      var d' := AddConnections(g, d, Init(list));
      ConnectionsCollect(g, d, Init(list), item);
      if e.weight.NetworkConnection? {
        PushHas(d', PushConnection(d', g.nodes[e.dst], e.weight), g.nodes[e.dst],
                PathEdge(if d'.nodes == [] then 0 else |d'.nodes| - 1, |d'.nodes|, e.weight), item);
      }
    }
  }

  lemma ProcessConnectionsCollect(env: Environment, g: Graph, d: Draft, p: nat, item: Item)
    requires Sound(env) && WellFormed(g)
    ensures Indices(g, env.outgoing(g.edges, p))
    ensures Has(AddConnections(g, d, env.outgoing(g.edges, p)), item) <==> Has(d, item) || ByConnection(g, p, item)
  {
    var list := env.outgoing(g.edges, p);
    OutgoingIsIndices(env, g, p);
    ConnectionsCollect(g, d, list, item);
  }

  lemma ProcessCollects(env: Environment, g: Graph, d: Draft, k: nat, item: Item)
    requires Sound(env) && WellFormed(g) && SoundDraft(g, d) && k < |g.edges| && g.edges[k].weight.LibraryLoaded?
    ensures Indices(g, env.outgoing(g.edges, g.edges[k].src))
    ensures var e := g.edges[k];
      Has(AddConnections(g, PushProcess(d, g.nodes[e.src], e.weight), env.outgoing(g.edges, e.src)), item)
      <==> Has(d, item) || GivesLoad(g, k, item)
  {
    var e := g.edges[k];
    var node := g.nodes[e.src];
    var pushed := PushProcess(d, node, e.weight);
    ProcessConnectionsCollect(env, g, pushed, e.src, item);
    IdFindsNode(g, d, e.src);
    if !HasId(d.nodes, NodeId(node)) {
      PushHas(d, pushed, node, PathEdge(|d.nodes| - 1, |d.nodes|, e.weight), item);
    }
  }

  lemma {:induction false} ProcessesCollect(env: Environment, g: Graph, d: Draft, list: seq<nat>, l: nat, item: Item)
    requires Sound(env) && WellFormed(g) && Indices(g, list) && SoundDraft(g, d)
    requires l < |g.nodes| && g.nodes[l] in d.nodes && forall k | k in list :: g.edges[k].dst == l
    ensures Has(AddProcesses(env, g, d, list), item) <==>
      Has(d, item) || exists k :: k in list && GivesLoad(g, k, item)
  {
    if list != [] {
      ProcessesCollect(env, g, d, Init(list), l, item);
      ProcessesKeepSound(env, g, d, Init(list), l);
      if g.edges[Last(list)].weight.LibraryLoaded? {
        ProcessCollects(env, g, AddProcesses(env, g, d, Init(list)), Last(list), item);
      }
    }
  }

  lemma LibraryCollects(env: Environment, g: Graph, d: Draft, k: nat, item: Item)
    requires Sound(env) && WellFormed(g) && SoundDraft(g, d) && k < |g.edges| && g.edges[k].weight.Vulnerable?
    requires SameEntity(g.nodes[g.edges[k].src], d.nodes[0])
    ensures Indices(g, env.incoming(g.edges, g.edges[k].dst))
    ensures var e := g.edges[k];
      var r := AddProcesses(env, g, PushLibrary(d, g.nodes[e.dst]), env.incoming(g.edges, e.dst));
      (Has(r, item) <==> Has(d, item) || GivesLibrary(g, k, item)) && SoundDraft(g, r) && d.nodes <= r.nodes
  {
    var e := g.edges[k];
    var node := g.nodes[e.dst];
    var list := env.incoming(g.edges, e.dst);
    var pushed := PushLibrary(d, node);
    assert Backed(g, pushed.nodes[0], node, k);
    PushKeepsSound(g, d, pushed, node, PathEdge(0, |d.nodes|, Vulnerable(0.95)));
    assert pushed.nodes[|d.nodes|] == node;
    IncomingIsIndices(env, g, e.dst);
    ProcessesKeepSound(env, g, pushed, list, e.dst);
    ProcessesCollect(env, g, pushed, list, e.dst, item);
    PushHas(d, pushed, node, PathEdge(0, |d.nodes|, Vulnerable(0.95)), item);
  }

  lemma {:induction false} LibrariesCollect(env: Environment, g: Graph, d: Draft, list: seq<nat>, v: nat, item: Item)
    requires Sound(env) && WellFormed(g) && Indices(g, list) && SoundDraft(g, d)
    requires v < |g.nodes| && SameEntity(g.nodes[v], d.nodes[0]) && forall k | k in list :: g.edges[k].src == v
    ensures Has(AddLibraries(env, g, d, list), item) <==>
      Has(d, item) || exists k :: k in list && GivesLibrary(g, k, item)
  {
    if list != [] {
      LibrariesCollect(env, g, d, Init(list), v, item);
      LibrariesKeepSound(env, g, d, Init(list), v);
      if g.edges[Last(list)].weight.Vulnerable? {
        LibraryCollects(env, g, AddLibraries(env, g, d, Init(list)), Last(list), item);
      }
    }
  }

  /**
   Beyond its first node, a path holds exactly the libraries, processes, destinations and
   connections that lie on a chain from the finding's vulnerability: none invented, none missed.
   */
  lemma PathCollectsExactly(env: Environment, g: Graph, f: Finding, item: Item)
    requires Sound(env) && WellFormed(g)
    ensures Has(DraftFor(env, g, f), item) <==>
      item == NodeItem(StartOf(f).nodes[0]) ||
      (VulnId(f.cve) in g.index && OnChain(g, g.index[VulnId(f.cve)], item))
  {
    if VulnId(f.cve) in g.index {
      var v := g.index[VulnId(f.cve)];
      var list := env.outgoing(g.edges, v);
      OutgoingIsIndices(env, g, v);
      NodeIdInjective(g.nodes[v], StartOf(f).nodes[0]);
      LibrariesCollect(env, g, StartOf(f), list, v, item);
    }
  }

  // ---- the enforcement gate ----------------------------------------------------------------

  /** A connection at the end of a complete chain of the finding, at least this confident. */
  ghost predicate ChainConnection(g: Graph, f: Finding, w: RuntimeEdge) {
    w.NetworkConnection? && VulnId(f.cve) in g.index && OnChain(g, g.index[VulnId(f.cve)], ConnectionItem(w))
  }

  ghost predicate CompleteChain(g: Graph, f: Finding) { exists w :: ChainConnection(g, f, w) }

  ghost predicate StrongChain(g: Graph, f: Finding) { exists w :: ChainConnection(g, f, w) && w.confidence >= 0.9 }

  lemma ConnectionsAreChains(env: Environment, g: Graph, f: Finding)
    requires Sound(env) && WellFormed(g)
    ensures HasConnection(DraftFor(env, g, f).edges) <==> CompleteChain(g, f)
    ensures HasStrong(DraftFor(env, g, f).edges) <==> StrongChain(g, f)
  {
    var d := DraftFor(env, g, f);
    forall w: RuntimeEdge | w.NetworkConnection? ensures Has(d, ConnectionItem(w)) <==> ChainConnection(g, f, w) {
      PathCollectsExactly(env, g, f, ConnectionItem(w));
    }
    forall i | 0 <= i < |d.edges| && d.edges[i].weight.NetworkConnection?
      ensures Has(d, ConnectionItem(d.edges[i].weight))
    {
    }
  }

  lemma ProcessBehind(g: Graph, d: Draft, k: nat) returns (j: nat)
    requires WellFormed(g) && SoundDraft(g, d) && 0 < k < |d.nodes| && d.nodes[k].Network?
    ensures 0 < j < k && d.nodes[j].Process?
  {
    assert Justified(g, d.nodes, k);
    var e: nat;
    j, e :| j < k && Backed(g, d.nodes[j], d.nodes[k], e) && g.edges[e].weight.NetworkConnection?;
  }

  lemma LibraryBehind(g: Graph, d: Draft, k: nat) returns (j: nat)
    requires WellFormed(g) && SoundDraft(g, d) && 0 < k < |d.nodes| && d.nodes[k].Process?
    ensures 0 < j < k && d.nodes[j].Library?
  {
    assert Justified(g, d.nodes, k);
    var e: nat;
    j, e :| j < k && Backed(g, d.nodes[k], d.nodes[j], e) && g.edges[e].weight.LibraryLoaded?;
  }

  /** A connection in a sound draft brings its process and its library along. */
  lemma ConnectionNeedsChain(g: Graph, d: Draft) returns (i: nat, j: nat, k: nat)
    requires WellFormed(g) && SoundDraft(g, d) && HasConnection(d.edges)
    ensures 0 < i < j < k < |d.nodes| && d.nodes[i].Library? && d.nodes[j].Process? && d.nodes[k].Network?
    ensures HasLoad(d.edges) && {VulnerabilitySignal, LibraryLoadedSignal, NetworkSignal} <= d.signals
  {
    var e :| 0 <= e < |d.edges| && d.edges[e].weight.NetworkConnection?;
    k := e + 1;
    assert Fits(d.edges[e].weight, d.nodes[k]);
    j := ProcessBehind(g, d, k);
    i := LibraryBehind(g, d, j);
    ChainSignals(g, d, i, j, k);
  }

  lemma ChainSignals(g: Graph, d: Draft, i: nat, j: nat, k: nat)
    requires SoundDraft(g, d) && 0 < i < j < k < |d.nodes|
    requires d.nodes[i].Library? && d.nodes[j].Process? && d.nodes[k].Network?
    ensures HasLoad(d.edges) && {VulnerabilitySignal, LibraryLoadedSignal, NetworkSignal} <= d.signals
  {
    assert Fits(d.edges[j - 1].weight, d.nodes[j]);
    assert SignalOf(d.nodes[i]) in d.signals && SignalOf(d.nodes[j]) in d.signals && SignalOf(d.nodes[k]) in d.signals;
  }

  predicate DefaultThresholds(config: AttackGraphConfig) {
    config.minEnforcementConfidence == 0.8 && config.minEnforcementDepth == 3
  }

  lemma SignalsCount(signals: set<SignalType>)
    requires {VulnerabilitySignal, LibraryLoadedSignal, NetworkSignal} <= signals
    ensures |signals| >= 2
  {
    var two := {VulnerabilitySignal, NetworkSignal};
    assert |signals| == |two| + |signals - two| by { assert signals == two + (signals - two); }
  }

  /**
   With the default thresholds the gate passes a path exactly when the graph holds a complete chain
   for it and the finding is both known-exploited and of high EPSS, or one of the two with a
   connection of confidence 0.9 on a chain.
   */
  lemma EnforcedIff(env: Environment, g: Graph, f: Finding)
    requires Sound(env) && WellFormed(g) && DefaultThresholds(env.config)
    ensures MeetsEnforcementCriteria(PathFor(env, g, f), env.config) <==>
      CompleteChain(g, f) &&
      ((f.kev && f.epss >= 0.7) || ((f.kev || f.epss >= 0.7) && StrongChain(g, f)))
  {
    var d := DraftFor(env, g, f);
    PathIsJustified(env, g, f);
    ConnectionsAreChains(env, g, f);
    if HasConnection(d.edges) {
      var _, _, _ := ConnectionNeedsChain(g, d);
      SignalsCount(d.signals);
    }
  }

  ghost predicate Passes(env: Environment, g: Graph, f: Finding, p: AttackPath)
    requires Sound(env) && WellFormed(g)
  {
    f.reachable && p == PathFor(env, g, f) && MeetsEnforcementCriteria(p, env.config)
  }

  /** The listing is exactly the gate: in it stand the paths of the reachable findings that pass. */
  lemma {:induction false} EnforceableExactly(env: Environment, g: Graph, findings: seq<Finding>, p: AttackPath)
    requires Sound(env) && WellFormed(g)
    ensures p in EnforceablePaths(env, g, findings) <==> exists f :: f in findings && Passes(env, g, f, p)
  {
    if findings != [] {
      var init, f := findings[..|findings| - 1], findings[|findings| - 1];
      assert findings == init + [f];
      EnforceableExactly(env, g, init, p);
      assert p in EnforceablePaths(env, g, findings) <==> p in EnforceablePaths(env, g, init) || Passes(env, g, f, p);
    }
  }

  /** Nothing is enforced without its whole story on the path and independent evidence behind it. */
  lemma EnforcementIsSound(env: Environment, g: Graph, findings: seq<Finding>, p: AttackPath)
    returns (f: Finding, i: nat, j: nat, k: nat)
    requires Sound(env) && WellFormed(g) && DefaultThresholds(env.config)
    requires p in EnforceablePaths(env, g, findings)
    ensures f in findings && f.reachable && p == PathFor(env, g, f)
    ensures 0 < i < j < k < |p.nodes| && p.nodes[0] == Vulnerability(f.cve, f.package, f.cvss, f.epss, f.kev)
    ensures p.nodes[i].Library? && p.nodes[j].Process? && p.nodes[k].Network?
    ensures f.kev || f.epss >= 0.7
    ensures (f.kev && f.epss >= 0.7) || HasStrong(p.edges)
  {
    EnforceableExactly(env, g, findings, p);
    f :| f in findings && Passes(env, g, f, p);
    EnforcedIff(env, g, f);
    ConnectionsAreChains(env, g, f);
    PathIsJustified(env, g, f);
    i, j, k := ConnectionNeedsChain(g, DraftFor(env, g, f));
    assert p.nodes[0] == StartOf(f).nodes[0];
  }

  // ---- what a path reports -----------------------------------------------------------------

  /** How much a known exploit and a high EPSS add to a path's confidence. */
  function Evidence(f: Finding): real { (if f.kev then 0.15 else 0.0) + (if f.epss >= 0.7 then 0.1 else 0.0) }

  /** The confidence before evidence: by the path's length, and whether its chain is complete, and strong. */
  function Structure(n: nat, complete: bool, strong: bool): real {
    if n <= 1 then 0.1
    else if n == 2 then 0.0
    else if n == 3 then 0.3
    else if !complete then 0.4
    else if !strong then 0.6
    else 0.7
  }

  /** For every graph and finding, the confidence is that of the path's structure plus the finding's evidence. */
  lemma ConfidenceTable(env: Environment, g: Graph, f: Finding)
    requires Sound(env) && WellFormed(g)
    ensures PathFor(env, g, f).confidence ==
      Structure(|PathFor(env, g, f).nodes|, CompleteChain(g, f), StrongChain(g, f)) + Evidence(f)
  {
    PathIsJustified(env, g, f);
    ConnectionsAreChains(env, g, f);
    if HasConnection(DraftFor(env, g, f).edges) { var _, _, _ := ConnectionNeedsChain(g, DraftFor(env, g, f)); }
    DraftConfidence(DraftFor(env, g, f), f);
  }

  lemma DraftConfidence(d: Draft, f: Finding)
    requires |d.nodes| == |d.edges| + 1 && (HasConnection(d.edges) ==> HasLoad(d.edges) && |d.nodes| >= 4)
    ensures PathConfidence(d, f) == Structure(|d.nodes|, HasConnection(d.edges), HasStrong(d.edges)) + Evidence(f)
  {
    assert HasStrong(d.edges) ==> HasConnection(d.edges);
  }

  /** A fifth of the score per node up to five nodes, and never more than the score. */
  lemma RiskLaw(score: real, n: nat)
    requires score >= 0.0
    ensures RiskScore(score, n) <= score && (score > 0.0 ==> (RiskScore(score, n) == score <==> n >= 5))
    ensures n <= 5 ==> 5.0 * RiskScore(score, n) == score * n as real
  {
    if n <= 5 {
      assert RiskScore(score, n) == score * (n as real * 0.2);
      assert 5.0 * (score * (n as real * 0.2)) == score * n as real;
      if n < 5 && score > 0.0 { assert score * (5.0 - n as real) > 0.0; }
    }
  }

  /**
   For every graph and finding of a score that is not negative: the path's risk is a fifth of the score
   per node up to five, never more than the score, and equal to a positive score exactly from five
   nodes on; depth is the number of nodes and the time window is the one for library loads.
   */
  lemma PathReports(env: Environment, g: Graph, f: Finding)
    requires Sound(env) && WellFormed(g) && f.score >= 0.0
    ensures var p := PathFor(env, g, f); var n := |p.nodes|;
      && p.riskScore <= f.score && (f.score > 0.0 ==> (p.riskScore == f.score <==> n >= 5))
      && (n <= 5 ==> 5.0 * p.riskScore == f.score * n as real)
      && p.depth == n && p.timeWindowSecs == env.config.mmapWindowSecs
  {
    RiskLaw(f.score, |DraftFor(env, g, f).nodes|);
  }

  /** The gate in any configuration: a load on the path, enough nodes and enough confidence. */
  lemma GateExactly(env: Environment, g: Graph, f: Finding)
    requires Sound(env) && WellFormed(g)
    ensures var p := PathFor(env, g, f);
      MeetsEnforcementCriteria(p, env.config) <==>
        && HasLoad(p.edges) && |p.nodes| >= env.config.minEnforcementDepth
        && p.confidence >= env.config.minEnforcementConfidence
  {
    PathIsJustified(env, g, f);
    TwoSignalsIffLoad(g, DraftFor(env, g, f));
  }

  /** A load brings its library along, and without one nothing but libraries is on a path. */
  lemma TwoSignalsIffLoad(g: Graph, d: Draft)
    requires WellFormed(g) && SoundDraft(g, d) && Accounts(g, d)
    ensures |d.signals| >= 2 <==> HasLoad(d.edges)
  {
    if HasLoad(d.edges) {
      LoadBringsLibrary(g, d);
      TwoSignals(d.signals);
    } else {
      NoLoadNoConnection(g, d);
      OneSignal(d.signals);
    }
  }

  lemma LoadBringsLibrary(g: Graph, d: Draft)
    requires WellFormed(g) && SoundDraft(g, d) && HasLoad(d.edges)
    ensures VulnerabilitySignal in d.signals && LibraryLoadedSignal in d.signals
  {
    var e :| 0 <= e < |d.edges| && d.edges[e].weight.LibraryLoaded?;
    assert Fits(d.edges[e].weight, d.nodes[e + 1]);
    var l := LibraryBehind(g, d, e + 1);
    assert SignalOf(d.nodes[l]) in d.signals && SignalOf(d.nodes[e + 1]) in d.signals;
  }

  lemma TwoSignals(signals: set<SignalType>)
    requires VulnerabilitySignal in signals && LibraryLoadedSignal in signals
    ensures |signals| >= 2
  {
    var two := {VulnerabilitySignal, LibraryLoadedSignal};
    assert |signals| == |two| + |signals - two| by { assert signals == two + (signals - two); }
  }

  lemma OneSignal(signals: set<SignalType>)
    requires LibraryLoadedSignal !in signals && NetworkSignal !in signals
    ensures |signals| <= 1
  {
    forall s | s in signals ensures s == VulnerabilitySignal {
      match s case VulnerabilitySignal => case LibraryLoadedSignal => case NetworkSignal =>
    }
    assert signals == {} || signals == {VulnerabilitySignal};
  }

  lemma NoLoadNoConnection(g: Graph, d: Draft)
    requires WellFormed(g) && SoundDraft(g, d) && Accounts(g, d) && !HasLoad(d.edges)
    ensures LibraryLoadedSignal !in d.signals && NetworkSignal !in d.signals
  {
    if HasConnection(d.edges) { var _, _, _ := ConnectionNeedsChain(g, d); }
    forall i | 0 <= i < |d.edges| ensures SignalFor(d.edges[i].weight) == VulnerabilitySignal {
      assert Fits(d.edges[i].weight, d.nodes[i + 1]) && Justified(g, d.nodes, i + 1);
    }
  }

  /** The places that hold true, in order. */
  function Places(flags: seq<bool>): seq<nat> {
    if flags == [] then []
    else
      var n := |flags| - 1;
      if flags[n] then Places(flags[..n]) + [n] else Places(flags[..n])
  }

  lemma {:induction false} PlacesExactly(flags: seq<bool>)
    ensures forall i, j | 0 <= i < j < |Places(flags)| :: Places(flags)[i] < Places(flags)[j]
    ensures forall k: nat :: k in Places(flags) <==> k < |flags| && flags[k]
  {
    if flags != [] {
      var n := |flags| - 1;
      PlacesExactly(flags[..n]);
      var before := Places(flags[..n]);
      forall i | 0 <= i < |before| ensures before[i] < n { assert before[i] in before; }
    }
  }

  ghost function Passing(env: Environment, g: Graph, findings: seq<Finding>): seq<bool>
    requires Sound(env) && WellFormed(g)
  {
    seq(|findings|, k requires 0 <= k < |findings| => Passes(env, g, findings[k], PathFor(env, g, findings[k])))
  }

  /** The paths of the findings at these places. */
  ghost function PathsAt(env: Environment, g: Graph, findings: seq<Finding>, at: seq<nat>): seq<AttackPath>
    requires Sound(env) && WellFormed(g) && forall k | k in at :: k < |findings|
  {
    seq(|at|, i requires 0 <= i < |at| => assert at[i] in at; PathFor(env, g, findings[at[i]]))
  }

  /** The listing is the paths of the findings that pass, each once and in the order of the findings. */
  lemma {:induction false} EnforceableInOrder(env: Environment, g: Graph, findings: seq<Finding>)
    requires Sound(env) && WellFormed(g)
    ensures var at := Places(Passing(env, g, findings));
      (forall k | k in at :: k < |findings|) && EnforceablePaths(env, g, findings) == PathsAt(env, g, findings, at)
  {
    PlacesExactly(Passing(env, g, findings));
    if findings != [] {
      var n := |findings| - 1;
      EnforceableInOrder(env, g, findings[..n]);
      assert Passing(env, g, findings)[..n] == Passing(env, g, findings[..n]);
      PlacesExactly(Passing(env, g, findings[..n]));
      PathsOneMore(env, g, findings, Places(Passing(env, g, findings[..n])));
    }
  }

  lemma PathsOneMore(env: Environment, g: Graph, findings: seq<Finding>, at: seq<nat>)
    requires Sound(env) && WellFormed(g) && findings != [] && forall k | k in at :: k < |findings| - 1
    ensures PathsAt(env, g, findings, at) == PathsAt(env, g, findings[..|findings| - 1], at)
    ensures PathsAt(env, g, findings, at + [|findings| - 1]) ==
      PathsAt(env, g, findings, at) + [PathFor(env, g, findings[|findings| - 1])]
  {
    var n := |findings| - 1;
    forall i | 0 <= i < |at| ensures at[i] < n && findings[..n][at[i]] == findings[at[i]] { assert at[i] in at; }
  }
}
