/**
 What a graph holds, from the bare history of operations: its nodes, the update log, and the edges of
 exploitation attempts, with every attribute.
 */
module AttackGraphContents {
  import opened Wrappers
  import opened NodeIdentity
  import opened AttackGraph
  import opened AttackGraphRuns
  import opened AttackGraphHistory
  import opened AttackGraphWindows

  // ---- what one operation adds -------------------------------------------------------------

  /** Apart from data of connections, the view goes on with `more` edges. */
  ghost predicate GoesOn(v: seq<EdgeView>, v': seq<EdgeView>, more: seq<EdgeView>) {
    && |v'| == |v| + |more| && v'[|v|..] == more
    && forall k | 0 <= k < |v| ::
         v'[k].weight.NetworkConnection? == v[k].weight.NetworkConnection? &&
           (!v[k].weight.NetworkConnection? ==> v'[k] == v[k])
  }

  /** An association's edges lead to exactly the indexed libraries that match its package. */
  ghost predicate LinksMatching(env: Environment, g: Graph, cveId: string, package: string, more: seq<EdgeView>) {
    && (forall e | e in more :: e.weight == Vulnerable(0.95) && e.from == VulnId(cveId))
    && (forall i, j | 0 <= i < j < |more| :: more[i].to != more[j].to)
    && forall path :: (exists e :: e in more && e.to == LibId(path)) <==>
      LibId(path) in g.index && env.matches(path, package)
  }

  ghost predicate Adds(env: Environment, g: Graph, op: Op, more: seq<EdgeView>) {
    match op
    case Load(pid, _, _, path, t) => more == [EdgeView(ProcId(pid), LibId(path), LibraryLoaded(t, 1.0))]
    case Net(pid, _, _, event) =>
      if Collapses(env, g, pid, event) then more == []
      else more == RecordedViews(env.config, LoadsOf(g, pid), pid, event)
    case Associate(cveId, package, _, _, _) => LinksMatching(env, g, cveId, package, more)
    case Drain => more == []
  }

  lemma {:induction false} LinkedNodes(env: Environment, nodes: seq<RuntimeNode>, vuln: nat, package: string, i: nat)
    ensures (exists e :: e in VulnerableEdges(env, nodes, vuln, package) && e.dst == i)
      <==> i < |nodes| && nodes[i].Library? && env.matches(nodes[i].path, package)
    ensures forall e | e in VulnerableEdges(env, nodes, vuln, package) ::
      e.src == vuln && e.dst < |nodes| && e.weight == Vulnerable(0.95)
  {
    if nodes != [] {
      var last := |nodes| - 1;
      LinkedNodes(env, nodes[..last], vuln, package, i);
      var edge := GraphEdge(vuln, last, Vulnerable(0.95));
      var rest := VulnerableEdges(env, nodes[..last], vuln, package);
      assert edge in rest + [edge];
      assert forall e :: e in rest ==> e in rest + [edge];
    }
  }

  lemma LinkedViews(env: Environment, g: Graph, v: nat, cveId: string, package: string)
    requires WellFormed(g) && v < |g.nodes| && g.nodes[v].Vulnerability? && NodeId(g.nodes[v]) == VulnId(cveId)
    ensures var added := VulnerableEdges(env, g.nodes, v, package);
      EdgesTyped(g.nodes, added) && LinksMatching(env, g, cveId, package, ViewOf(g.nodes, added))
  {
    var added := VulnerableEdges(env, g.nodes, v, package);
    assert g.nodes[..|g.nodes|] == g.nodes;
    VulnerableView(env, g, |g.nodes|, v, package);
    LinkedNodes(env, g.nodes, v, package, 0);
    LinkedOnce(env, g, v, package);
    var more := ViewOf(g.nodes, added);
    forall k | 0 <= k < |more| ensures more[k].weight == Vulnerable(0.95) && more[k].from == VulnId(cveId) {
      assert added[k] in added;
    }
    forall path
      ensures (exists e :: e in more && e.to == LibId(path)) <==> LibId(path) in g.index && env.matches(path, package)
    {
      LinkedTo(env, g, v, package, path);
    }
  }

  /** Edges to ever later nodes, all below `n`. */
  ghost predicate InNodeOrder(edges: seq<GraphEdge>, n: nat) {
    && (forall i | 0 <= i < |edges| :: edges[i].dst < n)
    && forall i, j | 0 <= i < j < |edges| :: edges[i].dst < edges[j].dst
  }

  lemma InOrderOneMore(edges: seq<GraphEdge>, n: nat, e: GraphEdge)
    requires InNodeOrder(edges, n)
    ensures InNodeOrder(edges, n + 1) && (e.dst == n ==> InNodeOrder(edges + [e], n + 1))
  {
    forall i | 0 <= i < |edges| ensures edges[i].dst < n { }
  }

  lemma {:induction false} LinkedInOrder(env: Environment, nodes: seq<RuntimeNode>, vuln: nat, package: string)
    ensures InNodeOrder(VulnerableEdges(env, nodes, vuln, package), |nodes|)
  {
    if nodes != [] {
      var last := |nodes| - 1;
      LinkedInOrder(env, nodes[..last], vuln, package);
      InOrderOneMore(VulnerableEdges(env, nodes[..last], vuln, package), last, GraphEdge(vuln, last, Vulnerable(0.95)));
    }
  }

  lemma LinkedOnce(env: Environment, g: Graph, v: nat, package: string)
    requires WellFormed(g) && EdgesTyped(g.nodes, VulnerableEdges(env, g.nodes, v, package))
    ensures var more := ViewOf(g.nodes, VulnerableEdges(env, g.nodes, v, package));
      forall i, j | 0 <= i < j < |more| :: more[i].to != more[j].to
  {
    LinkedInOrder(env, g.nodes, v, package);
    var added := VulnerableEdges(env, g.nodes, v, package);
    var more := ViewOf(g.nodes, added);
    forall i, j | 0 <= i < j < |more| ensures more[i].to != more[j].to {
      assert InNodeOrder(added, |g.nodes|) && added[i].dst < added[j].dst;
      assert more[i].to == NodeId(g.nodes[added[i].dst]) && more[j].to == NodeId(g.nodes[added[j].dst]);
    }
  }

  lemma LinkedTo(env: Environment, g: Graph, v: nat, package: string, path: string)
    requires WellFormed(g) && v < |g.nodes| && EdgesTyped(g.nodes, VulnerableEdges(env, g.nodes, v, package))
    ensures (exists e :: e in ViewOf(g.nodes, VulnerableEdges(env, g.nodes, v, package)) && e.to == LibId(path))
      <==> LibId(path) in g.index && env.matches(path, package)
  {
    var added := VulnerableEdges(env, g.nodes, v, package);
    var more := ViewOf(g.nodes, added);
    if LibId(path) in g.index && env.matches(path, package) {
      var i := g.index[LibId(path)];
      NodeIdInjective(g.nodes[i], Library(path, []));
      LinkedNodes(env, g.nodes, v, package, i);
      var e :| e in added && e.dst == i;
      var k :| 0 <= k < |added| && added[k] == e;
      assert more[k] in more && more[k].to == LibId(path);
    }
    if e :| e in more && e.to == LibId(path) {
      var k :| 0 <= k < |more| && more[k] == e;
      var i := added[k].dst;
      assert NodeId(g.nodes[i]) == LibId(path) && added[k] in added;
      NodeIdInjective(g.nodes[i], Library(path, []));
      LinkedNodes(env, g.nodes, v, package, i);
    }
  }

  lemma Appended(v: seq<EdgeView>, more: seq<EdgeView>)
    ensures GoesOn(v, v + more, more)
  {
  }

  lemma SameMatches(env: Environment, g: Graph, g1: Graph, cveId: string, package: string, more: seq<EdgeView>)
    requires LinksMatching(env, g1, cveId, package, more)
    requires forall path :: LibId(path) in g1.index <==> LibId(path) in g.index
    ensures LinksMatching(env, g, cveId, package, more)
  {
  }

  lemma AssociationAdds(env: Environment, g: Graph, op: Op) returns (more: seq<EdgeView>)
    requires Sound(env) && WellFormed(g) && op.Associate?
    ensures WellFormed(Step(env, g, op)) && GoesOn(View(g), View(Step(env, g, op)), more) && Adds(env, g, op, more)
  {
    var node := Vulnerability(op.cveId, op.package, op.cvss, op.epss, op.kev);
    var g1, v := AddNode(g, node).0, AddNode(g, node).1;
    AddNodeKeepsIndex(g, node);
    more := AssociationLinks(env, g, g1, v, op);
    forall path ensures LibId(path) in g1.index <==> LibId(path) in g.index { AddedIndexes(g, node, path); }
    SameMatches(env, g, g1, op.cveId, op.package, more);
  }

  lemma AssociationLinks(env: Environment, g: Graph, g1: Graph, v: nat, op: Op) returns (more: seq<EdgeView>)
    requires WellFormed(g) && WellFormed(g1) && op.Associate? && View(g1) == View(g)
    requires v < |g1.nodes| && g1.nodes[v].Vulnerability? && NodeId(g1.nodes[v]) == VulnId(op.cveId)
    ensures LinksMatching(env, g1, op.cveId, op.package, more)
    ensures var g2 := g1.(edges := g1.edges + VulnerableEdges(env, g1.nodes, v, op.package));
      WellFormed(g2) && GoesOn(View(g), View(g2), more)
  {
    LinkedViews(env, g1, v, op.cveId, op.package);
    AppendEdges(g1, VulnerableEdges(env, g1.nodes, v, op.package));
    more := ViewOf(g1.nodes, VulnerableEdges(env, g1.nodes, v, op.package));
    Appended(View(g), more);
  }

  lemma CollapsedAdds(env: Environment, g: Graph, op: Op)
    requires Sound(env) && WellFormed(g) && op.Net? && Collapses(env, g, op.pid, op.event)
    ensures WellFormed(Step(env, g, op)) && GoesOn(View(g), View(Step(env, g, op)), [])
  {
    var g' := MergedGoesOn(env, g, op.pid, op.event);
    BumpKeeps(g');
  }

  lemma MergedGoesOn(env: Environment, g: Graph, pid: nat, event: NetEvent) returns (g': Graph)
    requires Sound(env) && WellFormed(g)
    ensures g' == AggregateNetworkEvent(env, g, pid, event) && WellFormed(g') && GoesOn(View(g), View(g'), [])
  {
    AggregateView(env, g, pid, event);
    g' := AggregateNetworkEvent(env, g, pid, event);
  }

  lemma RecordedAdds(env: Environment, g: Graph, op: Op) returns (more: seq<EdgeView>)
    requires Sound(env) && WellFormed(g) && op.Net? && !Collapses(env, g, op.pid, op.event)
    ensures WellFormed(Step(env, g, op)) && GoesOn(View(g), View(Step(env, g, op)), more) && Adds(env, g, op, more)
  {
    RecordView(env.config, g, op.pid, op.name, op.cgroupId, op.event);
    more := RecordedViews(env.config, LoadsOf(g, op.pid), op.pid, op.event);
    Appended(View(g), more);
  }

  lemma EventAddsNoOther(config: AttackGraphConfig, loads: seq<LibraryLoad>, pid: nat, event: NetEvent)
    ensures forall e | e in RecordedViews(config, loads, pid, event) ::
      e.weight.NetworkConnection? || e.weight.ExploitationAttempt?
  {
    AttemptViewsAreAttempts(config, loads, event);
  }

  lemma EventAdds(env: Environment, g: Graph, op: Op) returns (more: seq<EdgeView>)
    requires Sound(env) && WellFormed(g) && op.Net?
    ensures WellFormed(Step(env, g, op)) && GoesOn(View(g), View(Step(env, g, op)), more) && Adds(env, g, op, more)
  {
    if Collapses(env, g, op.pid, op.event) {
      CollapsedAdds(env, g, op);
      more := [];
    } else {
      more := RecordedAdds(env, g, op);
    }
  }

  lemma StepAdds(env: Environment, g: Graph, op: Op) returns (more: seq<EdgeView>)
    requires Sound(env) && WellFormed(g)
    ensures WellFormed(Step(env, g, op)) && GoesOn(View(g), View(Step(env, g, op)), more) && Adds(env, g, op, more)
  {
    match op
    case Load(pid, name, cgroupId, path, t) =>
      LoadView(g, pid, name, cgroupId, path, t);
      more := [EdgeView(ProcId(pid), LibId(path), LibraryLoaded(t, 1.0))];
      Appended(View(g), more);
    case Net(_, _, _, _) => more := EventAdds(env, g, op);
    case Associate(_, _, _, _, _) => more := AssociationAdds(env, g, op);
    case Drain =>
      more := [];
      DrainKeeps(g);
  }

  lemma InView(v: seq<EdgeView>, v': seq<EdgeView>, more: seq<EdgeView>, e: EdgeView)
    requires GoesOn(v, v', more) && !e.weight.NetworkConnection?
    ensures e in v' <==> e in v || e in more
  {
    if e in v {
      var k :| 0 <= k < |v| && v[k] == e;
      assert v'[k] == e;
    }
    if e in more {
      var k :| 0 <= k < |more| && more[k] == e;
      assert v'[|v| + k] == e;
    }
    if e in v' {
      var k :| 0 <= k < |v'| && v'[k] == e;
      assert k >= |v| ==> more[k - |v|] == e;
    }
  }

  lemma AddedIndexes(g: Graph, node: RuntimeNode, path: string)
    ensures LibId(path) in AddNode(g, node).0.index <==> LibId(path) in g.index || (node.Library? && node.path == path)
  {
    NodeIdInjective(node, Library(path, []));
  }

  // ---- nodes are first mentions ------------------------------------------------------------

  function ProtocolName(kind: EventKind): string {
    if kind == TcpSend || kind == TcpRecv then "TCP"
    else if kind == UdpSend || kind == UdpRecv then "UDP"
    else "UNKNOWN"
  }

  /** The entities operations mention, in order, with the attributes they mention them with. */
  function Mentions(env: Environment, ops: seq<Op>): seq<RuntimeNode> {
    if ops == [] then []
    else
      var init := ops[..|ops| - 1];
      var before := Mentions(env, init);
      match ops[|ops| - 1]
      case Load(pid, name, cgroupId, path, _) => before + [Process(pid, name, cgroupId)] + [Library(path, [])]
      case Net(pid, name, cgroupId, event) =>
        if InWindow(env, RecordedEvents(env, init), pid, event) then before
        else before + [Process(pid, name, cgroupId)]
             + [Network(Dotted(event.daddr), event.dport, ProtocolName(event.kind))]
      case Associate(cveId, package, cvss, epss, kev) => before + [Vulnerability(cveId, package, cvss, epss, kev)]
      case Drain => before
  }

  predicate Mentioned(nodes: seq<RuntimeNode>, node: RuntimeNode) {
    exists k | 0 <= k < |nodes| :: SameEntity(nodes[k], node)
  }

  /** Each entity once, as it was mentioned first. */
  function FirstMentions(nodes: seq<RuntimeNode>): seq<RuntimeNode> {
    if nodes == [] then [] else Noted(FirstMentions(nodes[..|nodes| - 1]), nodes[|nodes| - 1])
  }

  function Noted(nodes: seq<RuntimeNode>, node: RuntimeNode): seq<RuntimeNode> {
    if Mentioned(nodes, node) then nodes else nodes + [node]
  }

  lemma FirstMentionsOneMore(nodes: seq<RuntimeNode>, node: RuntimeNode)
    ensures FirstMentions(nodes + [node]) == Noted(FirstMentions(nodes), node)
  {
    assert (nodes + [node])[..|nodes|] == nodes;
  }

  lemma FirstMentionsTwoMore(nodes: seq<RuntimeNode>, a: RuntimeNode, b: RuntimeNode)
    ensures FirstMentions(nodes + [a] + [b]) == Noted(Noted(FirstMentions(nodes), a), b)
  {
    FirstMentionsOneMore(nodes, a);
    FirstMentionsOneMore(nodes + [a], b);
  }

  lemma AddNodeNotes(g: Graph, node: RuntimeNode)
    requires WellFormed(g)
    ensures AddNode(g, node).0.nodes == Noted(g.nodes, node) && WellFormed(AddNode(g, node).0)
  {
    AddNodeKeepsIndex(g, node);
    if NodeId(node) in g.index {
      NodeIdInjective(g.nodes[g.index[NodeId(node)]], node);
    } else if k :| 0 <= k < |g.nodes| && SameEntity(g.nodes[k], node) {
      NodeIdInjective(g.nodes[k], node);
    }
  }

  lemma AddTwoNotes(g: Graph, a: RuntimeNode, b: RuntimeNode)
    requires WellFormed(g)
    ensures AddNode(AddNode(g, a).0, b).0.nodes == Noted(Noted(g.nodes, a), b)
  {
    AddNodeNotes(g, a);
    AddNodeNotes(AddNode(g, a).0, b);
  }

  lemma RecordingNotes(config: AttackGraphConfig, g: Graph, pid: nat, name: string, cgroupId: nat, event: NetEvent)
    requires WellFormed(g)
    ensures RecordConnection(config, g, pid, name, cgroupId, event).nodes ==
      Noted(Noted(g.nodes, Process(pid, name, cgroupId)),
            Network(Dotted(event.daddr), event.dport, ProtocolName(event.kind)))
  {
    var g0 := g.(lastNetwork := g.lastNetwork[(pid, event.dport) := event.timestampNs]);
    AddTwoNotes(g0, Process(pid, name, cgroupId), Network(Dotted(event.daddr), event.dport, Protocol(event.kind)));
  }

  lemma CollapsingNotes(env: Environment, g: Graph, pid: nat, event: NetEvent)
    requires Sound(env)
    ensures AggregateNetworkEvent(env, g, pid, event).nodes == g.nodes
  {
  }

  /**
   After every run the nodes are the entities mentioned by loads, associations and recorded events, each
   once, in the order of first mention and with the attributes of that mention.
   */
  lemma {:induction false} NodesAreFirstMentions(env: Environment, ops: seq<Op>)
    requires Sound(env)
    ensures After(env, ops).nodes == FirstMentions(Mentions(env, ops))
  {
    if ops != [] {
      var init := ops[..|ops| - 1];
      var before := Mentions(env, init);
      NodesAreFirstMentions(env, init);
      AlwaysWellFormed(env, init);
      match ops[|ops| - 1]
      case Load(pid, name, cgroupId, path, _) =>
        AddTwoNotes(After(env, init), Process(pid, name, cgroupId), Library(path, []));
        FirstMentionsTwoMore(before, Process(pid, name, cgroupId), Library(path, []));
      case Net(pid, name, cgroupId, event) =>
        CollapsesIsInWindow(env, init, pid, event);
        RecordingNotes(env.config, After(env, init), pid, name, cgroupId, event);
        CollapsingNotes(env, After(env, init), pid, event);
        FirstMentionsTwoMore(before, Process(pid, name, cgroupId),
                             Network(Dotted(event.daddr), event.dport, ProtocolName(event.kind)));
      case Associate(cveId, package, cvss, epss, kev) =>
        AddNodeNotes(After(env, init), Vulnerability(cveId, package, cvss, epss, kev));
        FirstMentionsOneMore(before, Vulnerability(cveId, package, cvss, epss, kev));
      case Drain =>
    }
  }

  // ---- the log, entry by entry -------------------------------------------------------------

  /** What one operation tells the consumer of the log. */
  function Tells(env: Environment, init: seq<Op>, op: Op): seq<GraphUpdate> {
    match op
    case Load(pid, _, _, path, t) => [EdgeAdded(ProcId(pid), LibId(path), LibraryLoaded(t, 1.0))]
    case Net(pid, _, _, event) =>
      if !InWindow(env, RecordedEvents(env, init), pid, event) then
        var confidence := if event.dataSize > env.config.minBytesThreshold then 0.9 else 0.7;
        [EdgeAdded(ProcId(pid), Destination(event),
          NetworkConnection(event.timestampNs, event.dataSize, 1, confidence))]
      else if Seen(RecordedEvents(env, init), pid, event) then
        [EdgeUpdated(ProcId(pid), Destination(event), event.dataSize)]
      else []
    case _ => []
  }

  function Told(env: Environment, ops: seq<Op>): seq<GraphUpdate> {
    if ops == [] then []
    else
      var init := ops[..|ops| - 1];
      Told(env, init) + Tells(env, init, ops[|ops| - 1])
  }

  /** Drained and queued updates are, in order, one per load, per recorded event and per merged event. */
  lemma {:induction false} LogIsHistory(env: Environment, ops: seq<Op>)
    requires Sound(env)
    ensures Log(After(env, ops)) == Told(env, ops)
  {
    if ops != [] {
      LogIsHistory(env, ops[..|ops| - 1]);
      NextTells(env, ops[..|ops| - 1], After(env, ops[..|ops| - 1]), ops[|ops| - 1]);
    }
  }

  lemma NextTells(env: Environment, init: seq<Op>, g: Graph, op: Op)
    requires Sound(env) && g == After(env, init)
    ensures Log(Step(env, g, op)) == Log(g) + Tells(env, init, op)
  {
    if op.Net? {
      AlwaysWellFormed(env, init);
      CollapsesIsInWindow(env, init, op.pid, op.event);
      MergesIffSeen(env, init, op.pid, op.event);
      if Collapses(env, g, op.pid, op.event) { CollapsedTells(env, g, op); } else { RecordedTells(env, g, op); }
    } else {
      OtherTells(env, g, op);
    }
  }

  lemma OtherTells(env: Environment, g: Graph, op: Op)
    requires Sound(env) && !op.Net?
    ensures Log(Step(env, g, op)) == Log(g) +
      if op.Load? then [EdgeAdded(ProcId(op.pid), LibId(op.path), LibraryLoaded(op.timestampNs, 1.0))] else []
  {
    if op.Load? {
      var g' := Step(env, g, op);
      assert g'.queue == g.queue + [EdgeAdded(ProcId(op.pid), LibId(op.path), LibraryLoaded(op.timestampNs, 1.0))];
    }
  }

  lemma CollapsedTells(env: Environment, g: Graph, op: Op)
    requires Sound(env) && WellFormed(g) && op.Net? && Collapses(env, g, op.pid, op.event)
    ensures Log(Step(env, g, op)) == Log(g) +
      if MergeTarget(env, g, op.pid, op.event).Some?
      then [EdgeUpdated(ProcId(op.pid), Destination(op.event), op.event.dataSize)] else []
  {
    AggregateView(env, g, op.pid, op.event);
    var g' := AggregateNetworkEvent(env, g, op.pid, op.event);
    assert Step(env, g, op).queue == g'.queue && Step(env, g, op).drained == g'.drained == g.drained;
  }

  lemma RecordedQueue(config: AttackGraphConfig, g: Graph, pid: nat, name: string, cgroupId: nat, event: NetEvent)
    ensures var g', u := RecordConnection(config, g, pid, name, cgroupId, event),
                         EdgeAdded(ProcId(pid), Destination(event), Connection(config, event));
      g'.queue == g.queue + [u] && g'.drained == g.drained
  {
  }

  lemma LogAppends(g: Graph, g': Graph, u: GraphUpdate)
    requires g'.queue == g.queue + [u] && g'.drained == g.drained
    ensures Log(g') == Log(g) + [u]
  {
  }

  lemma RecordedTells(env: Environment, g: Graph, op: Op)
    requires Sound(env) && op.Net? && !Collapses(env, g, op.pid, op.event)
    ensures Log(Step(env, g, op)) ==
      Log(g) + [EdgeAdded(ProcId(op.pid), Destination(op.event), Connection(env.config, op.event))]
  {
    RecordedQueue(env.config, g, op.pid, op.name, op.cgroupId, op.event);
    LogAppends(g, RecordConnection(env.config, g, op.pid, op.name, op.cgroupId, op.event),
               EdgeAdded(ProcId(op.pid), Destination(op.event), Connection(env.config, op.event)));
  }

  /** What was told since the consumer last drained the queue. */
  function Waiting(env: Environment, ops: seq<Op>): seq<GraphUpdate> {
    if ops == [] then []
    else
      var init, op := ops[..|ops| - 1], ops[|ops| - 1];
      if op.Drain? then [] else Waiting(env, init) + Tells(env, init, op)
  }

  /** The queue holds exactly what was told since the last drain, so each update is handed over once. */
  lemma {:induction false} QueueIsWaiting(env: Environment, ops: seq<Op>)
    requires Sound(env)
    ensures After(env, ops).queue == Waiting(env, ops)
  {
    if ops != [] {
      var init, op := ops[..|ops| - 1], ops[|ops| - 1];
      QueueIsWaiting(env, init);
      if !op.Drain? {
        NextTells(env, init, After(env, init), op);
        OnlyDrainHandsOver(env, After(env, init), op);
        QueueFromLog(After(env, init), After(env, ops), Tells(env, init, op));
      }
    }
  }

  lemma OnlyDrainHandsOver(env: Environment, g: Graph, op: Op)
    requires Sound(env) && !op.Drain?
    ensures Step(env, g, op).drained == g.drained
  {
  }

  lemma QueueFromLog(g: Graph, g': Graph, more: seq<GraphUpdate>)
    requires Log(g') == Log(g) + more && g'.drained == g.drained
    ensures g'.queue == g.queue + more
  {
    assert g'.queue == Log(g')[|g.drained|..] && (Log(g) + more)[|g.drained|..] == g.queue + more;
  }

  // ---- attempts, with confidence and evidence ----------------------------------------------

  /** The attempt that ties operation `i`, a load, to the later recorded event `j`. */
  ghost predicate TiesAttempt(env: Environment, ops: seq<Op>, i: nat, j: nat, e: EdgeView) {
    Correlated(env, ops, All, i, j) && e == TiedBy(env.config, ops[i], ops[j].event)
  }

  function TiedBy(config: AttackGraphConfig, load: Op, event: NetEvent): EdgeView
    requires load.Load? && load.timestampNs <= event.timestampNs
  {
    EdgeView(LibId(load.path), Destination(event),
             ExploitationAttempt(
               if event.dataSize > config.minBytesThreshold then 0.72 else 0.56,
               "Library " + load.path + " loaded " + Decimal((event.timestampNs - load.timestampNs) / 1_000_000_000)
               + "s before network activity"))
  }

  lemma AttemptIsTied(config: AttackGraphConfig, load: Op, event: NetEvent)
    requires load.Load? && load.timestampNs <= event.timestampNs
    ensures EdgeView(LibId(load.path), Destination(event),
                     Attempt(config, LibraryLoad(load.path, load.timestampNs), event)) == TiedBy(config, load, event)
  {
  }

  /** The load is the process's, inside the window before the event, and gives rise to this attempt. */
  ghost predicate LoadTied(config: AttackGraphConfig, load: Op, pid: nat, event: NetEvent, e: EdgeView) {
    && load.Load? && load.pid == pid && load.timestampNs < event.timestampNs
    && event.timestampNs - load.timestampNs < config.mmapWindowSecs * 1_000_000_000 % TWO_TO_64
    && e == TiedBy(config, load, event)
  }

  lemma AttemptViewsOneMore(config: AttackGraphConfig, loads: seq<LibraryLoad>, load: LibraryLoad, event: NetEvent,
                            e: EdgeView)
    ensures e in AttemptViews(config, loads + [load], event) <==>
      e in AttemptViews(config, loads, event)
      || (Correlates(config, load, event) &&
        e == EdgeView(LibId(load.path), Destination(event), Attempt(config, load, event)))
  {
    assert (loads + [load])[..|loads|] == loads;
  }

  lemma TiedOneMore(config: AttackGraphConfig, loads: seq<LibraryLoad>, op: Op, event: NetEvent, e: EdgeView)
    requires op.Load?
    ensures e in AttemptViews(config, loads + [LibraryLoad(op.path, op.timestampNs)], event) <==>
      e in AttemptViews(config, loads, event) || LoadTied(config, op, op.pid, event, e)
  {
    AttemptViewsOneMore(config, loads, LibraryLoad(op.path, op.timestampNs), event, e);
    if op.timestampNs <= event.timestampNs { AttemptIsTied(config, op, event); }
  }

  lemma TiedNext(config: AttackGraphConfig, ops: seq<Op>, pid: nat, event: NetEvent, e: EdgeView, n: nat)
    requires n < |ops|
    ensures e in AttemptViews(config, LoadHistory(ops[..n + 1], pid), event) <==>
      e in AttemptViews(config, LoadHistory(ops[..n], pid), event) || LoadTied(config, ops[n], pid, event, e)
  {
    LoadHistoryOneMore(ops, n, pid);
    if ops[n].Load? && ops[n].pid == pid { TiedOneMore(config, LoadHistory(ops[..n], pid), ops[n], event, e); }
  }

  /** What becomes true with some step, and stays true, is true at the end exactly when some step made it so. */
  lemma {:induction false} SomeStep(held: seq<bool>, made: seq<bool>, n: nat)
    requires n < |held| == |made| + 1 && !held[0]
    requires forall i | 0 <= i < |made| :: held[i + 1] <==> held[i] || made[i]
    ensures held[n] <==> exists i | 0 <= i < n :: made[i]
  {
    if n > 0 { SomeStep(held, made, n - 1); }
  }

  ghost function Held(config: AttackGraphConfig, ops: seq<Op>, pid: nat, event: NetEvent, e: EdgeView): seq<bool> {
    seq(|ops| + 1, k requires 0 <= k <= |ops| => e in AttemptViews(config, LoadHistory(ops[..k], pid), event))
  }

  ghost function Made(config: AttackGraphConfig, ops: seq<Op>, pid: nat, event: NetEvent, e: EdgeView): seq<bool> {
    seq(|ops|, i requires 0 <= i < |ops| => LoadTied(config, ops[i], pid, event, e))
  }

  lemma TiedLoads(config: AttackGraphConfig, ops: seq<Op>, pid: nat, event: NetEvent, e: EdgeView, n: nat)
    requires n <= |ops|
    ensures e in AttemptViews(config, LoadHistory(ops[..n], pid), event) <==>
      exists i | 0 <= i < n :: LoadTied(config, ops[i], pid, event, e)
  {
    var held, made := Held(config, ops, pid, event, e), Made(config, ops, pid, event, e);
    assert ops[..0] == [];
    forall i | 0 <= i < |ops| ensures held[i + 1] <==> held[i] || made[i] { TiedNext(config, ops, pid, event, e, i); }
    SomeStep(held, made, n);
    assert forall i | 0 <= i < n :: made[i] == LoadTied(config, ops[i], pid, event, e);
  }

  ghost predicate TiedTo(env: Environment, ops: seq<Op>, j: nat, e: EdgeView) {
    exists i: nat :: TiesAttempt(env, ops, i, j, e)
  }

  ghost predicate Tied(env: Environment, ops: seq<Op>, e: EdgeView) { exists j: nat :: TiedTo(env, ops, j, e) }

  /**
   The exploitation attempts of a graph are exactly those that tie a load to a later recorded event of its
   process inside the window, each with its confidence and its evidence.
   */
  lemma {:induction false} AttemptsTell(env: Environment, ops: seq<Op>, e: EdgeView)
    requires Sound(env) && e.weight.ExploitationAttempt?
    ensures WellFormed(After(env, ops))
    ensures e in View(After(env, ops)) <==> Tied(env, ops, e)
  {
    if ops == [] {
      assert View(After(env, ops)) == [];
    } else {
      var n := |ops| - 1;
      AttemptsTell(env, ops[..n], e);
      AttemptsGoOn(env, After(env, ops[..n]), ops[n], e);
      TiedOfPrefix(env, ops, e);
      LastTies(env, ops, e);
    }
  }

  lemma AttemptsGoOn(env: Environment, g: Graph, op: Op, e: EdgeView)
    requires Sound(env) && WellFormed(g) && e.weight.ExploitationAttempt?
    ensures WellFormed(Step(env, g, op))
    ensures e in View(Step(env, g, op)) <==> (e in View(g) || AddsAttempt(env, g, op, e))
  {
    var more := StepAdds(env, g, op);
    InView(View(g), View(Step(env, g, op)), more, e);
  }

  ghost predicate AddsAttempt(env: Environment, g: Graph, op: Op, e: EdgeView) {
    op.Net? && !Collapses(env, g, op.pid, op.event) && e in AttemptViews(env.config, LoadsOf(g, op.pid), op.event)
  }

  lemma LastTies(env: Environment, ops: seq<Op>, e: EdgeView)
    requires Sound(env) && ops != []
    ensures var n := |ops| - 1; AddsAttempt(env, After(env, ops[..n]), ops[n], e) <==> TiedTo(env, ops, n, e)
  {
    var n := |ops| - 1;
    if ops[n].Net? {
      CollapsesIsInWindow(env, ops[..n], ops[n].pid, ops[n].event);
      LoadsAreHistory(env, ops[..n], ops[n].pid);
      TiedLoads(env.config, ops, ops[n].pid, ops[n].event, e, n);
      forall i: nat | i < n
        ensures TiesAttempt(env, ops, i, n, e) <==>
          RecordedAt(env, ops, n) && LoadTied(env.config, ops[i], ops[n].pid, ops[n].event, e)
      {
      }
    }
  }

  lemma TiedOfPrefix(env: Environment, ops: seq<Op>, e: EdgeView)
    requires ops != []
    ensures Tied(env, ops, e) <==> TiedTo(env, ops, |ops| - 1, e) || Tied(env, ops[..|ops| - 1], e)
  {
    var n := |ops| - 1;
    PrefixCorrelates(env, ops, All, n);
    forall i: nat, j: nat | j < n ensures TiesAttempt(env, ops[..n], i, j, e) == TiesAttempt(env, ops, i, j, e) { }
    forall j: nat | j < n ensures TiedTo(env, ops[..n], j, e) == TiedTo(env, ops, j, e) {
      if i: nat :| TiesAttempt(env, ops, i, j, e) { assert TiesAttempt(env, ops[..n], i, j, e); }
      if i: nat :| TiesAttempt(env, ops[..n], i, j, e) { assert TiesAttempt(env, ops, i, j, e); }
    }
  }
}
