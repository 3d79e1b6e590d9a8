/**
 The runtime attack graph as the agent holds it: fields updated in place, loops over loads, nodes
 and edges. Each method is proved to compute the graph function of the same name, so every result
 about runs of those functions is a result about runs of this class.
 */
module RuntimeAttackGraphs {
  import opened Wrappers
  import opened NodeIdentity
  import opened AttackGraph
  import opened AttackGraphRuns
  import opened AttackPaths

  lemma PrefixStep(list: seq<nat>, i: nat)
    requires i < |list|
    ensures Init(list[..i + 1]) == list[..i] && Last(list[..i + 1]) == list[i] && list[i] in list
    ensures forall k :: k in list[..i + 1] ==> k in list
  {
  }

  class RuntimeAttackGraph {
    const env: Environment
    var nodes: seq<RuntimeNode>
    var edges: seq<GraphEdge>
    var nodeIndices: map<string, nat>
    var processLibraries: map<nat, seq<LibraryLoad>>
    var lastNetworkUpdate: map<(nat, nat), nat>
    var burstEventsCollapsed: nat
    var updateQueue: seq<GraphUpdate>
    /** Every update handed to the consumer so far. */
    ghost var drained: seq<GraphUpdate>
    /** The operations performed so far. */
    ghost var history: seq<Op>

    ghost function State(): Graph
      reads this
    {
      Graph(nodes, edges, nodeIndices, processLibraries, lastNetworkUpdate, burstEventsCollapsed, updateQueue, drained)
    }

    ghost predicate Ready()
      reads this
    {
      Sound(env) && WellFormed(State())
    }

    /** The fields are the graph the history leads to. */
    ghost predicate Valid()
      reads this
    {
      Ready() && State() == After(env, history)
    }

    constructor (env: Environment)
      requires Sound(env)
      ensures Valid() && this.env == env && history == [] && State() == EMPTY
    {
      this.env := env;
      nodes, edges, nodeIndices := [], [], map[];
      processLibraries, lastNetworkUpdate := map[], map[];
      burstEventsCollapsed, updateQueue, drained, history := 0, [], [], [];
    }

    /** The fields show the effect of one operation more than the history lists. */
    ghost predicate StepsTo(op: Op)
      requires Sound(env)
      reads this
    {
      State() == Step(env, After(env, history), op)
    }

    /** Appends to the history an operation whose effect the fields already show. */
    ghost method NoteOp(op: Op)
      requires Ready() && StepsTo(op)
      modifies `history
      ensures Valid() && history == old(history) + [op]
    {
      assert (history + [op])[..|history|] == history;
      history := history + [op];
    }

    method AddNode(node: RuntimeNode) returns (idx: nat)
      requires Ready()
      modifies `nodes, `nodeIndices
      ensures Ready() && (State(), idx) == AttackGraph.AddNode(old(State()), node)
    {
      AddNodeKeepsIndex(State(), node);
      var id := NodeId(node);
      if id in nodeIndices {
        idx := nodeIndices[id];
      } else {
        idx := |nodes|;
        nodes := nodes + [node];
        nodeIndices := nodeIndices[id := idx];
      }
    }

    method ProcessLibraryLoad(pid: nat, name: string, cgroupId: nat, path: string, timestampNs: nat)
      requires Valid()
      modifies this
      ensures Valid() && history == old(history) + [Load(pid, name, cgroupId, path, timestampNs)]
      ensures State() == AttackGraph.ProcessLibraryLoad(old(State()), pid, name, cgroupId, path, timestampNs)
    {
      RecordLoad(pid, name, cgroupId, path, timestampNs);
      NoteOp(Load(pid, name, cgroupId, path, timestampNs));
    }

    method RecordLoad(pid: nat, name: string, cgroupId: nat, path: string, timestampNs: nat)
      requires Ready()
      modifies `nodes, `nodeIndices, `edges, `processLibraries, `updateQueue
      ensures Ready() && State() == AttackGraph.ProcessLibraryLoad(old(State()), pid, name, cgroupId, path, timestampNs)
    {
      assert WellFormed(AttackGraph.ProcessLibraryLoad(State(), pid, name, cgroupId, path, timestampNs)) by {
        LoadView(State(), pid, name, cgroupId, path, timestampNs);
      }
      var processIdx := AddNode(Process(pid, name, cgroupId));
      var libIdx := AddNode(Library(path, []));
      edges := edges + [GraphEdge(processIdx, libIdx, LibraryLoaded(timestampNs, 1.0))];
      var loads := if pid in processLibraries then processLibraries[pid] else [];
      processLibraries := processLibraries[pid := loads + [LibraryLoad(path, timestampNs)]];
      updateQueue := updateQueue + [EdgeAdded(ProcId(pid), LibId(path), LibraryLoaded(timestampNs, 1.0))];
    }

    method ProcessNetworkEvent(pid: nat, name: string, cgroupId: nat, event: NetEvent)
      requires Valid()
      modifies this
      ensures Valid() && history == old(history) + [Net(pid, name, cgroupId, event)]
      ensures State() == AttackGraph.ProcessNetworkEvent(env, old(State()), pid, name, cgroupId, event)
    {
      var key := (pid, event.dport);
      if env.config.dedupEnabled && key in lastNetworkUpdate {
        var last := lastNetworkUpdate[key];
        if event.timestampNs > last && event.timestampNs - last < WindowNs(env.config.networkWindowSecs) {
          AggregateNetworkEvent(pid, event);
          burstEventsCollapsed := burstEventsCollapsed + 1;
          NoteOp(Net(pid, name, cgroupId, event));
          return;
        }
      }
      RecordConnection(pid, name, cgroupId, event);
      NoteOp(Net(pid, name, cgroupId, event));
    }

    /** The part of `process_network_event` reached by an event that is not collapsed. */
    method RecordConnection(pid: nat, name: string, cgroupId: nat, event: NetEvent)
      requires Ready()
      modifies `nodes, `nodeIndices, `edges, `lastNetworkUpdate, `updateQueue
      ensures Ready() && State() == AttackGraph.RecordConnection(env.config, old(State()), pid, name, cgroupId, event)
    {
      assert WellFormed(AttackGraph.RecordConnection(env.config, State(), pid, name, cgroupId, event)) by {
        RecordView(env.config, State(), pid, name, cgroupId, event);
      }
      lastNetworkUpdate := lastNetworkUpdate[(pid, event.dport) := event.timestampNs];
      var processIdx := AddNode(Process(pid, name, cgroupId));
      var netIdx := AddNode(Network(Dotted(event.daddr), event.dport, Protocol(event.kind)));
      var edge := Connection(env.config, event);
      edges := edges + [GraphEdge(processIdx, netIdx, edge)];
      CorrelateWithLibraries(pid, netIdx, event, edge.confidence);
      updateQueue := updateQueue + [EdgeAdded(ProcId(pid), Destination(event), edge)];
    }

    method AggregateNetworkEvent(pid: nat, event: NetEvent)
      requires Ready()
      modifies `edges, `updateQueue
      ensures Ready() && State() == AttackGraph.AggregateNetworkEvent(env, old(State()), pid, event)
    {
      AggregateView(env, State(), pid, event);
      if ProcId(pid) !in nodeIndices || Destination(event) !in nodeIndices {
        return;
      }
      var p, n := nodeIndices[ProcId(pid)], nodeIndices[Destination(event)];
      match env.findEdge(edges, p, n)
      case None =>
      case Some(k) =>
        assert Finds(edges, p, n, Some(k));
        if edges[k].weight.NetworkConnection? {
          edges := edges[k := edges[k].(weight := Merge(edges[k].weight, event))];
          updateQueue := updateQueue + [EdgeUpdated(ProcId(pid), Destination(event), event.dataSize)];
        }
    }

    /** Appends one edge per load inside the correlation window, in load order. */
    method CorrelateWithLibraries(pid: nat, netIdx: nat, event: NetEvent, confidence: real)
      requires confidence == BaseConfidence(env.config, event)
      modifies `edges
      ensures edges == old(edges) + Attempts(env.config, nodeIndices, LoadsOf(old(State()), pid), netIdx, event)
    {
      if pid in processLibraries {
        var libs := processLibraries[pid];
        for i := 0 to |libs|
          invariant edges == old(edges) + Attempts(env.config, nodeIndices, libs[..i], netIdx, event)
        {
          var load := libs[i];
          assert libs[..i + 1][..i] == libs[..i];
          if event.timestampNs > load.timestampNs &&
            event.timestampNs - load.timestampNs < WindowNs(env.config.mmapWindowSecs) {
            if LibId(load.path) in nodeIndices {
              var attempt := NewAttempt(load, event, confidence);
              edges := edges + [GraphEdge(nodeIndices[LibId(load.path)], netIdx, attempt)];
            }
          }
        }
        assert libs[..|libs|] == libs;
      }
    }

    method NewAttempt(load: LibraryLoad, event: NetEvent, confidence: real) returns (attempt: RuntimeEdge)
      requires confidence == BaseConfidence(env.config, event) && load.timestampNs <= event.timestampNs
      ensures attempt == Attempt(env.config, load, event)
    {
      var evidence := "Library " + load.path + " loaded "
                      + Decimal((event.timestampNs - load.timestampNs) / 1_000_000_000)
                      + "s before network activity";
      attempt := ExploitationAttempt(confidence * 0.8, evidence);
    }

    method AssociateCveWithLibrary(cveId: string, package: string, cvss: real, epss: real, kev: bool)
      requires Valid()
      modifies this
      ensures Valid() && history == old(history) + [Associate(cveId, package, cvss, epss, kev)]
      ensures State() == AttackGraph.AssociateCveWithLibrary(env, old(State()), cveId, package, cvss, epss, kev)
    {
      LinkVulnerability(cveId, package, cvss, epss, kev);
      NoteOp(Associate(cveId, package, cvss, epss, kev));
    }

    method LinkVulnerability(cveId: string, package: string, cvss: real, epss: real, kev: bool)
      requires Ready()
      modifies `nodes, `nodeIndices, `edges
      ensures Ready() &&
        State() == AttackGraph.AssociateCveWithLibrary(env, old(State()), cveId, package, cvss, epss, kev)
    {
      assert WellFormed(AttackGraph.AssociateCveWithLibrary(env, State(), cveId, package, cvss, epss, kev)) by {
        var _ := AssociateView(env, State(), cveId, package, cvss, epss, kev);
      }
      var vulnIdx := AddNode(Vulnerability(cveId, package, cvss, epss, kev));
      LinkMatchingLibraries(vulnIdx, package);
    }

    /** One edge from the vulnerability to each library node whose path matches the package, in node order. */
    method LinkMatchingLibraries(vulnIdx: nat, package: string)
      modifies `edges
      ensures edges == old(edges) + VulnerableEdges(env, nodes, vulnIdx, package)
    {
      for idx := 0 to |nodes|
        invariant edges == old(edges) + VulnerableEdges(env, nodes[..idx], vulnIdx, package)
      {
        assert nodes[..idx + 1][..idx] == nodes[..idx];
        if nodes[idx].Library? && env.matches(nodes[idx].path, package) {
          edges := edges + [GraphEdge(vulnIdx, idx, Vulnerable(0.95))];
        }
      }
      assert nodes[..|nodes|] == nodes;
    }

    method DrainUpdates() returns (updates: seq<GraphUpdate>)
      requires Valid()
      modifies this
      ensures Valid() && history == old(history) + [Drain]
      ensures updates == old(updateQueue) && updateQueue == [] && State() == AttackGraph.DrainUpdates(old(State()))
    {
      updates := updateQueue;
      drained := drained + updateQueue;
      updateQueue := [];
      NoteOp(Drain);
    }

    method BuildPathForFinding(f: Finding) returns (path: AttackPath)
      requires Ready()
      ensures path == PathFor(env, State(), f)
    {
      var d := CollectPath(f);
      var scale := |d.nodes| as real * 0.2;
      path := AttackPath(d.nodes, d.edges, PathConfidence(d, f), f.score * (if scale <= 1.0 then scale else 1.0),
                         env.config.mmapWindowSecs, d.indicators, |d.nodes|, d.signals, d.totalBytes);
    }

    /** The vectors of a path, filled by the three loops. */
    method CollectPath(f: Finding) returns (d: Draft)
      requires Ready()
      ensures d == DraftFor(env, State(), f)
    {
      d := StartOf(f);
      if VulnId(f.cve) in nodeIndices {
        d := AppendLibraries(d, nodeIndices[VulnId(f.cve)]);
      }
    }

    /** Outer loop of path construction: the vulnerable libraries. */
    method AppendLibraries(start: Draft, vulnIdx: nat) returns (d: Draft)
      requires Ready()
      ensures Indices(State(), env.outgoing(edges, vulnIdx))
      ensures d == AddLibraries(env, State(), start, env.outgoing(edges, vulnIdx))
    {
      d := start;
      var list := env.outgoing(edges, vulnIdx);
      OutgoingIsIndices(env, State(), vulnIdx);
      for i := 0 to |list|
        invariant Indices(State(), list[..i]) && d == AddLibraries(env, State(), start, list[..i])
      {
        PrefixStep(list, i);
        var edge := edges[list[i]];
        if edge.weight.Vulnerable? {
          d := PushLibrary(d, nodes[edge.dst]);
          d := AppendProcesses(d, edge.dst);
        }
      }
      assert list[..|list|] == list;
    }

    /** Middle loop: the processes that loaded a library, each followed by its connections. */
    method AppendProcesses(start: Draft, libIdx: nat) returns (d: Draft)
      requires Ready()
      ensures Indices(State(), env.incoming(edges, libIdx))
      ensures d == AddProcesses(env, State(), start, env.incoming(edges, libIdx))
    {
      d := start;
      var list := env.incoming(edges, libIdx);
      IncomingIsIndices(env, State(), libIdx);
      for i := 0 to |list|
        invariant Indices(State(), list[..i]) && d == AddProcesses(env, State(), start, list[..i])
      {
        PrefixStep(list, i);
        var edge := edges[list[i]];
        if edge.weight.LibraryLoaded? {
          d := PushProcess(d, nodes[edge.src], edge.weight);
          d := AppendConnections(d, edge.src);
        }
      }
      assert list[..|list|] == list;
    }

    /** Inner loop: the connections of a process. */
    method AppendConnections(start: Draft, processIdx: nat) returns (d: Draft)
      requires Ready()
      ensures Indices(State(), env.outgoing(edges, processIdx))
      ensures d == AddConnections(State(), start, env.outgoing(edges, processIdx))
    {
      d := start;
      var list := env.outgoing(edges, processIdx);
      OutgoingIsIndices(env, State(), processIdx);
      for i := 0 to |list|
        invariant Indices(State(), list[..i]) && d == AddConnections(State(), start, list[..i])
      {
        PrefixStep(list, i);
        var edge := edges[list[i]];
        if edge.weight.NetworkConnection? {
          d := PushConnection(d, nodes[edge.dst], edge.weight);
        }
      }
      assert list[..|list|] == list;
    }

    method GetEnforceablePaths(findings: seq<Finding>) returns (paths: seq<AttackPath>)
      requires Ready()
      ensures paths == EnforceablePaths(env, State(), findings)
    {
      paths := [];
      for i := 0 to |findings|
        invariant paths == EnforceablePaths(env, State(), findings[..i])
      {
        assert findings[..i + 1][..i] == findings[..i];
        if findings[i].reachable {
          var path := BuildPathForFinding(findings[i]);
          if MeetsEnforcementCriteria(path, env.config) {
            paths := paths + [path];
          }
        }
      }
      assert findings[..|findings|] == findings;
    }
  }
}
