/**
 Enforcement against the bare history of operations: which loads, associations and network events
 complete a chain, and that what is enforced stays enforced.
 */
module EnforcementHistory {
  import opened NodeIdentity
  import opened AttackGraph
  import opened AttackGraphRuns
  import opened AttackGraphHistory
  import opened AttackGraphWindows
  import opened AttackGraphContents
  import opened AttackPaths

  // ---- each kind of edge, from the history -------------------------------------------------

  ghost predicate HasLoadEdge(view: seq<EdgeView>, pid: nat, path: string) {
    exists e :: e in view && e.weight.LibraryLoaded? && e.from == ProcId(pid) && e.to == LibId(path)
  }

  ghost predicate HasLink(view: seq<EdgeView>, cve: string, path: string) {
    exists e :: e in view && e.weight.Vulnerable? && e.from == VulnId(cve) && e.to == LibId(path)
  }

  predicate LoadedBy(ops: seq<Op>, pid: nat, path: string) {
    exists i | 0 <= i < |ops| :: ops[i].Load? && ops[i].pid == pid && ops[i].path == path
  }

  predicate Loaded(ops: seq<Op>, path: string) {
    exists i | 0 <= i < |ops| :: ops[i].Load? && ops[i].path == path
  }

  /** Operation `a` associates the vulnerability with a package that the library matches, loaded before. */
  predicate LinkedAt(env: Environment, ops: seq<Op>, cve: string, path: string, a: nat) {
    a < |ops| && ops[a].Associate? && ops[a].cveId == cve && env.matches(path, ops[a].package) && Loaded(ops[..a], path)
  }

  ghost predicate Linked(env: Environment, ops: seq<Op>, cve: string, path: string) {
    exists a: nat :: LinkedAt(env, ops, cve, path, a)
  }

  lemma LoadedOneMore(ops: seq<Op>, path: string)
    requires ops != []
    ensures var op := ops[|ops| - 1];
      Loaded(ops, path) <==> Loaded(ops[..|ops| - 1], path) || (op.Load? && op.path == path)
  {
    var n := |ops| - 1;
    if i :| 0 <= i < n && ops[..n][i].Load? && ops[..n][i].path == path { assert ops[i].Load?; }
    if i :| 0 <= i < |ops| && ops[i].Load? && ops[i].path == path { if i < n { assert ops[..n][i].Load?; } }
  }

  lemma LoadedByOneMore(ops: seq<Op>, pid: nat, path: string)
    requires ops != []
    ensures var n := |ops| - 1;
      LoadedBy(ops, pid, path) <==>
        LoadedBy(ops[..n], pid, path) || (ops[n].Load? && ops[n].pid == pid && ops[n].path == path)
  {
    var n := |ops| - 1;
    assert forall i | 0 <= i < n :: ops[..n][i] == ops[i];
  }

  lemma {:induction false} LoadEdgesFromHistory(env: Environment, ops: seq<Op>, pid: nat, path: string)
    requires Sound(env)
    ensures WellFormed(After(env, ops))
    ensures HasLoadEdge(View(After(env, ops)), pid, path) <==> LoadedBy(ops, pid, path)
  {
    if ops != [] {
      var n := |ops| - 1;
      LoadEdgesFromHistory(env, ops[..n], pid, path);
      LoadEdgesStep(env, After(env, ops[..n]), ops[n], pid, path);
      LoadedByOneMore(ops, pid, path);
    }
  }

  lemma LoadEdgesStep(env: Environment, g: Graph, op: Op, pid: nat, path: string)
    requires Sound(env) && WellFormed(g)
    ensures WellFormed(Step(env, g, op))
    ensures HasLoadEdge(View(Step(env, g, op)), pid, path) <==>
      HasLoadEdge(View(g), pid, path) || (op.Load? && op.pid == pid && op.path == path)
  {
    var more := StepAdds(env, g, op);
    LoadEdgesGoOn(env, g, View(Step(env, g, op)), op, more, pid, path);
  }

  lemma LoadEdgesGoOn(env: Environment, g: Graph, v: seq<EdgeView>, op: Op, more: seq<EdgeView>, pid: nat, path: string)
    requires WellFormed(g) && GoesOn(View(g), v, more) && Adds(env, g, op, more)
    ensures HasLoadEdge(v, pid, path) <==>
      HasLoadEdge(View(g), pid, path) || (op.Load? && op.pid == pid && op.path == path)
  {
    forall e: EdgeView | e.weight.LibraryLoaded? ensures e in v <==> e in View(g) || e in more {
      InView(View(g), v, more, e);
    }
    if op.Net? { EventAddsNoOther(env.config, LoadsOf(g, op.pid), op.pid, op.event); }
    if op.Load? {
      NodeIdInjective(Process(op.pid, "", 0), Process(pid, "", 0));
      NodeIdInjective(Library(op.path, []), Library(path, []));
      var e := EdgeView(ProcId(op.pid), LibId(op.path), LibraryLoaded(op.timestampNs, 1.0));
      assert e in more && e in v;
    }
  }

  lemma {:induction false} LibrariesFromHistory(env: Environment, ops: seq<Op>, path: string)
    requires Sound(env)
    ensures LibId(path) in After(env, ops).index <==> Loaded(ops, path)
  {
    if ops != [] {
      var n := |ops| - 1;
      LibrariesFromHistory(env, ops[..n], path);
      LoadedOneMore(ops, path);
      IndexGoesOn(env, After(env, ops[..n]), ops[n], path);
    }
  }

  lemma IndexGoesOn(env: Environment, g: Graph, op: Op, path: string)
    requires Sound(env)
    ensures LibId(path) in Step(env, g, op).index <==> LibId(path) in g.index || (op.Load? && op.path == path)
  {
    match op
    case Load(pid, name, cgroupId, p, _) =>
      AddedIndexes(g, Process(pid, name, cgroupId), path);
      AddedIndexes(AddNode(g, Process(pid, name, cgroupId)).0, Library(p, []), path);
    case Net(pid, name, cgroupId, event) => EventIndexes(env, g, op, path);
    case Associate(cveId, package, cvss, epss, kev) =>
      AddedIndexes(g, Vulnerability(cveId, package, cvss, epss, kev), path);
    case Drain =>
  }

  lemma EventIndexes(env: Environment, g: Graph, op: Op, path: string)
    requires Sound(env) && op.Net?
    ensures LibId(path) in Step(env, g, op).index <==> LibId(path) in g.index
  {
    var process := Process(op.pid, op.name, op.cgroupId);
    var g0 := g.(lastNetwork := g.lastNetwork[(op.pid, op.event.dport) := op.event.timestampNs]);
    AddedIndexes(g0, process, path);
    AddedIndexes(AddNode(g0, process).0,
      Network(Dotted(op.event.daddr), op.event.dport, Protocol(op.event.kind)), path);
  }

  lemma {:induction false} LinksFromHistory(env: Environment, ops: seq<Op>, cve: string, path: string)
    requires Sound(env)
    ensures WellFormed(After(env, ops))
    ensures HasLink(View(After(env, ops)), cve, path) <==> Linked(env, ops, cve, path)
  {
    if ops != [] {
      var n := |ops| - 1;
      LinksFromHistory(env, ops[..n], cve, path);
      LibrariesFromHistory(env, ops[..n], path);
      LinksStep(env, After(env, ops[..n]), ops[n], cve, path);
      LinkedOneMore(env, ops, cve, path);
    }
  }

  lemma LinksStep(env: Environment, g: Graph, op: Op, cve: string, path: string)
    requires Sound(env) && WellFormed(g)
    ensures WellFormed(Step(env, g, op))
    ensures HasLink(View(Step(env, g, op)), cve, path) <==>
      HasLink(View(g), cve, path) ||
      (op.Associate? && op.cveId == cve && LibId(path) in g.index && env.matches(path, op.package))
  {
    var more := StepAdds(env, g, op);
    LinksGoOn(env, g, View(Step(env, g, op)), op, more, cve, path);
  }

  lemma LinkedOneMore(env: Environment, ops: seq<Op>, cve: string, path: string)
    requires ops != []
    ensures var n := |ops| - 1;
      Linked(env, ops, cve, path) <==> Linked(env, ops[..n], cve, path) || LinkedAt(env, ops, cve, path, n)
  {
    var n := |ops| - 1;
    forall a: nat | a < n ensures LinkedAt(env, ops[..n], cve, path, a) == LinkedAt(env, ops, cve, path, a) {
      assert ops[..n][..a] == ops[..a];
    }
  }

  lemma LinksGoOn(env: Environment, g: Graph, v: seq<EdgeView>, op: Op, more: seq<EdgeView>, cve: string, path: string)
    requires WellFormed(g) && GoesOn(View(g), v, more) && Adds(env, g, op, more)
    ensures HasLink(v, cve, path) <==>
      HasLink(View(g), cve, path) ||
      (op.Associate? && op.cveId == cve && LibId(path) in g.index && env.matches(path, op.package))
  {
    forall e: EdgeView | e.weight.Vulnerable? ensures e in v <==> e in View(g) || e in more {
      InView(View(g), v, more, e);
    }
    if op.Net? { EventAddsNoOther(env.config, LoadsOf(g, op.pid), op.pid, op.event); }
    if op.Associate? {
      NodeIdInjective(Vulnerability(op.cveId, "", 0.0, 0.0, false), Vulnerability(cve, "", 0.0, 0.0, false));
    }
  }

  predicate IsLink(e: EdgeView, cve: string, path: string) {
    e.weight.Vulnerable? && e.from == VulnId(cve) && e.to == LibId(path)
  }

  function CountLinks(view: seq<EdgeView>, cve: string, path: string): nat {
    if view == [] then 0
    else CountLinks(view[..|view| - 1], cve, path) + if IsLink(view[|view| - 1], cve, path) then 1 else 0
  }

  lemma {:induction false} LinksOfPrefix(v: seq<EdgeView>, w: seq<EdgeView>, cve: string, path: string)
    requires |v| <= |w| && forall k | 0 <= k < |v| :: IsLink(v[k], cve, path) == IsLink(w[k], cve, path)
    ensures CountLinks(w[..|v|], cve, path) == CountLinks(v, cve, path)
  {
    if v != [] {
      var n := |v| - 1;
      LinksOfPrefix(v[..n], w, cve, path);
      assert w[..n + 1][..n] == w[..n];
    }
  }

  lemma {:induction false} LinksAppend(a: seq<EdgeView>, b: seq<EdgeView>, cve: string, path: string)
    ensures CountLinks(a + b, cve, path) == CountLinks(a, cve, path) + CountLinks(b, cve, path)
  {
    if b == [] {
      assert a + b == a;
    } else {
      assert (a + b)[..|a + b| - 1] == a + b[..|b| - 1];
      LinksAppend(a, b[..|b| - 1], cve, path);
    }
  }

  /** A list of edges to different libraries holds one link at most. */
  lemma {:induction false} OneLinkEach(more: seq<EdgeView>, cve: string, path: string)
    requires forall i, j | 0 <= i < j < |more| :: more[i].to != more[j].to
    ensures CountLinks(more, cve, path) == if exists e :: e in more && IsLink(e, cve, path) then 1 else 0
  {
    if more != [] {
      var n := |more| - 1;
      OneLinkEach(more[..n], cve, path);
      assert more == more[..n] + [more[n]];
      if IsLink(more[n], cve, path) {
        forall e | e in more[..n] ensures e.to != more[n].to {
          var i :| 0 <= i < n && more[..n][i] == e;
          assert more[i].to != more[n].to;
        }
      }
    }
  }

  lemma LinksGrow(v: seq<EdgeView>, v': seq<EdgeView>, more: seq<EdgeView>, cve: string, path: string)
    requires GoesOn(v, v', more)
    ensures CountLinks(v', cve, path) == CountLinks(v, cve, path) + CountLinks(more, cve, path)
  {
    LinksOfPrefix(v, v', cve, path);
    LinksAppend(v'[..|v|], more, cve, path);
    assert v' == v'[..|v|] + more;
  }

  lemma AddedLinks(env: Environment, g: Graph, op: Op, more: seq<EdgeView>, cve: string, path: string)
    requires Adds(env, g, op, more)
    ensures CountLinks(more, cve, path) ==
      if op.Associate? && op.cveId == cve && LibId(path) in g.index && env.matches(path, op.package) then 1 else 0
  {
    if op.Net? { EventAddsNoOther(env.config, LoadsOf(g, op.pid), op.pid, op.event); }
    if op.Associate? {
      NodeIdInjective(Vulnerability(op.cveId, "", 0.0, 0.0, false), Vulnerability(cve, "", 0.0, 0.0, false));
      OneLinkEach(more, cve, path);
    } else {
      NoLinks(more, cve, path);
    }
  }

  lemma {:induction false} NoLinks(more: seq<EdgeView>, cve: string, path: string)
    requires forall e | e in more :: !e.weight.Vulnerable?
    ensures CountLinks(more, cve, path) == 0
  {
    if more != [] {
      var n := |more| - 1;
      assert more == more[..n] + [more[n]];
      NoLinks(more[..n], cve, path);
    }
  }

  /** The associations that link a vulnerability with a library loaded before. */
  function CountAssociations(env: Environment, ops: seq<Op>, cve: string, path: string): nat {
    if ops == [] then 0
    else
      var n := |ops| - 1;
      CountAssociations(env, ops[..n], cve, path) + if LinkedAt(env, ops, cve, path, n) then 1 else 0
  }

  /** A vulnerability has one edge to a library for each association that links them, and no other. */
  lemma {:induction false} LinksAreAssociations(env: Environment, ops: seq<Op>, cve: string, path: string)
    requires Sound(env)
    ensures WellFormed(After(env, ops))
    ensures CountLinks(View(After(env, ops)), cve, path) == CountAssociations(env, ops, cve, path)
  {
    if ops != [] {
      var n := |ops| - 1;
      LinksAreAssociations(env, ops[..n], cve, path);
      LibrariesFromHistory(env, ops[..n], path);
      LinksCountStep(env, After(env, ops[..n]), ops[n], cve, path);
    }
  }

  lemma LinksCountStep(env: Environment, g: Graph, op: Op, cve: string, path: string)
    requires Sound(env) && WellFormed(g)
    ensures WellFormed(Step(env, g, op))
    ensures CountLinks(View(Step(env, g, op)), cve, path) == CountLinks(View(g), cve, path) +
      if op.Associate? && op.cveId == cve && LibId(path) in g.index && env.matches(path, op.package) then 1 else 0
  {
    var more := StepAdds(env, g, op);
    LinksGrow(View(g), View(Step(env, g, op)), more, cve, path);
    AddedLinks(env, g, op, more, cve, path);
  }

  ghost predicate ConnectsFrom(view: seq<EdgeView>, pid: nat, least: real) {
    exists e :: e in view && e.weight.NetworkConnection? && e.from == ProcId(pid) && e.weight.confidence >= least
  }

  predicate RecordedBy(env: Environment, ops: seq<Op>, pid: nat) {
    exists i | 0 <= i < |RecordedEvents(env, ops)| :: RecordedEvents(env, ops)[i].pid == pid
  }

  lemma {:induction false} ConnectionsSelect(view: seq<EdgeView>, e: EdgeView)
    ensures e in Connections(view) <==> e in view && e.weight.NetworkConnection?
  {
    if view != [] {
      var n := |view| - 1;
      ConnectionsSelect(view[..n], e);
      assert view == view[..n] + [view[n]];
    }
  }

  /** Connections and recorded events pair off, so a process is the source of both or of neither. */
  lemma PairedSources(config: AttackGraphConfig, connections: seq<EdgeView>, recorded: seq<Recorded>, pid: nat)
    requires Paired(config, connections, recorded)
    ensures forall e | e in connections :: e.weight.NetworkConnection?
    ensures (exists e :: e in connections && e.from == ProcId(pid) && e.weight.confidence >= 0.0)
      <==> exists i | 0 <= i < |recorded| :: recorded[i].pid == pid
  {
    forall i | 0 <= i < |recorded|
      ensures connections[i].from == ProcId(pid) <==> recorded[i].pid == pid
      ensures connections[i].weight.confidence >= 0.0
    {
      assert ConnectionOf(config, connections[i], recorded[i]);
      NodeIdInjective(Process(recorded[i].pid, "", 0), Process(pid, "", 0));
      BaseIsPositive(config, connections[i], recorded[i]);
    }
    if i :| 0 <= i < |recorded| && recorded[i].pid == pid { assert connections[i] in connections; }
  }

  lemma ConnectionsFromHistory(env: Environment, ops: seq<Op>, pid: nat)
    requires Sound(env)
    ensures WellFormed(After(env, ops))
    ensures ConnectsFrom(View(After(env, ops)), pid, 0.0) <==> RecordedBy(env, ops, pid)
  {
    ConfidenceLaw(env, ops);
    SelectedSources(View(After(env, ops)), pid);
    PairedSources(env.config, Connections(View(After(env, ops))), RecordedEvents(env, ops), pid);
  }

  lemma SelectedSources(view: seq<EdgeView>, pid: nat)
    ensures ConnectsFrom(view, pid, 0.0)
      <==> exists e :: e in Connections(view) && e.from == ProcId(pid) && e.weight.confidence >= 0.0
    ensures forall e | e in Connections(view) :: e.weight.NetworkConnection?
  {
    forall e
      ensures e in Connections(view) <==> e in view && e.weight.NetworkConnection?
    {
      ConnectionsSelect(view, e);
    }
  }

  lemma BaseIsPositive(config: AttackGraphConfig, e: EdgeView, r: Recorded)
    requires ConnectionOf(config, e, r)
    ensures e.weight.confidence >= 0.7
  {
  }

  // ---- complete chains ---------------------------------------------------------------------

  /** A chain of the vulnerability in the view, ending in a connection at least this confident. */
  ghost predicate ViewChain(view: seq<EdgeView>, cve: string, least: real) {
    exists path, pid: nat :: HasLink(view, cve, path) && HasLoadEdge(view, pid, path) && ConnectsFrom(view, pid, least)
  }

  ghost predicate ChainAt(g: Graph, f: Finding, least: real) {
    exists w :: ChainConnection(g, f, w) && w.confidence >= least
  }

  lemma EndsAreIndexed(g: Graph, k: nat)
    requires WellFormed(g) && k < |g.edges|
    ensures var e, v := g.edges[k], View(g)[k];
      && v.from == NodeId(g.nodes[e.src]) && v.from in g.index && g.index[v.from] == e.src
      && v.to == NodeId(g.nodes[e.dst]) && v.to in g.index && g.index[v.to] == e.dst
      && Typed(g.nodes[e.src], g.nodes[e.dst], e.weight) && v.weight == e.weight
  {
  }

  lemma ChainOfEdges(g: Graph, f: Finding, u: nat, l: nat, c: nat)
    requires WellFormed(g) && u < |g.edges| && l < |g.edges| && c < |g.edges|
    requires g.edges[u].weight.Vulnerable? && g.edges[l].weight.LibraryLoaded? && g.edges[c].weight.NetworkConnection?
    requires VulnId(f.cve) in g.index && g.edges[u].src == g.index[VulnId(f.cve)]
    requires g.edges[l].dst == g.edges[u].dst && g.edges[c].src == g.edges[l].src
    ensures ChainConnection(g, f, g.edges[c].weight)
  {
    var item := ConnectionItem(g.edges[c].weight);
    assert GivesConnection(g, c, item);
    assert GivesLoad(g, l, item);
    assert GivesLibrary(g, u, item);
  }

  lemma EdgesOfChain(g: Graph, f: Finding, w: RuntimeEdge) returns (u: nat, l: nat, c: nat)
    requires WellFormed(g) && ChainConnection(g, f, w)
    ensures u < |g.edges| && l < |g.edges| && c < |g.edges| && g.edges[c].weight == w
    ensures g.edges[u].weight.Vulnerable? && g.edges[l].weight.LibraryLoaded? && g.edges[c].weight.NetworkConnection?
    ensures VulnId(f.cve) in g.index && g.edges[u].src == g.index[VulnId(f.cve)]
    ensures g.edges[l].dst == g.edges[u].dst && g.edges[c].src == g.edges[l].src
  {
    var item := ConnectionItem(w);
    u :| GivesLibrary(g, u, item) && g.edges[u].src == g.index[VulnId(f.cve)];
    l :| GivesLoad(g, l, item) && g.edges[l].dst == g.edges[u].dst;
    c :| GivesConnection(g, c, item) && g.edges[c].src == g.edges[l].src;
  }

  lemma ViewChainIsChain(g: Graph, f: Finding, least: real)
    requires WellFormed(g) && ViewChain(View(g), f.cve, least)
    ensures ChainAt(g, f, least)
  {
    var view := View(g);
    var path, pid: nat :| HasLink(view, f.cve, path) && HasLoadEdge(view, pid, path) && ConnectsFrom(view, pid, least);
    var u := LinkIn(view, f.cve, path);
    var l := LoadIn(view, pid, path);
    var c := ConnectionIn(view, pid, least);
    EndsAreIndexed(g, u);
    EndsAreIndexed(g, l);
    EndsAreIndexed(g, c);
    ChainOfEdges(g, f, u, l, c);
  }

  lemma LinkIn(view: seq<EdgeView>, cve: string, path: string) returns (k: nat)
    requires HasLink(view, cve, path)
    ensures k < |view| && view[k].weight.Vulnerable? && view[k].from == VulnId(cve) && view[k].to == LibId(path)
  {
    var e :| e in view && e.weight.Vulnerable? && e.from == VulnId(cve) && e.to == LibId(path);
    k :| k < |view| && view[k] == e;
  }

  lemma LoadIn(view: seq<EdgeView>, pid: nat, path: string) returns (k: nat)
    requires HasLoadEdge(view, pid, path)
    ensures k < |view| && view[k].weight.LibraryLoaded? && view[k].from == ProcId(pid) && view[k].to == LibId(path)
  {
    var e :| e in view && e.weight.LibraryLoaded? && e.from == ProcId(pid) && e.to == LibId(path);
    k :| k < |view| && view[k] == e;
  }

  lemma ConnectionIn(view: seq<EdgeView>, pid: nat, least: real) returns (k: nat)
    requires ConnectsFrom(view, pid, least)
    ensures k < |view| && view[k].weight.NetworkConnection? && view[k].from == ProcId(pid) &&
      view[k].weight.confidence >= least
  {
    var e :| e in view && e.weight.NetworkConnection? && e.from == ProcId(pid) && e.weight.confidence >= least;
    k :| k < |view| && view[k] == e;
  }

  lemma ChainIsViewChain(g: Graph, f: Finding, least: real)
    requires WellFormed(g) && ChainAt(g, f, least)
    ensures ViewChain(View(g), f.cve, least)
  {
    var view := View(g);
    var w :| ChainConnection(g, f, w) && w.confidence >= least;
    var u, l, c := EdgesOfChain(g, f, w);
    EndsAreIndexed(g, u);
    EndsAreIndexed(g, l);
    EndsAreIndexed(g, c);
    IndexedNode(g, VulnId(f.cve));
    var path, pid := g.nodes[g.edges[u].dst].path, g.nodes[g.edges[l].src].pid;
    assert view[u] in view && view[l] in view && view[c] in view;
    assert HasLink(view, f.cve, path);
    assert HasLoadEdge(view, pid, path);
    assert ConnectsFrom(view, pid, least);
  }

  lemma IndexedNode(g: Graph, id: string)
    requires WellFormed(g) && id in g.index
    ensures g.index[id] < |g.nodes| && NodeId(g.nodes[g.index[id]]) == id
  {
  }

  /** Some library, matched and loaded before the association, was loaded at any time by a process that connected. */
  ghost predicate ChainInHistory(env: Environment, ops: seq<Op>, cve: string) {
    exists path, pid: nat :: Linked(env, ops, cve, path) && LoadedBy(ops, pid, path) && RecordedBy(env, ops, pid)
  }

  /**
   The graph holds a complete chain of a finding exactly when some library was loaded by anyone before
   an association of the finding's vulnerability with a package it matches, and by a process, at any
   time, that has a recorded network event. Libraries first loaded after the association do not count.
   */
  lemma CompleteChainFromHistory(env: Environment, ops: seq<Op>, f: Finding)
    requires Sound(env)
    ensures CompleteChain(After(env, ops), f) <==> ChainInHistory(env, ops, f.cve)
  {
    var g := After(env, ops);
    AlwaysWellFormed(env, ops);
    forall path, pid: nat
      ensures HasLink(View(g), f.cve, path) <==> Linked(env, ops, f.cve, path)
      ensures HasLoadEdge(View(g), pid, path) <==> LoadedBy(ops, pid, path)
      ensures ConnectsFrom(View(g), pid, 0.0) <==> RecordedBy(env, ops, pid)
    {
      LinksFromHistory(env, ops, f.cve, path);
      LoadEdgesFromHistory(env, ops, pid, path);
      ConnectionsFromHistory(env, ops, pid);
    }
    if CompleteChain(g, f) {
      ChainHasConfidence(env, ops, f);
      ChainIsViewChain(g, f, 0.0);
    }
    if ChainInHistory(env, ops, f.cve) {
      assert ViewChain(View(g), f.cve, 0.0);
      ViewChainIsChain(g, f, 0.0);
    }
  }

  lemma ChainHasConfidence(env: Environment, ops: seq<Op>, f: Finding)
    requires Sound(env) && CompleteChain(After(env, ops), f)
    ensures ChainAt(After(env, ops), f, 0.0)
  {
    var g := After(env, ops);
    var w :| ChainConnection(g, f, w);
    AlwaysWellFormed(env, ops);
    var u, l, c := EdgesOfChain(g, f, w);
    ConfidenceStaysInRange(env, ops, c);
  }

  /**
   With the default thresholds, a known-exploited finding of high EPSS is enforced exactly when the history completes
   its chain.
   */
  lemma EnforcedFromHistory(env: Environment, ops: seq<Op>, f: Finding)
    requires Sound(env) && DefaultThresholds(env.config) && f.kev && f.epss >= 0.7
    ensures WellFormed(After(env, ops))
    ensures MeetsEnforcementCriteria(PathFor(env, After(env, ops), f), env.config) <==> ChainInHistory(env, ops, f.cve)
  {
    AlwaysWellFormed(env, ops);
    EnforcedIff(env, After(env, ops), f);
    CompleteChainFromHistory(env, ops, f);
  }

  // ---- enforcement on one piece of evidence ------------------------------------------------

  /** Recorded event `i` is the process's, and was large or is the first of five in its connection. */
  ghost predicate StrongAt(env: Environment, ops: seq<Op>, pid: nat, i: nat)
    requires Sound(env) && WellFormed(After(env, ops))
    requires |Connections(View(After(env, ops)))| == |RecordedEvents(env, ops)|
  {
    var recorded := RecordedEvents(env, ops);
    && i < |recorded| && recorded[i].pid == pid
    && (recorded[i].event.dataSize > env.config.minBytesThreshold
        || var w := Connections(View(After(env, ops)))[i].weight; w.NetworkConnection? && w.eventCount >= 5)
  }

  lemma StrongFromHistory(env: Environment, ops: seq<Op>, pid: nat)
    requires Sound(env)
    ensures WellFormed(After(env, ops)) && |Connections(View(After(env, ops)))| == |RecordedEvents(env, ops)|
    ensures ConnectsFrom(View(After(env, ops)), pid, 0.9) <==> exists i: nat :: StrongAt(env, ops, pid, i)
  {
    ConfidenceLaw(env, ops);
    var view, recorded := View(After(env, ops)), RecordedEvents(env, ops);
    forall i: nat | i < |recorded|
      ensures Connections(view)[i] in view && Connections(view)[i].weight.NetworkConnection?
      ensures Connections(view)[i].from == ProcId(pid) && Connections(view)[i].weight.confidence >= 0.9
        <==> StrongAt(env, ops, pid, i)
    {
      ConnectionsSelect(view, Connections(view)[i]);
      StrongIffLargeOrRepeated(env, ops, i);
      assert ConnectionOf(env.config, Connections(view)[i], recorded[i]);
      NodeIdInjective(Process(recorded[i].pid, "", 0), Process(pid, "", 0));
    }
    if ConnectsFrom(view, pid, 0.9) {
      var e :| e in view && e.weight.NetworkConnection? && e.from == ProcId(pid) && e.weight.confidence >= 0.9;
      ConnectionsSelect(view, e);
      var i: nat :| i < |Connections(view)| && Connections(view)[i] == e;
      assert StrongAt(env, ops, pid, i);
    }
  }

  /** A completed chain whose process has a strong connection. */
  ghost predicate StrongChainInHistory(env: Environment, ops: seq<Op>, cve: string)
    requires Sound(env) && WellFormed(After(env, ops))
    requires |Connections(View(After(env, ops)))| == |RecordedEvents(env, ops)|
  {
    exists path, pid: nat, i: nat ::
      Linked(env, ops, cve, path) && LoadedBy(ops, pid, path) && StrongAt(env, ops, pid, i)
  }

  lemma StrongChainFromHistory(env: Environment, ops: seq<Op>, f: Finding)
    requires Sound(env)
    ensures WellFormed(After(env, ops)) && |Connections(View(After(env, ops)))| == |RecordedEvents(env, ops)|
    ensures StrongChain(After(env, ops), f) <==> StrongChainInHistory(env, ops, f.cve)
  {
    ConfidenceLaw(env, ops);
    var g := After(env, ops);
    forall path, pid: nat
      ensures HasLink(View(g), f.cve, path) <==> Linked(env, ops, f.cve, path)
      ensures HasLoadEdge(View(g), pid, path) <==> LoadedBy(ops, pid, path)
      ensures ConnectsFrom(View(g), pid, 0.9) <==> exists i: nat :: StrongAt(env, ops, pid, i)
    {
      LinksFromHistory(env, ops, f.cve, path);
      LoadEdgesFromHistory(env, ops, pid, path);
      StrongFromHistory(env, ops, pid);
    }
    if StrongChain(g, f) { ChainIsViewChain(g, f, 0.9); }
    if StrongChainInHistory(env, ops, f.cve) {
      assert ViewChain(View(g), f.cve, 0.9);
      ViewChainIsChain(g, f, 0.9);
    }
  }

  /**
   With the default thresholds, a finding with one of a known exploit and a high EPSS is enforced exactly
   when the history completes its chain through a process with a recorded event that was large, or whose
   connection five events made up.
   */
  lemma EnforcedOnOneIff(env: Environment, ops: seq<Op>, f: Finding)
    requires Sound(env) && DefaultThresholds(env.config) && f.kev != (f.epss >= 0.7)
    ensures WellFormed(After(env, ops)) && |Connections(View(After(env, ops)))| == |RecordedEvents(env, ops)|
    ensures MeetsEnforcementCriteria(PathFor(env, After(env, ops), f), env.config)
      <==> StrongChainInHistory(env, ops, f.cve)
  {
    StrongChainFromHistory(env, ops, f);
    EnforcedIff(env, After(env, ops), f);
    assert StrongChain(After(env, ops), f) ==> CompleteChain(After(env, ops), f);
  }

  /** From the bare history: one large recorded event of a process on the chain is enough. */
  lemma EnforcedByLargeEvent(env: Environment, ops: seq<Op>, f: Finding, path: string, pid: nat, i: nat)
    requires Sound(env) && DefaultThresholds(env.config) && (f.kev || f.epss >= 0.7)
    requires Linked(env, ops, f.cve, path) && LoadedBy(ops, pid, path)
    requires i < |RecordedEvents(env, ops)| && RecordedEvents(env, ops)[i].pid == pid
    requires RecordedEvents(env, ops)[i].event.dataSize > env.config.minBytesThreshold
    ensures WellFormed(After(env, ops)) && MeetsEnforcementCriteria(PathFor(env, After(env, ops), f), env.config)
  {
    StrongChainFromHistory(env, ops, f);
    assert StrongAt(env, ops, pid, i);
    EnforcedIff(env, After(env, ops), f);
    assert StrongChain(After(env, ops), f) ==> CompleteChain(After(env, ops), f);
  }

  // ---- enforcement lasts -------------------------------------------------------------------

  lemma EvolvedKeeps(v: seq<EdgeView>, v': seq<EdgeView>, e: EdgeView) returns (e': EdgeView)
    requires Evolves(v, v') && e in v
    ensures e' in v' && e'.from == e.from && e'.to == e.to && Grown(e.weight, e'.weight)
  {
    var k :| 0 <= k < |v| && v[k] == e;
    e' := v'[k];
  }

  lemma ChainLasts(v: seq<EdgeView>, v': seq<EdgeView>, cve: string, least: real)
    requires Evolves(v, v') && ViewChain(v, cve, least)
    ensures ViewChain(v', cve, least)
  {
    var path, pid: nat :| HasLink(v, cve, path) && HasLoadEdge(v, pid, path) && ConnectsFrom(v, pid, least);
    var u :| u in v && u.weight.Vulnerable? && u.from == VulnId(cve) && u.to == LibId(path);
    var l :| l in v && l.weight.LibraryLoaded? && l.from == ProcId(pid) && l.to == LibId(path);
    var c :| c in v && c.weight.NetworkConnection? && c.from == ProcId(pid) && c.weight.confidence >= least;
    var u' := EvolvedKeeps(v, v', u);
    var l' := EvolvedKeeps(v, v', l);
    var c' := EvolvedKeeps(v, v', c);
    assert HasLink(v', cve, path) && HasLoadEdge(v', pid, path) && ConnectsFrom(v', pid, least);
  }

  lemma ChainAtLasts(env: Environment, ops: seq<Op>, n: nat, f: Finding, least: real)
    requires Sound(env) && n <= |ops| && ChainAt(After(env, ops[..n]), f, least)
    ensures ChainAt(After(env, ops), f, least)
  {
    EdgesOnlyGrow(env, ops, n);
    ChainIsViewChain(After(env, ops[..n]), f, least);
    ChainLasts(View(After(env, ops[..n])), View(After(env, ops)), f.cve, least);
    ViewChainIsChain(After(env, ops), f, least);
  }

  /** With the default thresholds, what is enforced at some point of a run is enforced to its end. */
  lemma EnforcementLasts(env: Environment, ops: seq<Op>, n: nat, f: Finding)
    requires Sound(env) && DefaultThresholds(env.config) && n <= |ops|
    requires WellFormed(After(env, ops[..n]))
    requires MeetsEnforcementCriteria(PathFor(env, After(env, ops[..n]), f), env.config)
    ensures WellFormed(After(env, ops)) && MeetsEnforcementCriteria(PathFor(env, After(env, ops), f), env.config)
  {
    AlwaysWellFormed(env, ops);
    EnforcedIff(env, After(env, ops[..n]), f);
    EnforcedIff(env, After(env, ops), f);
    ChainHasConfidence(env, ops[..n], f);
    ChainAtLasts(env, ops, n, f, 0.0);
    if StrongChain(After(env, ops[..n]), f) { ChainAtLasts(env, ops, n, f, 0.9); }
  }
}
