/**
 How often a path counts a connection: the sums its loops add up, in whatever order they walk the
 edges, against counting each connection once.
 */
module PathCounts {
  import opened NodeIdentity
  import opened AttackGraph
  import opened AttackGraphRuns
  import opened AttackPaths

  // ---- sums --------------------------------------------------------------------------------

  function SumOf(values: seq<nat>): nat {
    if values == [] then 0 else SumOf(values[..|values| - 1]) + values[|values| - 1]
  }

  /** The values at the listed places. */
  function Picked(values: seq<nat>, list: seq<nat>): nat
    requires forall k | k in list :: k < |values|
    decreases |list|
  {
    if list == [] then 0 else Picked(values, Init(list)) + values[Last(list)]
  }

  lemma {:induction false} SumWithout(values: seq<nat>, k: nat)
    requires k < |values|
    ensures SumOf(values) == SumOf(values[k := 0]) + values[k]
  {
    var n := |values| - 1;
    if k == n {
      assert values[k := 0][..n] == values[..n];
    } else {
      assert values[k := 0][..n] == values[..n][k := 0];
      SumWithout(values[..n], k);
    }
  }

  lemma {:induction false} SumOfZeros(values: seq<nat>)
    requires forall k | 0 <= k < |values| :: values[k] == 0
    ensures SumOf(values) == 0
  {
    if values != [] { SumOfZeros(values[..|values| - 1]); }
  }

  lemma {:induction false} PickedElsewhere(values: seq<nat>, list: seq<nat>, k: nat)
    requires k < |values| && k !in list && forall i | i in list :: i < |values|
    ensures Picked(values, list) == Picked(values[k := 0], list)
    decreases |list|
  {
    if list != [] { PickedElsewhere(values, Init(list), k); }
  }

  lemma NoRepeatsInit(list: seq<nat>)
    requires list != [] && NoRepeats(list)
    ensures NoRepeats(Init(list)) && Last(list) !in Init(list)
  {
    assert list == Init(list) + [Last(list)];
    forall k: nat ensures multiset(Init(list))[k] <= multiset(list)[k] <= 1 { }
    assert multiset(list)[Last(list)] <= 1;
  }

  /** Picking each place once, and every place that holds anything, is summing all. */
  lemma {:induction false} PickedIsSum(values: seq<nat>, list: seq<nat>)
    requires NoRepeats(list) && forall k | k in list :: k < |values|
    requires forall k: nat | k < |values| && k !in list :: values[k] == 0
    ensures Picked(values, list) == SumOf(values)
    decreases |list|
  {
    if list == [] {
      SumOfZeros(values);
    } else {
      var k := Last(list);
      NoRepeatsInit(list);
      SumWithout(values, k);
      PickedElsewhere(values, Init(list), k);
      PickedIsSum(values[k := 0], Init(list));
    }
  }

  // ---- the loops add up triples of edges ---------------------------------------------------

  /** Each edge's worth as a connection of the process at `p`. */
  ghost function ConnectionValues(m: PathMeasure, g: Graph, p: nat): seq<nat> {
    seq(|g.edges|, k requires 0 <= k < |g.edges| => if g.edges[k].src == p then Worth(m, g.edges[k].weight) else 0)
  }

  /** Each edge's worth as a load of the library at `l`: that of all connections of the loading process. */
  ghost function LoadValues(m: PathMeasure, g: Graph, l: nat): seq<nat> {
    seq(|g.edges|, k requires 0 <= k < |g.edges| =>
      if g.edges[k].dst == l && g.edges[k].weight.LibraryLoaded? then SumOf(ConnectionValues(m, g, g.edges[k].src))
      else 0)
  }

  /** Each edge's worth as a vulnerable library of the vulnerability at `v`: that of all its loads. */
  ghost function LibraryValues(m: PathMeasure, g: Graph, v: nat): seq<nat> {
    seq(|g.edges|, k requires 0 <= k < |g.edges| =>
      if g.edges[k].src == v && g.edges[k].weight.Vulnerable? then SumOf(LoadValues(m, g, g.edges[k].dst)) else 0)
  }

  lemma {:induction false} ConnectionsAddUp(m: PathMeasure, g: Graph, d: Draft, list: seq<nat>, p: nat)
    requires Indices(g, list) && forall k | k in list :: g.edges[k].src == p
    ensures PathWorth(m, AddConnections(g, d, list).edges) ==
      PathWorth(m, d.edges) + Picked(ConnectionValues(m, g, p), list)
    decreases |list|
  {
    if list != [] {
      var e := g.edges[Last(list)];
      var d' := AddConnections(g, d, Init(list));
      ConnectionsAddUp(m, g, d, Init(list), p);
      if e.weight.NetworkConnection? {
        WorthOneMore(m, d'.edges, PathEdge(if d'.nodes == [] then 0 else |d'.nodes| - 1, |d'.nodes|, e.weight));
      }
    }
  }

  lemma ProcessAddsUp(m: PathMeasure, env: Environment, g: Graph, d: Draft, k: nat)
    requires Sound(env) && WellFormed(g) && k < |g.edges| && g.edges[k].weight.LibraryLoaded?
    ensures Indices(g, env.outgoing(g.edges, g.edges[k].src))
    ensures var e := g.edges[k];
      PathWorth(m, AddConnections(g, PushProcess(d, g.nodes[e.src], e.weight), env.outgoing(g.edges, e.src)).edges)
      == PathWorth(m, d.edges) + SumOf(ConnectionValues(m, g, e.src))
  {
    var e := g.edges[k];
    var list := env.outgoing(g.edges, e.src);
    OutgoingIsIndices(env, g, e.src);
    ConnectionsAddUp(m, g, PushProcess(d, g.nodes[e.src], e.weight), list, e.src);
    PickedIsSum(ConnectionValues(m, g, e.src), list);
    WorthOneMore(m, d.edges, PathEdge(if d.nodes == [] then 0 else |d.nodes| - 1, |d.nodes|, e.weight));
  }

  lemma {:induction false} ProcessesAddUp(m: PathMeasure, env: Environment, g: Graph, d: Draft, list: seq<nat>, l: nat)
    requires Sound(env) && WellFormed(g) && Indices(g, list) && forall k | k in list :: g.edges[k].dst == l
    ensures PathWorth(m, AddProcesses(env, g, d, list).edges) ==
      PathWorth(m, d.edges) + Picked(LoadValues(m, g, l), list)
    decreases |list|
  {
    if list != [] {
      ProcessesAddUp(m, env, g, d, Init(list), l);
      if g.edges[Last(list)].weight.LibraryLoaded? {
        ProcessAddsUp(m, env, g, AddProcesses(env, g, d, Init(list)), Last(list));
      }
    }
  }

  lemma LibraryAddsUp(m: PathMeasure, env: Environment, g: Graph, d: Draft, k: nat)
    requires Sound(env) && WellFormed(g) && k < |g.edges| && g.edges[k].weight.Vulnerable?
    ensures Indices(g, env.incoming(g.edges, g.edges[k].dst))
    ensures var e := g.edges[k];
      PathWorth(m, AddProcesses(env, g, PushLibrary(d, g.nodes[e.dst]), env.incoming(g.edges, e.dst)).edges)
      == PathWorth(m, d.edges) + SumOf(LoadValues(m, g, e.dst))
  {
    var e := g.edges[k];
    var list := env.incoming(g.edges, e.dst);
    IncomingIsIndices(env, g, e.dst);
    ProcessesAddUp(m, env, g, PushLibrary(d, g.nodes[e.dst]), list, e.dst);
    PickedIsSum(LoadValues(m, g, e.dst), list);
    WorthOneMore(m, d.edges, PathEdge(0, |d.nodes|, Vulnerable(0.95)));
  }

  lemma {:induction false} LibrariesAddUp(m: PathMeasure, env: Environment, g: Graph, d: Draft, list: seq<nat>, v: nat)
    requires Sound(env) && WellFormed(g) && Indices(g, list) && forall k | k in list :: g.edges[k].src == v
    ensures PathWorth(m, AddLibraries(env, g, d, list).edges) ==
      PathWorth(m, d.edges) + Picked(LibraryValues(m, g, v), list)
    decreases |list|
  {
    if list != [] {
      LibrariesAddUp(m, env, g, d, Init(list), v);
      if g.edges[Last(list)].weight.Vulnerable? {
        LibraryAddsUp(m, env, g, AddLibraries(env, g, d, Init(list)), Last(list));
      }
    }
  }

  /**
   The path counts a connection once for every vulnerable edge and every load edge that lead to its
   process: its connections, and its bytes, are the sums over all such triples of edges, in whatever
   order the edges are walked.
   */
  lemma PathCountsTriples(m: PathMeasure, env: Environment, g: Graph, f: Finding)
    requires Sound(env) && WellFormed(g)
    ensures PathWorth(m, DraftFor(env, g, f).edges) ==
      if VulnId(f.cve) in g.index then SumOf(LibraryValues(m, g, g.index[VulnId(f.cve)])) else 0
    ensures PathFor(env, g, f).totalBytes == PathWorth(ByteTotal, PathFor(env, g, f).edges)
  {
    PathIsJustified(env, g, f);
    if VulnId(f.cve) in g.index {
      var v := g.index[VulnId(f.cve)];
      var list := env.outgoing(g.edges, v);
      OutgoingIsIndices(env, g, v);
      LibrariesAddUp(m, env, g, StartOf(f), list, v);
      PickedIsSum(LibraryValues(m, g, v), list);
    }
  }

  // ---- counting each connection once -------------------------------------------------------

  /** How many of the first `n` edges are loads of the library at `l` by the process at `p`. */
  function LoadsBy(g: Graph, l: nat, p: nat, n: nat): nat
    requires n <= |g.edges|
  {
    if n == 0 then 0
    else
      var e := g.edges[n - 1];
      LoadsBy(g, l, p, n - 1) + if e.dst == l && e.weight.LibraryLoaded? && e.src == p then 1 else 0
  }

  /** Pairs of a vulnerable edge from `v` among the first `n` edges and a load of its library by the process at `p`. */
  function WaysAmong(g: Graph, v: nat, p: nat, n: nat): nat
    requires n <= |g.edges|
  {
    if n == 0 then 0
    else
      var e := g.edges[n - 1];
      WaysAmong(g, v, p, n - 1)
      + if e.src == v && e.weight.Vulnerable? then LoadsBy(g, e.dst, p, |g.edges|) else 0
  }

  /** The ways from the vulnerability at `v` to the process at `p`: a vulnerable edge, then a load edge. */
  function Ways(g: Graph, v: nat, p: nat): nat { WaysAmong(g, v, p, |g.edges|) }

  /** Each edge's worth as a connection, times a number. */
  ghost function Scaled(m: PathMeasure, g: Graph, times: seq<nat>): seq<nat>
    requires |times| == |g.edges|
  {
    seq(|g.edges|, k requires 0 <= k < |g.edges| => Worth(m, g.edges[k].weight) * times[k])
  }

  ghost function LoadTimes(g: Graph, l: nat, n: nat): seq<nat>
    requires n <= |g.edges|
  {
    seq(|g.edges|, k requires 0 <= k < |g.edges| => LoadsBy(g, l, g.edges[k].src, n))
  }

  ghost function WayTimes(g: Graph, v: nat, n: nat): seq<nat>
    requires n <= |g.edges|
  {
    seq(|g.edges|, k requires 0 <= k < |g.edges| => WaysAmong(g, v, g.edges[k].src, n))
  }

  lemma {:induction false} SumsAdd(a: seq<nat>, b: seq<nat>, c: seq<nat>)
    requires |a| == |b| == |c| && forall k | 0 <= k < |a| :: c[k] == a[k] + b[k]
    ensures SumOf(c) == SumOf(a) + SumOf(b)
  {
    if a != [] {
      var n := |a| - 1;
      SumsAdd(a[..n], b[..n], c[..n]);
    }
  }

  lemma SumOneMore(values: seq<nat>, n: nat)
    requires n < |values|
    ensures SumOf(values[..n + 1]) == SumOf(values[..n]) + values[n]
  {
    assert values[..n + 1][..n] == values[..n];
  }

  lemma ScaledAdds(m: PathMeasure, g: Graph, a: seq<nat>, b: seq<nat>, c: seq<nat>)
    requires |a| == |b| == |c| == |g.edges| && forall k | 0 <= k < |a| :: c[k] == a[k] + b[k]
    ensures SumOf(Scaled(m, g, c)) == SumOf(Scaled(m, g, a)) + SumOf(Scaled(m, g, b))
  {
    forall k | 0 <= k < |a| ensures Scaled(m, g, c)[k] == Scaled(m, g, a)[k] + Scaled(m, g, b)[k] {
      Distributes(Worth(m, g.edges[k].weight), a[k], b[k]);
    }
    SumsAdd(Scaled(m, g, a), Scaled(m, g, b), Scaled(m, g, c));
  }

  lemma Distributes(w: nat, a: nat, b: nat)
    ensures w * (a + b) == w * a + w * b
  {
  }

  /** The connections of one process are those counted once where it is the source. */
  lemma ConnectionsScale(m: PathMeasure, g: Graph, p: nat, times: seq<nat>)
    requires |times| == |g.edges| && forall k | 0 <= k < |times| :: times[k] == if g.edges[k].src == p then 1 else 0
    ensures ConnectionValues(m, g, p) == Scaled(m, g, times)
  {
  }

  lemma NothingScales(m: PathMeasure, g: Graph, times: seq<nat>)
    requires |times| == |g.edges| && forall k | 0 <= k < |times| :: times[k] == 0
    ensures SumOf(Scaled(m, g, times)) == 0
  {
    SumOfZeros(Scaled(m, g, times));
  }

  lemma {:induction false} LoadsScale(m: PathMeasure, g: Graph, l: nat, n: nat)
    requires n <= |g.edges|
    ensures SumOf(LoadValues(m, g, l)[..n]) == SumOf(Scaled(m, g, LoadTimes(g, l, n)))
  {
    if n == 0 {
      NothingScales(m, g, LoadTimes(g, l, 0));
    } else {
      var e := g.edges[n - 1];
      LoadsScale(m, g, l, n - 1);
      SumOneMore(LoadValues(m, g, l), n - 1);
      var loaded := e.dst == l && e.weight.LibraryLoaded?;
      var one := seq(|g.edges|, k requires 0 <= k < |g.edges| => if loaded && g.edges[k].src == e.src then 1 else 0);
      ScaledAdds(m, g, LoadTimes(g, l, n - 1), one, LoadTimes(g, l, n));
      if loaded { ConnectionsScale(m, g, e.src, one); } else { NothingScales(m, g, one); }
    }
  }

  lemma {:induction false} WaysScale(m: PathMeasure, g: Graph, v: nat, n: nat)
    requires n <= |g.edges|
    ensures SumOf(LibraryValues(m, g, v)[..n]) == SumOf(Scaled(m, g, WayTimes(g, v, n)))
  {
    if n == 0 {
      NothingScales(m, g, WayTimes(g, v, 0));
    } else {
      var e := g.edges[n - 1];
      WaysScale(m, g, v, n - 1);
      SumOneMore(LibraryValues(m, g, v), n - 1);
      var size := |g.edges|;
      if e.src == v && e.weight.Vulnerable? {
        LoadsScale(m, g, e.dst, size);
        assert LoadValues(m, g, e.dst)[..size] == LoadValues(m, g, e.dst);
        ScaledAdds(m, g, WayTimes(g, v, n - 1), LoadTimes(g, e.dst, size), WayTimes(g, v, n));
      } else {
        assert WayTimes(g, v, n) == WayTimes(g, v, n - 1);
      }
    }
  }

  /** The worth of every connection whose process can be reached, each counted once. */
  ghost function OnceValues(m: PathMeasure, g: Graph, v: nat): seq<nat> {
    seq(|g.edges|, k requires 0 <= k < |g.edges| =>
      if Ways(g, v, g.edges[k].src) > 0 then Worth(m, g.edges[k].weight) else 0)
  }

  lemma {:induction false} SumsCompare(a: seq<nat>, b: seq<nat>)
    requires |a| == |b| && forall k | 0 <= k < |a| :: a[k] <= b[k]
    ensures SumOf(a) <= SumOf(b)
    ensures SumOf(a) == SumOf(b) <==> a == b
  {
    if a != [] {
      var n := |a| - 1;
      SumsCompare(a[..n], b[..n]);
      assert a == a[..n] + [a[n]] && b == b[..n] + [b[n]];
    }
  }

  lemma TimesCompares(w: nat, n: nat)
    ensures n > 0 ==> w <= w * n
    ensures (if n > 0 then w else 0) == w * n <==> w == 0 || n <= 1
  {
    if n > 1 { Distributes(w, 1, n - 1); }
    if n > 1 && w > 0 { assert w * (n - 1) >= 1; }
  }

  /** No connection that weighs anything is reached twice. */
  ghost predicate ReachedOnce(m: PathMeasure, g: Graph, v: nat) {
    forall k | 0 <= k < |g.edges| && Worth(m, g.edges[k].weight) > 0 :: Ways(g, v, g.edges[k].src) <= 1
  }

  lemma ScaledCompares(m: PathMeasure, g: Graph, v: nat)
    ensures SumOf(OnceValues(m, g, v)) <= SumOf(Scaled(m, g, WayTimes(g, v, |g.edges|)))
    ensures SumOf(OnceValues(m, g, v)) == SumOf(Scaled(m, g, WayTimes(g, v, |g.edges|))) <==> ReachedOnce(m, g, v)
  {
    var once, all := OnceValues(m, g, v), Scaled(m, g, WayTimes(g, v, |g.edges|));
    forall k | 0 <= k < |g.edges|
      ensures once[k] <= all[k]
      ensures once[k] == all[k] <==> (Worth(m, g.edges[k].weight) > 0 ==> Ways(g, v, g.edges[k].src) <= 1)
    {
      TimesCompares(Worth(m, g.edges[k].weight), Ways(g, v, g.edges[k].src));
    }
    SumsCompare(once, all);
  }

  /**
   A path's connections, and its bytes, are those of each process times the ways to it; so they are
   never less than each reached connection counted once, and they are that exactly when no reached
   connection of any worth has a process that two pairs of a vulnerable edge and a load lead to.
   */
  lemma CountedOnceIff(m: PathMeasure, env: Environment, g: Graph, f: Finding)
    requires Sound(env) && WellFormed(g) && VulnId(f.cve) in g.index
    ensures var v := g.index[VulnId(f.cve)];
      var counted, once := PathWorth(m, DraftFor(env, g, f).edges), SumOf(OnceValues(m, g, v));
      && counted == SumOf(Scaled(m, g, WayTimes(g, v, |g.edges|)))
      && counted >= once && (counted == once <==> ReachedOnce(m, g, v))
  {
    var v := g.index[VulnId(f.cve)];
    PathCountsTriples(m, env, g, f);
    WaysScale(m, g, v, |g.edges|);
    assert LibraryValues(m, g, v)[..|g.edges|] == LibraryValues(m, g, v);
    ScaledCompares(m, g, v);
  }

  // ---- a run whose path counts its only connection twice -----------------------------------

  /** The nodes of the run below: a process, its library, its destination and the vulnerability. */
  function FourNodes(load: Op, net: Op, vuln: Op): seq<RuntimeNode>
    requires load.Load? && net.Net? && vuln.Associate?
  {
    [Process(load.pid, load.name, load.cgroupId), Library(load.path, []),
     Network(Dotted(net.event.daddr), net.event.dport, Protocol(net.event.kind)),
     Vulnerability(vuln.cveId, vuln.package, vuln.cvss, vuln.epss, vuln.kev)]
  }

  lemma FourIdsDiffer(load: Op, net: Op, vuln: Op)
    requires load.Load? && net.Net? && vuln.Associate?
    ensures var nodes := FourNodes(load, net, vuln);
      forall i, j | 0 <= i < j < 4 :: NodeId(nodes[i]) != NodeId(nodes[j])
  {
    var nodes := FourNodes(load, net, vuln);
    forall i, j | 0 <= i < j < 4 ensures NodeId(nodes[i]) != NodeId(nodes[j]) { NodeIdInjective(nodes[i], nodes[j]); }
  }

  /** A graph over the first `n` of four nodes, with these edges. */
  ghost predicate Built(g: Graph, nodes: seq<RuntimeNode>, n: nat, edges: seq<GraphEdge>)
    requires n <= |nodes|
  {
    g.nodes == nodes[..n] && g.edges == edges && IndexMatches(g.nodes, g.index)
  }

  lemma NewIsUnindexed(g: Graph, nodes: seq<RuntimeNode>, n: nat)
    requires n < |nodes| && g.nodes == nodes[..n] && IndexMatches(g.nodes, g.index)
    requires forall i | 0 <= i < n :: NodeId(nodes[i]) != NodeId(nodes[n])
    ensures NodeId(nodes[n]) !in g.index
  {
    assert forall id | id in g.index :: NodeId(nodes[g.index[id]]) == id;
  }

  lemma BuiltAdds(g: Graph, nodes: seq<RuntimeNode>, n: nat, edges: seq<GraphEdge>)
    requires n < |nodes| && Built(g, nodes, n, edges)
    requires forall i | 0 <= i < n :: NodeId(nodes[i]) != NodeId(nodes[n])
    ensures var (g', i) := AddNode(g, nodes[n]);
      Built(g', nodes, n + 1, edges) && i == n && g' == g.(nodes := g'.nodes, index := g'.index)
  {
    NewIsUnindexed(g, nodes, n);
    assert nodes[..n + 1] == nodes[..n] + [nodes[n]];
  }

  /** Adding an entity that has a node already returns that node. */
  lemma BuiltFinds(g: Graph, nodes: seq<RuntimeNode>, n: nat, edges: seq<GraphEdge>, k: nat, node: RuntimeNode)
    requires k < n <= |nodes| && Built(g, nodes, n, edges) && NodeId(node) == NodeId(nodes[k])
    ensures AddNode(g, node) == (g, k)
  {
    assert g.nodes[k] == nodes[k];
  }

  predicate LoadedAndConnects(env: Environment, load: Op, net: Op, vuln: Op) {
    && load.Load? && net.Net? && vuln.Associate? && load.pid == net.pid && load.timestampNs == net.event.timestampNs
    && env.matches(load.path, vuln.package)
  }

  lemma FirstLoad(env: Environment, load: Op, net: Op, vuln: Op)
    requires Sound(env) && LoadedAndConnects(env, load, net, vuln)
    ensures var g := Step(env, EMPTY, load); var t := load.timestampNs;
      && Built(g, FourNodes(load, net, vuln), 2, [GraphEdge(0, 1, LibraryLoaded(t, 1.0))])
      && g.lastNetwork == map[] && LoadsOf(g, load.pid) == [LibraryLoad(load.path, t)]
  {
    var nodes := FourNodes(load, net, vuln);
    FourIdsDiffer(load, net, vuln);
    BuiltAdds(EMPTY, nodes, 0, []);
    BuiltAdds(AddNode(EMPTY, nodes[0]).0, nodes, 1, []);
  }

  lemma SecondLoad(env: Environment, g: Graph, load: Op, net: Op, vuln: Op, edge: GraphEdge)
    requires Sound(env) && LoadedAndConnects(env, load, net, vuln)
    requires Built(g, FourNodes(load, net, vuln), 2, [edge]) &&
      LoadsOf(g, load.pid) == [LibraryLoad(load.path, load.timestampNs)]
    ensures var g', t := Step(env, g, load), load.timestampNs;
      && Built(g', FourNodes(load, net, vuln), 2, [edge, GraphEdge(0, 1, LibraryLoaded(t, 1.0))])
      && g'.lastNetwork == g.lastNetwork
      && LoadsOf(g', load.pid) == [LibraryLoad(load.path, t), LibraryLoad(load.path, t)]
  {
    var nodes := FourNodes(load, net, vuln);
    BuiltFinds(g, nodes, 2, [edge], 0, nodes[0]);
    BuiltFinds(g, nodes, 2, [edge], 1, nodes[1]);
  }

  lemma {:induction false} LateLoadsAttemptNothing(config: AttackGraphConfig, index: map<string, nat>,
                                                   loads: seq<LibraryLoad>, n: nat,
                                                   event: NetEvent)
    requires forall load | load in loads :: load.timestampNs >= event.timestampNs
    ensures Attempts(config, index, loads, n, event) == []
  {
    if loads != [] { LateLoadsAttemptNothing(config, index, loads[..|loads| - 1], n, event); }
  }

  lemma ThenConnects(env: Environment, g: Graph, load: Op, net: Op, vuln: Op, edges: seq<GraphEdge>)
    requires Sound(env) && LoadedAndConnects(env, load, net, vuln)
    requires Built(g, FourNodes(load, net, vuln), 2, edges) && g.lastNetwork == map[]
    requires LoadsOf(g, load.pid) ==
      [LibraryLoad(load.path, load.timestampNs), LibraryLoad(load.path, load.timestampNs)]
    ensures Built(Step(env, g, net), FourNodes(load, net, vuln), 3,
                  edges + [GraphEdge(0, 2, Connection(env.config, net.event))])
  {
    var nodes := FourNodes(load, net, vuln);
    FourIdsDiffer(load, net, vuln);
    var g0 := g.(lastNetwork := g.lastNetwork[(net.pid, net.event.dport) := net.event.timestampNs]);
    BuiltFinds(g0, nodes, 2, edges, 0, Process(net.pid, net.name, net.cgroupId));
    BuiltAdds(g0, nodes, 2, edges);
    var (g2, n) := AddNode(g0, nodes[2]);
    LateLoadsAttemptNothing(env.config, g2.index, LoadsOf(g2, net.pid), n, net.event);
  }

  lemma ThenLinks(env: Environment, g: Graph, load: Op, net: Op, vuln: Op, edges: seq<GraphEdge>)
    requires Sound(env) && LoadedAndConnects(env, load, net, vuln) && Built(g, FourNodes(load, net, vuln), 3, edges)
    ensures Built(Step(env, g, vuln), FourNodes(load, net, vuln), 4, edges + [GraphEdge(3, 1, Vulnerable(0.95))])
  {
    var nodes := FourNodes(load, net, vuln);
    FourIdsDiffer(load, net, vuln);
    BuiltAdds(g, nodes, 3, edges);
    OnlyLibraryLinked(env, nodes, vuln.package);
    assert nodes[..4] == nodes;
  }

  lemma OnlyLibraryLinked(env: Environment, nodes: seq<RuntimeNode>, package: string)
    requires |nodes| == 4 && nodes[0].Process? && nodes[2].Network? && nodes[3].Vulnerability?
    requires nodes[1].Library? && env.matches(nodes[1].path, package)
    ensures VulnerableEdges(env, nodes, 3, package) == [GraphEdge(3, 1, Vulnerable(0.95))]
  {
    assert nodes[..3][..2] == nodes[..2] && nodes[..2][..1] == nodes[..1] && nodes[..1][..0] == [];
    assert VulnerableEdges(env, nodes[..1], 3, package) == [];
    assert VulnerableEdges(env, nodes[..2], 3, package) == [GraphEdge(3, 1, Vulnerable(0.95))];
    assert VulnerableEdges(env, nodes[..3], 3, package) == [GraphEdge(3, 1, Vulnerable(0.95))];
  }

  /** In the graph of the run below two ways lead to the one connection. */
  lemma TwoWays(g: Graph, t: nat, event: NetEvent, config: AttackGraphConfig)
    requires g.edges == TwoLoadsOneConnection(config, t, event)
    ensures SumOf(Scaled(ByteTotal, g, WayTimes(g, 3, 4))) == 2 * event.dataSize
    ensures SumOf(OnceValues(ByteTotal, g, 3)) == event.dataSize
  {
    assert LoadsBy(g, 1, 0, 0) == 0 && LoadsBy(g, 1, 0, 1) == 1 && LoadsBy(g, 1, 0, 2) == 2;
    assert LoadsBy(g, 1, 0, 3) == 2 && LoadsBy(g, 1, 0, 4) == 2;
    assert WaysAmong(g, 3, 0, 0) == 0 && WaysAmong(g, 3, 0, 1) == 0 && WaysAmong(g, 3, 0, 2) == 0;
    assert WaysAmong(g, 3, 0, 3) == 0 && Ways(g, 3, 0) == 2;
    OnlyThird(Scaled(ByteTotal, g, WayTimes(g, 3, 4)), 2 * event.dataSize);
    OnlyThird(OnceValues(ByteTotal, g, 3), event.dataSize);
  }

  lemma OnlyThird(values: seq<nat>, n: nat)
    requires values == [0, 0, n, 0]
    ensures SumOf(values) == n
  {
    SumWithout(values, 2);
    SumOfZeros(values[2 := 0]);
  }

  function TwoLoadsOneConnection(config: AttackGraphConfig, t: nat, event: NetEvent): seq<GraphEdge> {
    var load := GraphEdge(0, 1, LibraryLoaded(t, 1.0));
    [load, load, GraphEdge(0, 2, Connection(config, event)), GraphEdge(3, 1, Vulnerable(0.95))]
  }

  lemma AfterOneMore(env: Environment, ops: seq<Op>, op: Op)
    requires Sound(env)
    ensures After(env, ops + [op]) == Step(env, After(env, ops), op)
  {
    assert (ops + [op])[..|ops|] == ops;
  }

  /** Both loads made, and nothing else. */
  ghost predicate LoadedTwice(g: Graph, load: Op, net: Op, vuln: Op)
    requires load.Load? && net.Net? && vuln.Associate?
  {
    var loaded, l := GraphEdge(0, 1, LibraryLoaded(load.timestampNs, 1.0)), LibraryLoad(load.path, load.timestampNs);
    Built(g, FourNodes(load, net, vuln), 2, [loaded, loaded]) && g.lastNetwork == map[] &&
      LoadsOf(g, load.pid) == [l, l]
  }

  lemma RunLoads(env: Environment, load: Op, net: Op, vuln: Op)
    requires Sound(env) && LoadedAndConnects(env, load, net, vuln)
    ensures LoadedTwice(After(env, [load] + [load]), load, net, vuln)
  {
    FirstLoad(env, load, net, vuln);
    SecondLoad(env, Step(env, EMPTY, load), load, net, vuln, GraphEdge(0, 1, LibraryLoaded(load.timestampNs, 1.0)));
    AfterOneMore(env, [], load);
    AfterOneMore(env, [load], load);
    assert [] + [load] == [load];
  }

  lemma RunConnects(env: Environment, ops: seq<Op>, load: Op, net: Op, vuln: Op)
    requires Sound(env) && LoadedAndConnects(env, load, net, vuln) && LoadedTwice(After(env, ops), load, net, vuln)
    ensures Built(After(env, ops + [net]), FourNodes(load, net, vuln), 3,
                  TwoLoadsOneConnection(env.config, load.timestampNs, net.event)[..3])
  {
    var loaded := GraphEdge(0, 1, LibraryLoaded(load.timestampNs, 1.0));
    AfterOneMore(env, ops, net);
    ThenConnects(env, After(env, ops), load, net, vuln, [loaded, loaded]);
    assert [loaded, loaded] + [GraphEdge(0, 2, Connection(env.config, net.event))]
        == TwoLoadsOneConnection(env.config, load.timestampNs, net.event)[..3];
  }

  lemma RunLinks(env: Environment, ops: seq<Op>, load: Op, net: Op, vuln: Op, edges: seq<GraphEdge>)
    requires Sound(env) && LoadedAndConnects(env, load, net, vuln)
    requires |edges| == 4 && edges[3] == GraphEdge(3, 1, Vulnerable(0.95))
    requires Built(After(env, ops), FourNodes(load, net, vuln), 3, edges[..3])
    ensures Built(After(env, ops + [vuln]), FourNodes(load, net, vuln), 4, edges)
  {
    AfterOneMore(env, ops, vuln);
    ThenLinks(env, After(env, ops), load, net, vuln, edges[..3]);
    assert edges[..3] + [edges[3]] == edges;
  }

  lemma RunBuilds(env: Environment, load: Op, net: Op, vuln: Op)
    requires Sound(env) && LoadedAndConnects(env, load, net, vuln)
    ensures Built(After(env, [load] + [load] + [net] + [vuln]), FourNodes(load, net, vuln), 4,
                  TwoLoadsOneConnection(env.config, load.timestampNs, net.event))
  {
    RunLoads(env, load, net, vuln);
    RunConnects(env, [load] + [load], load, net, vuln);
    RunLinks(env, [load] + [load] + [net], load, net, vuln,
             TwoLoadsOneConnection(env.config, load.timestampNs, net.event));
  }

  lemma OneConnectionWeighs(g: Graph, config: AttackGraphConfig, t: nat, event: NetEvent)
    requires WellFormed(g) && g.edges == TwoLoadsOneConnection(config, t, event)
    ensures Sum(ByteCount, All, View(g)) == event.dataSize
  {
    var view := View(g);
    assert Sum(ByteCount, All, view[..0]) == 0;
    assert view[..2][..1] == view[..1] && Sum(ByteCount, All, view[..1]) == 0 == Sum(ByteCount, All, view[..2]);
    assert view[..3][..2] == view[..2] && Sum(ByteCount, All, view[..3]) == event.dataSize;
    assert view[..3] == view[..|view| - 1];
  }

  /**
   A process that loads its vulnerable library twice and connects once: the path's bytes are twice
   those the one connection transferred.
   */
  lemma LoadedTwiceCountsTwice(env: Environment, load: Op, net: Op, vuln: Op, f: Finding)
    requires Sound(env) && LoadedAndConnects(env, load, net, vuln) && f.cve == vuln.cveId
    ensures var g := After(env, [load] + [load] + [net] + [vuln]);
      WellFormed(g) && Sum(ByteCount, All, View(g)) == net.event.dataSize &&
        PathFor(env, g, f).totalBytes == 2 * net.event.dataSize
  {
    var g := After(env, [load] + [load] + [net] + [vuln]);
    RunBuilds(env, load, net, vuln);
    AlwaysWellFormed(env, [load] + [load] + [net] + [vuln]);
    assert g.nodes[3] == FourNodes(load, net, vuln)[3];
    OneConnectionWeighs(g, env.config, load.timestampNs, net.event);
    TwoWays(g, load.timestampNs, net.event, env.config);
    CountedOnceIff(ByteTotal, env, g, f);
    PathCountsTriples(ByteTotal, env, g, f);
  }
}
