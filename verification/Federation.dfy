/** Federation between aggregators: merging a peer's sync, and when two peers agree. */
module Federation {
  import opened Wrappers

  datatype ClusterPath = ClusterPath(clusterId: string, pathId: string, summary: string, timestamp: int)

  datatype GlobalCorrelation = GlobalCorrelation(correlationId: string, description: string)

  datatype PeerStatus = Active | Inactive | Syncing | Error

  datatype Peer = Peer(endpoint: string, lastSync: Option<int>, status: PeerStatus)

  datatype FederationSync = FederationSync(sourcePeer: string, paths: seq<ClusterPath>,
                                           correlations: seq<GlobalCorrelation>)

  datatype Aggregator = Aggregator(
    paths: map<string, ClusterPath>,
    correlations: seq<GlobalCorrelation>,
    peers: map<string, Peer>)

  function Key(p: ClusterPath): string { p.clusterId + ":" + p.pathId }

  function MergePaths(paths: map<string, ClusterPath>, incoming: seq<ClusterPath>): map<string, ClusterPath> {
    if incoming == [] then paths
    else
      var p := incoming[|incoming| - 1];
      MergePaths(paths, incoming[..|incoming| - 1])[Key(p) := p]
  }

  predicate Knows(correlations: seq<GlobalCorrelation>, id: string) {
    exists i | 0 <= i < |correlations| :: correlations[i].correlationId == id
  }

  function MergeCorrelations(known: seq<GlobalCorrelation>, incoming: seq<GlobalCorrelation>): seq<GlobalCorrelation> {
    if incoming == [] then known
    else
      var before, c := MergeCorrelations(known, incoming[..|incoming| - 1]), incoming[|incoming| - 1];
      if Knows(before, c.correlationId) then before else before + [c]
  }

  function Receive(a: Aggregator, sync: FederationSync, now: int): Aggregator {
    Aggregator(
      MergePaths(a.paths, sync.paths),
      MergeCorrelations(a.correlations, sync.correlations),
      if sync.sourcePeer in a.peers then
        a.peers[sync.sourcePeer := a.peers[sync.sourcePeer].(lastSync := Some(now), status := Active)]
      else a.peers)
  }

  /** `prepare_federation_sync`: all paths in some order, all correlations as they stand. */
  ghost predicate Prepares(a: Aggregator, sync: FederationSync) {
    && (forall p :: p in sync.paths <==> exists k :: k in a.paths && a.paths[k] == p)
    && |sync.paths| == |a.paths| && sync.correlations == a.correlations
  }

  class AggregatorState {
    var paths: map<string, ClusterPath>
    var correlations: seq<GlobalCorrelation>
    var federationPeers: map<string, Peer>

    function State(): Aggregator
      reads this
    {
      Aggregator(paths, correlations, federationPeers)
    }

    constructor ()
      ensures State() == Aggregator(map[], [], map[])
    {
      paths, correlations, federationPeers := map[], [], map[];
    }

    method RegisterPeer(peerId: string, peer: Peer)
      modifies this
      ensures State() == old(State()).(peers := old(federationPeers)[peerId := peer])
    {
      federationPeers := federationPeers[peerId := peer];
    }

    method ReceiveFederationSync(sync: FederationSync, now: int)
      modifies this
      ensures State() == Receive(old(State()), sync, now)
    {
      for i := 0 to |sync.paths|
        invariant paths == MergePaths(old(paths), sync.paths[..i])
        invariant correlations == old(correlations) && federationPeers == old(federationPeers)
      {
        assert sync.paths[..i + 1][..i] == sync.paths[..i];
        paths := paths[Key(sync.paths[i]) := sync.paths[i]];
      }
      assert sync.paths[..|sync.paths|] == sync.paths;
      for i := 0 to |sync.correlations|
        invariant correlations == MergeCorrelations(old(correlations), sync.correlations[..i])
        invariant paths == MergePaths(old(paths), sync.paths) && federationPeers == old(federationPeers)
      {
        assert sync.correlations[..i + 1][..i] == sync.correlations[..i];
        if !Knows(correlations, sync.correlations[i].correlationId) {
          correlations := correlations + [sync.correlations[i]];
        }
      }
      assert sync.correlations[..|sync.correlations|] == sync.correlations;
      if sync.sourcePeer in federationPeers {
        federationPeers := federationPeers[sync.sourcePeer :=
          federationPeers[sync.sourcePeer].(lastSync := Some(now), status := Active)];
      }
    }

    method PrepareFederationSync(peerId: string) returns (sync: FederationSync)
      ensures sync.sourcePeer == peerId && Prepares(State(), sync)
    {
      var keys, list := paths.Keys, [];
      while keys != {}
        invariant keys <= paths.Keys && |list| == |paths.Keys - keys|
        invariant forall p :: p in list <==> exists k :: k in paths.Keys - keys && paths[k] == p
        decreases |keys|
      {
        var k :| k in keys;
        assert paths.Keys - (keys - {k}) == (paths.Keys - keys) + {k};
        list := list + [paths[k]];
        keys := keys - {k};
      }
      sync := FederationSync(peerId, list, correlations);
    }
  }

  // ---- what merging does -------------------------------------------------------------------

  /** Every entry stands under its own key. */
  ghost predicate WellKeyed(paths: map<string, ClusterPath>) {
    forall k | k in paths :: Key(paths[k]) == k
  }

  predicate DistinctIds(correlations: seq<GlobalCorrelation>) {
    forall i, j | 0 <= i < j < |correlations| :: correlations[i].correlationId != correlations[j].correlationId
  }

  ghost predicate Sane(a: Aggregator) { WellKeyed(a.paths) && DistinctIds(a.correlations) }

  function Ids(correlations: seq<GlobalCorrelation>): set<string> {
    set i | 0 <= i < |correlations| :: correlations[i].correlationId
  }

  lemma {:induction false} MergedCorrelations(known: seq<GlobalCorrelation>, incoming: seq<GlobalCorrelation>)
    ensures known <= MergeCorrelations(known, incoming)
    ensures Ids(MergeCorrelations(known, incoming)) == Ids(known) + Ids(incoming)
  {
    if incoming == [] {
      assert Ids(incoming) == {};
    } else {
      var init, c := incoming[..|incoming| - 1], incoming[|incoming| - 1];
      MergedCorrelations(known, init);
      IdsOneMore(init, c);
      assert incoming == init + [c];
      IdsOneMore(MergeCorrelations(known, init), c);
    }
  }

  lemma {:induction false} MergedStayDistinct(known: seq<GlobalCorrelation>, incoming: seq<GlobalCorrelation>)
    requires DistinctIds(known)
    ensures DistinctIds(MergeCorrelations(known, incoming))
  {
    if incoming != [] { MergedStayDistinct(known, incoming[..|incoming| - 1]); }
  }

  /** Entry `i` brings an identifier that is neither known nor brought by an earlier entry. */
  predicate IsNews(known: seq<GlobalCorrelation>, incoming: seq<GlobalCorrelation>, i: nat) {
    && i < |incoming| && incoming[i].correlationId !in Ids(known)
    && forall j | 0 <= j < i :: incoming[j].correlationId != incoming[i].correlationId
  }

  /** The news of a list, in its order and field for field. */
  function News(known: seq<GlobalCorrelation>, incoming: seq<GlobalCorrelation>): seq<GlobalCorrelation> {
    if incoming == [] then []
    else
      var n := |incoming| - 1;
      News(known, incoming[..n]) + if IsNews(known, incoming, n) then [incoming[n]] else []
  }

  /** Merging keeps what was known and appends the news, untouched. */
  lemma {:induction false} MergeAppendsNews(known: seq<GlobalCorrelation>, incoming: seq<GlobalCorrelation>)
    ensures MergeCorrelations(known, incoming) == known + News(known, incoming)
  {
    if incoming != [] {
      var n := |incoming| - 1;
      MergeAppendsNews(known, incoming[..n]);
      MergedCorrelations(known, incoming[..n]);
      IdsOneMore(MergeCorrelations(known, incoming[..n]), incoming[n]);
      IdOfPrefix(incoming, n, incoming[n].correlationId);
    }
  }

  lemma IdOfPrefix(list: seq<GlobalCorrelation>, n: nat, id: string)
    requires n <= |list|
    ensures id in Ids(list[..n]) <==> exists j | 0 <= j < n :: list[j].correlationId == id
  {
    if j :| 0 <= j < n && list[j].correlationId == id { assert list[..n][j].correlationId == id; }
  }

  lemma IdsOneMore(list: seq<GlobalCorrelation>, c: GlobalCorrelation)
    ensures Ids(list + [c]) == Ids(list) + {c.correlationId}
    ensures Knows(list, c.correlationId) <==> c.correlationId in Ids(list)
  {
    var more := list + [c];
    assert more[|list|] == c;
    assert forall i | 0 <= i < |list| :: more[i] == list[i];
  }

  /** Merging a list whose identifiers are all known changes nothing. */
  lemma {:induction false} KnownCorrelationsAddNothing(known: seq<GlobalCorrelation>, incoming: seq<GlobalCorrelation>)
    requires Ids(incoming) <= Ids(known)
    ensures MergeCorrelations(known, incoming) == known
  {
    if incoming != [] {
      var init, c := incoming[..|incoming| - 1], incoming[|incoming| - 1];
      assert incoming == init + [c];
      IdsOneMore(init, c);
      KnownCorrelationsAddNothing(known, init);
      IdsOneMore(known, c);
    }
  }

  lemma {:induction false} MergedPaths(paths: map<string, ClusterPath>, incoming: seq<ClusterPath>, k: string)
    ensures k in MergePaths(paths, incoming) <==> k in paths || exists p :: p in incoming && Key(p) == k
    ensures (forall p | p in incoming :: Key(p) != k) && k in paths ==> MergePaths(paths, incoming)[k] == paths[k]
    ensures (exists p :: p in incoming && Key(p) == k) ==>
      MergePaths(paths, incoming)[k] in incoming && Key(MergePaths(paths, incoming)[k]) == k
  {
    if incoming != [] {
      var init, last := incoming[..|incoming| - 1], incoming[|incoming| - 1];
      assert incoming == init + [last];
      MergedPaths(paths, init, k);
    }
  }

  /** Of several entries under one key the last one received is stored. */
  lemma {:induction false} LastReceivedWins(paths: map<string, ClusterPath>, incoming: seq<ClusterPath>, i: nat)
    requires i < |incoming| && forall j | i < j < |incoming| :: Key(incoming[j]) != Key(incoming[i])
    ensures Key(incoming[i]) in MergePaths(paths, incoming) &&
      MergePaths(paths, incoming)[Key(incoming[i])] == incoming[i]
  {
    if i < |incoming| - 1 { LastReceivedWins(paths, incoming[..|incoming| - 1], i); }
  }

  /** Receiving keeps every path under its own key and correlation identifiers distinct. */
  lemma ReceiveKeepsSane(a: Aggregator, sync: FederationSync, now: int)
    requires Sane(a)
    ensures Sane(Receive(a, sync, now))
  {
    MergedStayDistinct(a.correlations, sync.correlations);
    forall k | k in MergePaths(a.paths, sync.paths) ensures Key(MergePaths(a.paths, sync.paths)[k]) == k {
      MergedPaths(a.paths, sync.paths, k);
    }
  }

  lemma {:induction false} MergeAgain(paths: map<string, ClusterPath>, others: map<string, ClusterPath>,
                                      incoming: seq<ClusterPath>, k: string)
    requires exists p :: p in incoming && Key(p) == k
    ensures k in MergePaths(paths, incoming) && k in MergePaths(others, incoming)
    ensures MergePaths(paths, incoming)[k] == MergePaths(others, incoming)[k]
  {
    var init, last := incoming[..|incoming| - 1], incoming[|incoming| - 1];
    assert incoming == init + [last];
    if Key(last) != k { MergeAgain(paths, others, init, k); }
  }

  /** Receiving the same sync twice is receiving it once, for paths and for correlations. */
  lemma ReceiveTwiceIsOnce(a: Aggregator, sync: FederationSync, first: int, second: int)
    ensures var once, twice := Receive(a, sync, first), Receive(Receive(a, sync, first), sync, second);
      twice.paths == once.paths && twice.correlations == once.correlations
  {
    var once := MergePaths(a.paths, sync.paths);
    var twice := MergePaths(once, sync.paths);
    forall k ensures k in once <==> k in twice {
      MergedPaths(a.paths, sync.paths, k);
      MergedPaths(once, sync.paths, k);
    }
    forall k | k in once ensures once[k] == twice[k] {
      MergedPaths(once, sync.paths, k);
      if p :| p in sync.paths && Key(p) == k { MergeAgain(a.paths, once, sync.paths, k); }
    }
    assert once == twice;
    MergedCorrelations(a.correlations, sync.correlations);
    KnownCorrelationsAddNothing(MergeCorrelations(a.correlations, sync.correlations), sync.correlations);
  }

  // ---- convergence -------------------------------------------------------------------------

  /** What a prepared sync does to the receiver's paths: the sender's entries win. */
  lemma ReceivePrepared(receiver: Aggregator, sender: Aggregator, sync: FederationSync, now: int)
    requires WellKeyed(sender.paths) && Prepares(sender, sync)
    ensures Receive(receiver, sync, now).paths == receiver.paths + sender.paths
    ensures Ids(Receive(receiver, sync, now).correlations) == Ids(receiver.correlations) + Ids(sender.correlations)
  {
    var merged := MergePaths(receiver.paths, sync.paths);
    forall k
      ensures (k in merged <==> k in receiver.paths + sender.paths) &&
        (k in merged ==> merged[k] == (receiver.paths + sender.paths)[k])
    {
      MergedPaths(receiver.paths, sync.paths, k);
      if k in sender.paths { assert sender.paths[k] in sync.paths; }
      if p :| p in sync.paths && Key(p) == k {
        var k' :| k' in sender.paths && sender.paths[k'] == p;
        assert k' == k;
        var q := merged[k];
        var k'' :| k'' in sender.paths && sender.paths[k''] == q;
        assert k'' == k;
      }
    }
    assert merged == receiver.paths + sender.paths;
    MergedCorrelations(receiver.correlations, sync.correlations);
  }

  /** Two peers hold equal values under every key they share. */
  predicate Compatible(a: map<string, ClusterPath>, b: map<string, ClusterPath>) {
    forall k | k in a && k in b :: a[k] == b[k]
  }

  /** Crossing exchanges: both prepare before either receives. They agree exactly when they were compatible. */
  lemma CrossingConvergesIff(a: Aggregator, b: Aggregator, fromA: FederationSync, fromB: FederationSync, now: int)
    requires Sane(a) && Sane(b) && Prepares(a, fromA) && Prepares(b, fromB)
    ensures var a', b' := Receive(a, fromB, now), Receive(b, fromA, now);
      && (a'.paths == b'.paths <==> Compatible(a.paths, b.paths))
      && Ids(a'.correlations) == Ids(b'.correlations) == Ids(a.correlations) + Ids(b.correlations)
  {
    ReceivePrepared(a, b, fromB, now);
    ReceivePrepared(b, a, fromA, now);
    UnionsAgreeIff(a.paths, b.paths);
  }

  lemma UnionsAgreeIff(a: map<string, ClusterPath>, b: map<string, ClusterPath>)
    ensures a + b == b + a <==> Compatible(a, b)
  {
    forall k | k in a && k in b ensures (a + b)[k] == b[k] && (b + a)[k] == a[k] { }
    if Compatible(a, b) { assert a + b == b + a; }
  }

  lemma UnionTwice(a: map<string, ClusterPath>, b: map<string, ClusterPath>)
    ensures a + (b + a) == b + a
  {
  }

  /**
   One exchange in each direction, the second prepared after the first arrived, leaves both peers
   with one path map and one set of correlation identifiers, whatever they held before.
   */
  lemma ExchangeConverges(a: Aggregator, b: Aggregator, fromA: FederationSync, fromB: FederationSync, now: int)
    requires Sane(a) && Sane(b) && Prepares(a, fromA) && Prepares(Receive(b, fromA, now), fromB)
    ensures var b' := Receive(b, fromA, now); var a' := Receive(a, fromB, now);
      && a'.paths == b'.paths == b.paths + a.paths
      && Ids(a'.correlations) == Ids(b'.correlations) == Ids(a.correlations) + Ids(b.correlations)
  {
    var b' := Receive(b, fromA, now);
    ReceiveKeepsSane(b, fromA, now);
    ReceivePrepared(b, a, fromA, now);
    ReceivePrepared(a, b', fromB, now);
    UnionTwice(a.paths, b.paths);
  }

  /** Peers that agree stay as they are under any further sync from one to the other. */
  lemma AgreementIsStable(a: Aggregator, b: Aggregator, sync: FederationSync, now: int)
    requires Sane(a) && Sane(b) && a.paths == b.paths && Ids(a.correlations) == Ids(b.correlations) && Prepares(b, sync)
    ensures Receive(a, sync, now).paths == a.paths && Receive(a, sync, now).correlations == a.correlations
  {
    ReceivePrepared(a, b, sync, now);
    KnownCorrelationsAddNothing(a.correlations, sync.correlations);
    assert a.paths + a.paths == a.paths;
  }

  // ---- when keys identify paths ------------------------------------------------------------

  /** Different paths, told apart by cluster and path identifier, under one key. */
  predicate SameKey(p: ClusterPath, q: ClusterPath) {
    Key(p) == Key(q) && (p.clusterId != q.clusterId || p.pathId != q.pathId)
  }

  ghost predicate Collide(c: string, d: string) {
    exists p: ClusterPath, q: ClusterPath :: p.clusterId == c && q.clusterId == d && SameKey(p, q)
  }

  /** One cluster identifier, followed by the separator, begins the other. */
  predicate Ambiguous(c: string, d: string) { c + ":" <= d || d + ":" <= c }

  /**
   Keys join their parts without quoting, so two clusters share a key exactly when their identifiers are ambiguous.
   */
  lemma CollideIffAmbiguous(c: string, d: string)
    ensures Collide(c, d) <==> Ambiguous(c, d)
  {
    if p: ClusterPath, q: ClusterPath :| p.clusterId == c && q.clusterId == d && SameKey(p, q) {
      SharedKeyIsAmbiguous(p, q);
    }
    if c + ":" <= d { AmbiguousShares(c, d); }
    if d + ":" <= c {
      AmbiguousShares(d, c);
      var p: ClusterPath, q: ClusterPath :| p.clusterId == d && q.clusterId == c && SameKey(p, q);
      assert SameKey(q, p);
    }
  }

  lemma SharedKeyIsAmbiguous(p: ClusterPath, q: ClusterPath)
    requires SameKey(p, q)
    ensures Ambiguous(p.clusterId, q.clusterId)
  {
    var c, d := p.clusterId, q.clusterId;
    var k := Key(p);
    assert k[..|c| + 1] == c + ":" && k[|c| + 1..] == p.pathId;
    assert k[..|d| + 1] == d + ":" && k[|d| + 1..] == q.pathId;
    assert c == k[..|c|] && d == k[..|d|];
    if |c| < |d| { assert c + ":" <= d; }
    if |d| < |c| { assert d + ":" <= c; }
  }

  lemma AmbiguousShares(c: string, d: string)
    requires c + ":" <= d
    ensures Collide(c, d)
  {
    var rest := d[|c| + 1..];
    var p, q := ClusterPath(c, rest + ":", "", 0), ClusterPath(d, "", "", 0);
    assert d == c + ":" + rest;
    assert SameKey(p, q);
  }

  /** Over these clusters, a key belongs to one path of one cluster. */
  ghost predicate KeysIdentify(clusters: set<string>) {
    forall p: ClusterPath, q: ClusterPath :: p.clusterId in clusters && q.clusterId in clusters ==> !SameKey(p, q)
  }

  predicate Unambiguous(clusters: set<string>) {
    forall c, d | c in clusters && d in clusters :: !(c + ":" <= d)
  }

  /** Keys identify paths exactly when no registered identifier followed by the separator begins another. */
  lemma KeysIdentifyIff(clusters: set<string>)
    ensures KeysIdentify(clusters) <==> Unambiguous(clusters)
  {
    if Unambiguous(clusters) {
      forall p: ClusterPath, q: ClusterPath | p.clusterId in clusters && q.clusterId in clusters
        ensures !SameKey(p, q)
      {
        if SameKey(p, q) { SharedKeyIsAmbiguous(p, q); }
      }
    }
    forall c, d | c in clusters && d in clusters && c + ":" <= d ensures !KeysIdentify(clusters) {
      AmbiguousShares(c, d);
    }
  }

  /** Some stored entry is this path of this cluster, whatever its other fields. */
  ghost predicate Holds(paths: map<string, ClusterPath>, clusterId: string, pathId: string) {
    exists k :: k in paths && paths[k].clusterId == clusterId && paths[k].pathId == pathId
  }

  /** With unambiguous identifiers, merging drops no path: each one stored or received is still there. */
  lemma MergeDropsNoPath(a: Aggregator, sync: FederationSync, now: int, clusters: set<string>, p: ClusterPath)
    requires WellKeyed(a.paths) && Unambiguous(clusters)
    requires (forall k | k in a.paths :: a.paths[k].clusterId in clusters) && forall q | q in sync.paths ::
      q.clusterId in clusters
    requires p in a.paths.Values || p in sync.paths
    ensures Holds(Receive(a, sync, now).paths, p.clusterId, p.pathId)
  {
    var merged := MergePaths(a.paths, sync.paths);
    MergedPaths(a.paths, sync.paths, Key(p));
    KeysIdentifyIff(clusters);
    var q := merged[Key(p)];
    assert q.clusterId in clusters && p.clusterId in clusters;
    assert !SameKey(p, q);
  }

  // ---- what a peer's entry tells -----------------------------------------------------------

  datatype Arrival = Arrival(sync: FederationSync, now: int)

  function AfterArrivals(a: Aggregator, arrivals: seq<Arrival>): Aggregator {
    if arrivals == [] then a
    else
      var last := arrivals[|arrivals| - 1];
      Receive(AfterArrivals(a, arrivals[..|arrivals| - 1]), last.sync, last.now)
  }

  /** When the peer was last heard, if it was. */
  function LastHeard(arrivals: seq<Arrival>, peer: string): Option<int> {
    if arrivals == [] then None
    else if arrivals[|arrivals| - 1].sync.sourcePeer == peer then Some(arrivals[|arrivals| - 1].now)
    else LastHeard(arrivals[..|arrivals| - 1], peer)
  }

  /**
   After any syncs, exactly the registered peers are listed, with their endpoints; one that was heard
   is active and tells the time of its last sync, one that was not is as it was.
   */
  lemma {:induction false} PeersTellLastSync(a: Aggregator, arrivals: seq<Arrival>)
    ensures var peers := AfterArrivals(a, arrivals).peers;
      && peers.Keys == a.peers.Keys
      && forall p | p in a.peers ::
           peers[p] == match LastHeard(arrivals, p) {
             case None => a.peers[p]
             case Some(now) => Peer(a.peers[p].endpoint, Some(now), Active)
           }
  {
    if arrivals != [] { PeersTellLastSync(a, arrivals[..|arrivals| - 1]); }
  }
}
