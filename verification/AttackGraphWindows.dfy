/** What the two time windows decide, and how a connection's confidence evolves over a run. */
module AttackGraphWindows {
  import opened Wrappers
  import opened NodeIdentity
  import opened AttackGraph
  import opened AttackGraphRuns
  import opened AttackGraphHistory

  // ---- the deduplication window bounds the edges -------------------------------------------

  predicate OnKey(op: Op, pid: nat, port: nat) {
    op.Net? && op.pid == pid && op.event.dport == port
  }

  predicate StrictlyIncreasing(ops: seq<Op>, pid: nat, port: nat) {
    forall i, j | 0 <= i < j < |ops| && OnKey(ops[i], pid, port) && OnKey(ops[j], pid, port) ::
      ops[i].event.timestampNs < ops[j].event.timestampNs
  }

  lemma OnPortSelects(pid: nat, port: nat, r: Recorded)
    ensures Selects(OnPort(pid, port), ProcId(r.pid), Destination(r.event)) <==> RecordedOn(r, pid, port)
  {
    NodeIdInjective(Process(pid, "", 0), Process(r.pid, "", 0));
    if ip :| Destination(r.event) == NetId(ip, port) {
      NetIdInjective(Dotted(r.event.daddr), r.event.dport, ip, port);
    }
  }

  function Times(n: nat, window: nat): nat { if n == 0 then 0 else Times(n - 1, window) + window }

  lemma {:induction false} TimesIsProduct(n: nat, window: nat)
    ensures Times(n, window) == n * window
  {
    if n > 0 { TimesIsProduct(n - 1, window); }
  }

  function RecordedOnKey(recorded: seq<Recorded>, pid: nat, port: nat): nat {
    if recorded == [] then 0
    else
      var r := recorded[|recorded| - 1];
      RecordedOnKey(recorded[..|recorded| - 1], pid, port) + if RecordedOn(r, pid, port) then 1 else 0
  }

  lemma {:induction false} RecordedOnKeyIsRecordings(recorded: seq<Recorded>, pid: nat, port: nat)
    ensures RecordedOnKey(recorded, pid, port) == Recordings(OnPort(pid, port), recorded)
  {
    if recorded != [] {
      RecordedOnKeyIsRecordings(recorded[..|recorded| - 1], pid, port);
      OnPortSelects(pid, port, recorded[|recorded| - 1]);
    }
  }

  lemma OnKeyOneMore(recorded: seq<Recorded>, r: Recorded, pid: nat, port: nat)
    ensures RecordedOnKey(recorded + [r], pid, port) ==
      RecordedOnKey(recorded, pid, port) + if RecordedOn(r, pid, port) then 1 else 0
  {
    assert (recorded + [r])[..|recorded|] == recorded;
  }

  /** The recorded events of a key start at `lo` and are a window apart, up to the anchor. */
  ghost predicate SpreadOut(recorded: seq<Recorded>, pid: nat, port: nat, lo: nat, window: nat) {
    var n := RecordedOnKey(recorded, pid, port);
    match Anchor(recorded, pid, port)
    case None => n == 0
    case Some(t) => n >= 1 && lo + Times(n - 1, window) <= t
  }

  lemma SpreadOneMore(recorded: seq<Recorded>, r: Recorded, pid: nat, port: nat, lo: nat, window: nat)
    requires SpreadOut(recorded, pid, port, lo, window)
    requires RecordedOn(r, pid, port) ==>
      lo <= r.event.timestampNs &&
      (Anchor(recorded, pid, port).Some? ==> Anchor(recorded, pid, port).value + window <= r.event.timestampNs)
    ensures SpreadOut(recorded + [r], pid, port, lo, window)
  {
    OnKeyOneMore(recorded, r, pid, port);
    AnchorOneMore(recorded, r, pid, port);
  }

  /** The anchor an event is measured against was set by an earlier call on the same key. */
  lemma AnchorIsEarlier(env: Environment, ops: seq<Op>, pid: nat, port: nat)
    requires ops != [] && StrictlyIncreasing(ops, pid, port) && OnKey(ops[|ops| - 1], pid, port)
    ensures match Anchor(RecordedEvents(env, ops[..|ops| - 1]), pid, port) {
        case None => true
        case Some(t) => t < ops[|ops| - 1].event.timestampNs
      }
  {
    var init := ops[..|ops| - 1];
    var recorded := RecordedEvents(env, init);
    if Anchor(recorded, pid, port).Some? {
      var i := LatestIsAnchor(recorded, pid, port);
      var j := RecordedWasCalled(env, init, i);
      assert init[j] == ops[j];
    }
  }

  lemma {:induction false} LatestIsAnchor(recorded: seq<Recorded>, pid: nat, port: nat) returns (i: nat)
    requires Anchor(recorded, pid, port).Some?
    ensures i < |recorded| && RecordedOn(recorded[i], pid, port)
    ensures Anchor(recorded, pid, port) == Some(recorded[i].event.timestampNs)
    ensures forall k | i < k < |recorded| :: !RecordedOn(recorded[k], pid, port)
  {
    i := |recorded| - 1;
    if !RecordedOn(recorded[i], pid, port) {
      i := LatestIsAnchor(recorded[..i], pid, port);
    }
  }

  lemma {:induction false} RecordedSpread(env: Environment, ops: seq<Op>, pid: nat, port: nat, lo: nat)
    requires env.config.dedupEnabled && StrictlyIncreasing(ops, pid, port)
    requires forall i | 0 <= i < |ops| && OnKey(ops[i], pid, port) :: lo <= ops[i].event.timestampNs
    ensures SpreadOut(RecordedEvents(env, ops), pid, port, lo, WindowNs(env.config.networkWindowSecs))
  {
    if ops != [] {
      var init, op := ops[..|ops| - 1], ops[|ops| - 1];
      RecordedSpread(env, init, pid, port, lo);
      if op.Net? && !InWindow(env, RecordedEvents(env, init), op.pid, op.event) {
        if OnKey(op, pid, port) { AnchorIsEarlier(env, ops, pid, port); }
        SpreadOneMore(RecordedEvents(env, init), Recorded(op.pid, op.event), pid, port, lo,
          WindowNs(env.config.networkWindowSecs));
      }
    }
  }

  /** `n` instants, each a window after the one before, fit between `lo` and `hi`. */
  predicate FitsSpan(n: nat, window: nat, lo: nat, hi: nat) { n >= 1 ==> (n - 1) * window <= hi - lo }

  /** Any two recorded events of the key are at least a window apart, in recording order. */
  ghost predicate WindowApart(recorded: seq<Recorded>, pid: nat, port: nat, window: nat) {
    forall i, j | 0 <= i < j < |recorded| && RecordedOn(recorded[i], pid, port) && RecordedOn(recorded[j], pid, port) ::
      recorded[j].event.timestampNs - recorded[i].event.timestampNs >= window
  }

  lemma ApartOneMore(recorded: seq<Recorded>, r: Recorded, pid: nat, port: nat, window: nat)
    requires WindowApart(recorded, pid, port, window)
    requires RecordedOn(r, pid, port) && Anchor(recorded, pid, port).Some? ==>
      Anchor(recorded, pid, port).value + window <= r.event.timestampNs
    ensures WindowApart(recorded + [r], pid, port, window)
  {
    if RecordedOn(r, pid, port) {
      if Anchor(recorded, pid, port).None? {
        NoAnchorNoneRecorded(recorded, pid, port);
      } else {
        var l := LatestIsAnchor(recorded, pid, port);
        assert RecordedOn(recorded[l], pid, port);
      }
    }
  }

  lemma {:induction false} RecordedAreWindowApart(env: Environment, ops: seq<Op>, pid: nat, port: nat)
    requires env.config.dedupEnabled && StrictlyIncreasing(ops, pid, port)
    ensures WindowApart(RecordedEvents(env, ops), pid, port, WindowNs(env.config.networkWindowSecs))
  {
    if ops != [] {
      var init, op := ops[..|ops| - 1], ops[|ops| - 1];
      RecordedAreWindowApart(env, init, pid, port);
      if RecordedAt(env, ops, |ops| - 1) {
        if OnKey(op, pid, port) { AnchorIsEarlier(env, ops, pid, port); }
        ApartOneMore(RecordedEvents(env, init), Recorded(op.pid, op.event), pid, port,
          WindowNs(env.config.networkWindowSecs));
      }
    }
  }

  lemma {:induction false} NoAnchorNoneRecorded(recorded: seq<Recorded>, pid: nat, port: nat)
    ensures Anchor(recorded, pid, port).None? ==> forall r | r in recorded :: !RecordedOn(r, pid, port)
  {
    if recorded != [] {
      var n := |recorded| - 1;
      NoAnchorNoneRecorded(recorded[..n], pid, port);
      assert recorded == recorded[..n] + [recorded[n]];
    }
  }

  /**
   With deduplication on and strictly increasing event times on a process and port, the edges made
   for it, one per recorded event, are a window apart, so a span holds at most span / window + 1.
   */
  lemma EdgesPerSpan(env: Environment, ops: seq<Op>, pid: nat, port: nat, lo: nat, hi: nat)
    requires Sound(env) && env.config.dedupEnabled && StrictlyIncreasing(ops, pid, port)
    requires forall i | 0 <= i < |ops| && OnKey(ops[i], pid, port) :: lo <= ops[i].event.timestampNs <= hi
    ensures WellFormed(After(env, ops))
    ensures Sum(ConnectionCount, OnPort(pid, port), View(After(env, ops))) ==
      RecordedOnKey(RecordedEvents(env, ops), pid, port)
    ensures var window := env.config.networkWindowSecs * 1_000_000_000 % TWO_TO_64;
      && WindowApart(RecordedEvents(env, ops), pid, port, window)
      && FitsSpan(Sum(ConnectionCount, OnPort(pid, port), View(After(env, ops))), window, lo, hi)
  {
    RecordedAreWindowApart(env, ops, pid, port);
    ConnectionsOnKey(env, ops, pid, port);
    RecordedPerSpan(env, ops, pid, port, lo, hi);
  }

  lemma ConnectionsOnKey(env: Environment, ops: seq<Op>, pid: nat, port: nat)
    requires Sound(env)
    ensures WellFormed(After(env, ops))
    ensures Sum(ConnectionCount, OnPort(pid, port), View(After(env, ops))) ==
      RecordedOnKey(RecordedEvents(env, ops), pid, port)
  {
    ConnectionsAreRecordings(env, ops, OnPort(pid, port));
    RecordedOnKeyIsRecordings(RecordedEvents(env, ops), pid, port);
  }

  lemma RecordedPerSpan(env: Environment, ops: seq<Op>, pid: nat, port: nat, lo: nat, hi: nat)
    requires env.config.dedupEnabled && StrictlyIncreasing(ops, pid, port)
    requires forall i | 0 <= i < |ops| && OnKey(ops[i], pid, port) :: lo <= ops[i].event.timestampNs <= hi
    ensures FitsSpan(RecordedOnKey(RecordedEvents(env, ops), pid, port), WindowNs(env.config.networkWindowSecs), lo, hi)
  {
    RecordedSpread(env, ops, pid, port, lo);
    if Anchor(RecordedEvents(env, ops), pid, port).Some? { AnchorIsAtMost(env, ops, pid, port, hi); }
    SpreadFits(RecordedEvents(env, ops), pid, port, lo, hi, WindowNs(env.config.networkWindowSecs));
  }

  lemma SpreadFits(recorded: seq<Recorded>, pid: nat, port: nat, lo: nat, hi: nat, window: nat)
    requires SpreadOut(recorded, pid, port, lo, window)
    requires Anchor(recorded, pid, port).Some? ==> Anchor(recorded, pid, port).value <= hi
    ensures FitsSpan(RecordedOnKey(recorded, pid, port), window, lo, hi)
  {
    var n := RecordedOnKey(recorded, pid, port);
    if n >= 1 { TimesIsProduct(n - 1, window); }
  }

  lemma AnchorIsAtMost(env: Environment, ops: seq<Op>, pid: nat, port: nat, hi: nat)
    requires Anchor(RecordedEvents(env, ops), pid, port).Some?
    requires forall i | 0 <= i < |ops| && OnKey(ops[i], pid, port) :: ops[i].event.timestampNs <= hi
    ensures Anchor(RecordedEvents(env, ops), pid, port).value <= hi
  {
    var i := LatestIsAnchor(RecordedEvents(env, ops), pid, port);
    var j := RecordedWasCalled(env, ops, i);
    assert OnKey(ops[j], pid, port);
  }

  // ---- the correlation window decides the exploitation attempts ----------------------------

  /** The loads a process made, in order. */
  function LoadHistory(ops: seq<Op>, pid: nat): seq<LibraryLoad> {
    if ops == [] then []
    else
      var before := LoadHistory(ops[..|ops| - 1], pid);
      match ops[|ops| - 1]
      case Load(p, _, _, path, t) => if p == pid then before + [LibraryLoad(path, t)] else before
      case _ => before
  }

  lemma StepKeepsLoads(env: Environment, g: Graph, op: Op, pid: nat)
    requires Sound(env)
    ensures LoadsOf(Step(env, g, op), pid) ==
      if op.Load? && op.pid == pid then LoadsOf(g, pid) + [LibraryLoad(op.path, op.timestampNs)] else LoadsOf(g, pid)
  {
  }

  lemma {:induction false} LoadsAreHistory(env: Environment, ops: seq<Op>, pid: nat)
    requires Sound(env)
    ensures LoadsOf(After(env, ops), pid) == LoadHistory(ops, pid)
  {
    if ops != [] {
      LoadsAreHistory(env, ops[..|ops| - 1], pid);
      StepKeepsLoads(env, After(env, ops[..|ops| - 1]), ops[|ops| - 1], pid);
    }
  }

  /** Operation `j` is a network event that is not collapsed. */
  predicate RecordedAt(env: Environment, ops: seq<Op>, j: nat) {
    j < |ops| && ops[j].Net? && !InWindow(env, RecordedEvents(env, ops[..j]), ops[j].pid, ops[j].event)
  }

  /** Operation `i` is a load, `j` a later recorded event of its process inside the load's window. */
  ghost predicate Correlated(env: Environment, ops: seq<Op>, s: Selector, i: nat, j: nat) {
    && i < j && RecordedAt(env, ops, j) && ops[i].Load? && ops[i].pid == ops[j].pid
    && ops[i].timestampNs < ops[j].event.timestampNs
    && ops[j].event.timestampNs - ops[i].timestampNs < env.config.mmapWindowSecs * 1_000_000_000 % TWO_TO_64
    && Selects(s, LibId(ops[i].path), Destination(ops[j].event))
  }

  ghost function CorrelatedPairs(env: Environment, ops: seq<Op>, s: Selector): set<(nat, nat)> {
    set i: nat, j: nat | i < |ops| && j < |ops| && Correlated(env, ops, s, i, j) :: (i, j)
  }

  /** The first components, below `m`, that a set of pairs ties to `j`. */
  ghost function Row(pairs: set<(nat, nat)>, j: nat, m: nat): set<nat> {
    set i: nat | i < m && (i, j) in pairs
  }

  lemma RowOneMore(pairs: set<(nat, nat)>, j: nat, m: nat)
    ensures |Row(pairs, j, m + 1)| == |Row(pairs, j, m)| + if (m, j) in pairs then 1 else 0
  {
    var before, after := Row(pairs, j, m), Row(pairs, j, m + 1);
    assert m !in before;
    assert after == if (m, j) in pairs then before + {m} else before;
  }

  ghost function PairedWith(partners: set<nat>, j: nat): set<(nat, nat)> {
    set i: nat | i in partners :: (i, j)
  }

  lemma {:induction false} PairedWithSize(partners: set<nat>, j: nat)
    ensures |PairedWith(partners, j)| == |partners|
  {
    if partners == {} {
      assert PairedWith(partners, j) == {};
    } else {
      var i :| i in partners;
      PairedWithSize(partners - {i}, j);
      assert PairedWith(partners, j) == PairedWith(partners - {i}, j) + {(i, j)};
    }
  }

  /** Pairs below the diagonal split into those before `n` and the row of `n`. */
  lemma PairsSplit(pairs: set<(nat, nat)>, before: set<(nat, nat)>, n: nat)
    requires forall p | p in pairs :: p.0 < p.1 <= n
    requires forall p :: p in before <==> p in pairs && p.1 < n
    ensures |pairs| == |before| + |Row(pairs, n, n)|
  {
    var row := PairedWith(Row(pairs, n, n), n);
    PairedWithSize(Row(pairs, n, n), n);
    assert pairs == before + row;
    assert before !! row;
  }

  /** Attempts of the event at `j` with the loads among the first `m` operations. */
  ghost function AttemptsUpTo(env: Environment, ops: seq<Op>, s: Selector, j: nat, m: nat): nat
    requires m <= j < |ops| && ops[j].Net?
  {
    Sum(AttemptCount, s, AttemptViews(env.config, LoadHistory(ops[..m], ops[j].pid), ops[j].event))
  }

  ghost function Partners(env: Environment, ops: seq<Op>, s: Selector, j: nat, m: nat): nat {
    |Row(CorrelatedPairs(env, ops, s), j, m)|
  }

  lemma PartnersOneMore(env: Environment, ops: seq<Op>, s: Selector, j: nat, m: nat)
    ensures Partners(env, ops, s, j, m + 1) ==
      Partners(env, ops, s, j, m) + if Correlated(env, ops, s, m, j) then 1 else 0
  {
    RowOneMore(CorrelatedPairs(env, ops, s), j, m);
    InCorrelatedPairs(env, ops, s, m, j);
  }

  lemma NoPartnersYet(env: Environment, ops: seq<Op>, s: Selector, j: nat)
    requires j < |ops| && ops[j].Net?
    ensures Partners(env, ops, s, j, 0) == 0 == AttemptsUpTo(env, ops, s, j, 0)
  {
    assert Row(CorrelatedPairs(env, ops, s), j, 0) == {};
  }

  lemma {:induction false} StepsAlike(a: seq<nat>, b: seq<nat>, n: nat)
    requires n < |a| == |b| && a[0] == b[0] && forall i | 0 <= i < |a| - 1 :: a[i + 1] + b[i] == b[i + 1] + a[i]
    ensures a[n] == b[n]
  {
    if n > 0 { StepsAlike(a, b, n - 1); }
  }

  ghost function PartnerCounts(env: Environment, ops: seq<Op>, s: Selector, j: nat): seq<nat> {
    seq(j + 1, m requires 0 <= m <= j => Partners(env, ops, s, j, m))
  }

  ghost function AttemptCounts(env: Environment, ops: seq<Op>, s: Selector, j: nat): seq<nat>
    requires RecordedAt(env, ops, j)
  {
    seq(j + 1, m requires 0 <= m <= j => AttemptsUpTo(env, ops, s, j, m))
  }

  lemma PartnersAreAttempts(env: Environment, ops: seq<Op>, s: Selector, j: nat)
    requires RecordedAt(env, ops, j)
    ensures Partners(env, ops, s, j, j) == AttemptsUpTo(env, ops, s, j, j)
  {
    var partners, attempts := PartnerCounts(env, ops, s, j), AttemptCounts(env, ops, s, j);
    forall m | 0 <= m < j ensures partners[m + 1] + attempts[m] == attempts[m + 1] + partners[m] {
      PartnersOneMore(env, ops, s, j, m);
      AttemptOfOne(env, ops, s, j, m);
    }
    NoPartnersYet(env, ops, s, j);
    StepsAlike(partners, attempts, j);
  }

  lemma InCorrelatedPairs(env: Environment, ops: seq<Op>, s: Selector, i: nat, j: nat)
    ensures (i, j) in CorrelatedPairs(env, ops, s) <==> Correlated(env, ops, s, i, j)
  {
  }

  /** One more operation before a recorded event adds one attempt exactly when the two are correlated. */
  lemma AttemptOfOne(env: Environment, ops: seq<Op>, s: Selector, j: nat, i: nat)
    requires RecordedAt(env, ops, j) && i < j
    ensures AttemptsUpTo(env, ops, s, j, i + 1) == AttemptsUpTo(env, ops, s, j, i) +
      if Correlated(env, ops, s, i, j) then 1 else 0
  {
    var op := ops[i];
    LoadHistoryOneMore(ops, i, ops[j].pid);
    if op.Load? && op.pid == ops[j].pid {
      AttemptsOneMore(env.config, s, LoadHistory(ops[..i], op.pid), LibraryLoad(op.path, op.timestampNs), ops[j].event);
    }
  }

  lemma LoadHistoryOneMore(ops: seq<Op>, i: nat, pid: nat)
    requires i < |ops|
    ensures LoadHistory(ops[..i + 1], pid) ==
      if ops[i].Load? && ops[i].pid == pid
      then LoadHistory(ops[..i], pid) + [LibraryLoad(ops[i].path, ops[i].timestampNs)]
      else LoadHistory(ops[..i], pid)
  {
    assert ops[..i + 1][..i] == ops[..i];
  }

  lemma AttemptsOneMore(config: AttackGraphConfig, s: Selector, loads: seq<LibraryLoad>, load: LibraryLoad,
                        event: NetEvent)
    ensures Sum(AttemptCount, s, AttemptViews(config, loads + [load], event)) ==
      Sum(AttemptCount, s, AttemptViews(config, loads, event)) +
      if Correlates(config, load, event) && Selects(s, LibId(load.path), Destination(event)) then 1 else 0
  {
    assert (loads + [load])[..|loads|] == loads;
    if Correlates(config, load, event) {
      var one := EdgeView(LibId(load.path), Destination(event), Attempt(config, load, event));
      SumAppend(AttemptCount, s, AttemptViews(config, loads, event), [one]);
      SumOne(AttemptCount, s, one);
    }
  }

  lemma PrefixCorrelates(env: Environment, ops: seq<Op>, s: Selector, n: nat)
    requires n <= |ops|
    ensures forall i: nat, j: nat | j < n :: Correlated(env, ops[..n], s, i, j) == Correlated(env, ops, s, i, j)
  {
    forall i: nat, j: nat | j < n ensures Correlated(env, ops[..n], s, i, j) == Correlated(env, ops, s, i, j) {
      assert ops[..n][..j] == ops[..j];
    }
  }

  lemma PairsOneMore(env: Environment, ops: seq<Op>, s: Selector)
    requires ops != []
    ensures var n := |ops| - 1;
      |CorrelatedPairs(env, ops, s)| == |CorrelatedPairs(env, ops[..n], s)| + |Row(CorrelatedPairs(env, ops, s), n, n)|
  {
    var n := |ops| - 1;
    PrefixCorrelates(env, ops, s, n);
    forall p: (nat, nat) ensures p in CorrelatedPairs(env, ops, s) ==> p.0 < p.1 <= n
                         ensures p in CorrelatedPairs(env, ops[..n], s) <==>
                           p in CorrelatedPairs(env, ops, s) && p.1 < n {
      assert p == (p.0, p.1);
      InCorrelatedPairs(env, ops, s, p.0, p.1);
      InCorrelatedPairs(env, ops[..n], s, p.0, p.1);
    }
    PairsSplit(CorrelatedPairs(env, ops, s), CorrelatedPairs(env, ops[..n], s), n);
  }

  /** Only a recorded network event has partners. */
  lemma NoPartners(env: Environment, ops: seq<Op>, s: Selector, j: nat)
    requires j < |ops| && !RecordedAt(env, ops, j)
    ensures Row(CorrelatedPairs(env, ops, s), j, j) == {}
  {
    forall i: nat ensures (i, j) !in CorrelatedPairs(env, ops, s) { InCorrelatedPairs(env, ops, s, i, j); }
  }

  lemma AttemptIncrement(s: Selector, env: Environment, g: Graph, op: Op)
    requires Sound(env)
    ensures Increment(AttemptCount, s, env, g, op) ==
      if op.Net? && !Collapses(env, g, op.pid, op.event)
      then Sum(AttemptCount, s, AttemptViews(env.config, LoadsOf(g, op.pid), op.event)) else 0
  {
  }

  /**
   The exploitation-attempt edges are exactly one per pair of a recorded event and an earlier load
   of its process inside the correlation window, in total and between any two identifiers.
   */
  lemma {:induction false} AttemptsAreCorrelatedPairs(env: Environment, ops: seq<Op>, s: Selector)
    requires Sound(env)
    ensures WellFormed(After(env, ops))
    ensures Sum(AttemptCount, s, View(After(env, ops))) == |CorrelatedPairs(env, ops, s)|
  {
    if ops == [] {
      assert CorrelatedPairs(env, ops, s) == {};
    } else {
      var n := |ops| - 1;
      var init, op := ops[..n], ops[n];
      AttemptsAreCorrelatedPairs(env, init, s);
      StepSum(AttemptCount, s, env, After(env, init), op);
      AttemptIncrement(s, env, After(env, init), op);
      PairsOneMore(env, ops, s);
      if op.Net? {
        CollapsesIsInWindow(env, init, op.pid, op.event);
        LoadsAreHistory(env, init, op.pid);
      }
      if RecordedAt(env, ops, n) {
        PartnersAreAttempts(env, ops, s, n);
      } else {
        NoPartners(env, ops, s, n);
      }
    }
  }

  // ---- connections only grow ---------------------------------------------------------------

  function Capped(base: real, count: nat): real {
    var c := base + 0.05 * (count as real - 1.0);
    if c <= 0.95 then c else 0.95
  }

  /** Confidence is a function of how many events were merged and of how large the first one was. */
  predicate Lawful(w: RuntimeEdge) {
    w.NetworkConnection? ==>
      w.eventCount >= 1 && (w.confidence == Capped(0.7, w.eventCount) || w.confidence == Capped(0.9, w.eventCount))
  }

  ghost predicate AllLawful(view: seq<EdgeView>) {
    forall k | 0 <= k < |view| :: Lawful(view[k].weight)
  }

  predicate Grown(w: RuntimeEdge, w': RuntimeEdge) {
    if w.NetworkConnection? then
      w'.NetworkConnection? && w'.timestampNs == w.timestampNs && w'.totalBytes >= w.totalBytes &&
      w'.eventCount >= w.eventCount && w'.confidence >= w.confidence
    else w' == w
  }

  ghost predicate Evolves(v: seq<EdgeView>, v': seq<EdgeView>) {
    |v| <= |v'| && forall k | 0 <= k < |v| ::
      v'[k].from == v[k].from && v'[k].to == v[k].to && Grown(v[k].weight, v'[k].weight)
  }

  lemma MergeIsLawful(w: RuntimeEdge, event: NetEvent)
    requires w.NetworkConnection? && Lawful(w)
    ensures Lawful(Merge(w, event)) && Grown(w, Merge(w, event)) && 0.7 <= w.confidence <= 0.95
  {
  }

  lemma CollapsedGrows(env: Environment, g: Graph, pid: nat, event: NetEvent)
    requires Sound(env) && WellFormed(g) && AllLawful(View(g))
    ensures var g' := AggregateNetworkEvent(env, g, pid, event);
      WellFormed(g') && AllLawful(View(g')) && Evolves(View(g), View(g'))
  {
    AggregateView(env, g, pid, event);
    match MergeTarget(env, g, pid, event)
    case None =>
    case Some(k) => MergeIsLawful(View(g)[k].weight, event);
  }

  lemma RecordedGrows(config: AttackGraphConfig, g: Graph, pid: nat, name: string, cgroupId: nat, event: NetEvent)
    requires WellFormed(g) && AllLawful(View(g))
    ensures var g' := RecordConnection(config, g, pid, name, cgroupId, event);
      WellFormed(g') && AllLawful(View(g')) && Evolves(View(g), View(g'))
  {
    RecordView(config, g, pid, name, cgroupId, event);
    AttemptViewsAreAttempts(config, LoadsOf(g, pid), event);
    AppendGrows(View(g), RecordedViews(config, LoadsOf(g, pid), pid, event));
  }

  lemma AppendGrows(v: seq<EdgeView>, more: seq<EdgeView>)
    requires AllLawful(v) && forall i | 0 <= i < |more| :: Lawful(more[i].weight)
    ensures AllLawful(v + more) && Evolves(v, v + more)
  {
  }

  lemma AssociateGrows(env: Environment, g: Graph, cveId: string, package: string, cvss: real, epss: real, kev: bool)
    requires WellFormed(g) && AllLawful(View(g))
    ensures var g' := AssociateCveWithLibrary(env, g, cveId, package, cvss, epss, kev);
      WellFormed(g') && AllLawful(View(g')) && Evolves(View(g), View(g'))
  {
    var more := AssociateView(env, g, cveId, package, cvss, epss, kev);
    AppendGrows(View(g), more);
  }

  lemma LoadGrows(g: Graph, pid: nat, name: string, cgroupId: nat, path: string, t: nat)
    requires WellFormed(g) && AllLawful(View(g))
    ensures var g' := ProcessLibraryLoad(g, pid, name, cgroupId, path, t);
      WellFormed(g') && AllLawful(View(g')) && Evolves(View(g), View(g'))
  {
    LoadView(g, pid, name, cgroupId, path, t);
    AppendGrows(View(g), [EdgeView(ProcId(pid), LibId(path), LibraryLoaded(t, 1.0))]);
  }

  lemma StepGrows(env: Environment, g: Graph, op: Op)
    requires Sound(env) && WellFormed(g) && AllLawful(View(g))
    ensures WellFormed(Step(env, g, op)) && AllLawful(View(Step(env, g, op))) &&
      Evolves(View(g), View(Step(env, g, op)))
  {
    match op
    case Load(pid, name, cgroupId, path, t) => LoadGrows(g, pid, name, cgroupId, path, t);
    case Net(pid, name, cgroupId, event) =>
      if Collapses(env, g, pid, event) {
        CollapsedGrows(env, g, pid, event);
        BumpKeeps(AggregateNetworkEvent(env, g, pid, event));
      } else {
        RecordedGrows(env.config, g, pid, name, cgroupId, event);
      }
    case Associate(cveId, package, cvss, epss, kev) => AssociateGrows(env, g, cveId, package, cvss, epss, kev);
    case Drain =>
      DrainKeeps(g);
      AppendGrows(View(g), []);
      assert View(g) + [] == View(g);
  }

  lemma {:induction false} AllAreLawful(env: Environment, ops: seq<Op>)
    requires Sound(env)
    ensures WellFormed(After(env, ops)) && AllLawful(View(After(env, ops)))
  {
    if ops != [] {
      AllAreLawful(env, ops[..|ops| - 1]);
      StepGrows(env, After(env, ops[..|ops| - 1]), ops[|ops| - 1]);
    }
  }

  lemma ConfidenceStaysInRange(env: Environment, ops: seq<Op>, k: nat)
    requires Sound(env) && k < |After(env, ops).edges| && After(env, ops).edges[k].weight.NetworkConnection?
    ensures 0.7 <= After(env, ops).edges[k].weight.confidence <= 0.95
  {
    AllAreLawful(env, ops);
    assert Lawful(View(After(env, ops))[k].weight);
  }

  /** No operation removes or redirects an edge, lowers a counter or lowers a confidence. */
  lemma {:induction false} EdgesOnlyGrow(env: Environment, ops: seq<Op>, n: nat)
    requires Sound(env) && n <= |ops|
    ensures WellFormed(After(env, ops[..n])) && WellFormed(After(env, ops))
    ensures Evolves(View(After(env, ops[..n])), View(After(env, ops)))
    decreases |ops|
  {
    AllAreLawful(env, ops);
    if n == |ops| {
      assert ops[..n] == ops;
    } else {
      var init := ops[..|ops| - 1];
      assert init[..n] == ops[..n];
      EdgesOnlyGrow(env, init, n);
      AllAreLawful(env, init);
      StepGrows(env, After(env, init), ops[|ops| - 1]);
      EvolvesTransitive(View(After(env, ops[..n])), View(After(env, init)), View(After(env, ops)));
    }
  }

  lemma EvolvesTransitive(u: seq<EdgeView>, v: seq<EdgeView>, w: seq<EdgeView>)
    requires Evolves(u, v) && Evolves(v, w)
    ensures Evolves(u, w)
  {
  }

  // ---- each connection is the history of one recorded event --------------------------------

  /** The edge is the connection of the recorded event: its ends and time, and confidence from its base. */
  predicate ConnectionOf(config: AttackGraphConfig, e: EdgeView, r: Recorded) {
    && e.weight.NetworkConnection? && e.from == ProcId(r.pid) && e.to == Destination(r.event)
    && e.weight.timestampNs == r.event.timestampNs && e.weight.totalBytes >= r.event.dataSize &&
      e.weight.eventCount >= 1
    && e.weight.confidence ==
      Capped(if r.event.dataSize > config.minBytesThreshold then 0.9 else 0.7, e.weight.eventCount)
  }

  /** The connections of a view, in order. */
  function Connections(view: seq<EdgeView>): seq<EdgeView> {
    if view == [] then []
    else
      var n := |view| - 1;
      if view[n].weight.NetworkConnection? then Connections(view[..n]) + [view[n]] else Connections(view[..n])
  }

  /** The connections of a view are, in order, those of the recorded events. */
  ghost predicate Aligned(config: AttackGraphConfig, view: seq<EdgeView>, recorded: seq<Recorded>) {
    Paired(config, Connections(view), recorded)
  }

  ghost predicate Paired(config: AttackGraphConfig, connections: seq<EdgeView>, recorded: seq<Recorded>) {
    |connections| == |recorded| && forall i | 0 <= i < |recorded| :: ConnectionOf(config, connections[i], recorded[i])
  }

  lemma PairedOneMore(config: AttackGraphConfig, connections: seq<EdgeView>, recorded: seq<Recorded>, e: EdgeView,
                      r: Recorded)
    requires Paired(config, connections, recorded) && ConnectionOf(config, e, r)
    ensures Paired(config, connections + [e], recorded + [r])
  {
  }

  lemma AlignedOneMore(config: AttackGraphConfig, view: seq<EdgeView>, recorded: seq<Recorded>, e: EdgeView,
                       r: Recorded)
    requires Aligned(config, view, recorded) && ConnectionOf(config, e, r)
    ensures Aligned(config, view + [e], recorded + [r])
  {
    PairedOneMore(config, Connections(view), recorded, e, r);
    assert (view + [e])[..|view|] == view;
  }

  lemma {:induction false} ReplacedConnection(view: seq<EdgeView>, k: nat, e: EdgeView) returns (i: nat)
    requires k < |view| && view[k].weight.NetworkConnection? && e.weight.NetworkConnection?
    ensures i < |Connections(view)| && Connections(view)[i] == view[k]
    ensures Connections(view[k := e]) == Connections(view)[i := e]
  {
    var n := |view| - 1;
    if k == n {
      i := |Connections(view[..n])|;
      assert view[k := e][..n] == view[..n];
    } else {
      i := ReplacedConnection(view[..n], k, e);
      assert view[k := e][..n] == view[..n][k := e];
    }
  }

  lemma {:induction false} AlignedAppend(config: AttackGraphConfig, view: seq<EdgeView>, recorded: seq<Recorded>,
                                         others: seq<EdgeView>)
    requires Aligned(config, view, recorded) && forall i | 0 <= i < |others| :: !others[i].weight.NetworkConnection?
    ensures Aligned(config, view + others, recorded)
  {
    if others == [] {
      assert view + others == view;
    } else {
      var n := |others| - 1;
      AlignedAppend(config, view, recorded, others[..n]);
      assert (view + others)[..|view + others| - 1] == view + others[..n];
    }
  }

  lemma MergeStaysConnection(config: AttackGraphConfig, e: EdgeView, event: NetEvent, r: Recorded)
    requires ConnectionOf(config, e, r)
    ensures ConnectionOf(config, e.(weight := Merge(e.weight, event)), r)
  {
  }

  lemma AlignedMerge(config: AttackGraphConfig, view: seq<EdgeView>, recorded: seq<Recorded>, k: nat, event: NetEvent)
    requires Aligned(config, view, recorded) && k < |view| && view[k].weight.NetworkConnection?
    ensures Aligned(config, view[k := view[k].(weight := Merge(view[k].weight, event))], recorded)
  {
    var i := ReplacedConnection(view, k, view[k].(weight := Merge(view[k].weight, event)));
    MergeStaysConnection(config, view[k], event, recorded[i]);
  }

  lemma RecordingAligns(config: AttackGraphConfig, g: Graph, recorded: seq<Recorded>, pid: nat, name: string,
                        cgroupId: nat, event: NetEvent)
    requires WellFormed(g) && Aligned(config, View(g), recorded)
    ensures var g' := RecordConnection(config, g, pid, name, cgroupId, event);
      WellFormed(g') && Aligned(config, View(g'), recorded + [Recorded(pid, event)])
  {
    RecordView(config, g, pid, name, cgroupId, event);
    var one := EdgeView(ProcId(pid), Destination(event), Connection(config, event));
    var attempts := AttemptViews(config, LoadsOf(g, pid), event);
    AttemptViewsAreAttempts(config, LoadsOf(g, pid), event);
    AlignedOneMore(config, View(g), recorded, one, Recorded(pid, event));
    AlignedAppend(config, View(g) + [one], recorded + [Recorded(pid, event)], attempts);
    Regroup(View(g), [one], attempts);
  }

  lemma CollapsingAligns(env: Environment, g: Graph, recorded: seq<Recorded>, pid: nat, event: NetEvent)
    requires Sound(env) && WellFormed(g) && Aligned(env.config, View(g), recorded)
    ensures var g' := AggregateNetworkEvent(env, g, pid, event);
      WellFormed(g') && Aligned(env.config, View(g'), recorded)
  {
    AggregateView(env, g, pid, event);
    match MergeTarget(env, g, pid, event)
    case None =>
    case Some(k) => AlignedMerge(env.config, View(g), recorded, k, event);
  }

  lemma StepAligns(env: Environment, g: Graph, recorded: seq<Recorded>, op: Op)
    requires Sound(env) && WellFormed(g) && Aligned(env.config, View(g), recorded)
    ensures WellFormed(Step(env, g, op))
    ensures Aligned(env.config, View(Step(env, g, op)),
      if op.Net? && !Collapses(env, g, op.pid, op.event) then recorded + [Recorded(op.pid, op.event)] else recorded)
  {
    match op
    case Load(pid, name, cgroupId, path, t) =>
      LoadView(g, pid, name, cgroupId, path, t);
      AlignedAppend(env.config, View(g), recorded, [EdgeView(ProcId(pid), LibId(path), LibraryLoaded(t, 1.0))]);
    case Net(pid, name, cgroupId, event) =>
      if Collapses(env, g, pid, event) {
        CollapsingAligns(env, g, recorded, pid, event);
        BumpKeeps(AggregateNetworkEvent(env, g, pid, event));
      } else {
        RecordingAligns(env.config, g, recorded, pid, name, cgroupId, event);
      }
    case Associate(cveId, package, cvss, epss, kev) =>
      var more := AssociateView(env, g, cveId, package, cvss, epss, kev);
      AlignedAppend(env.config, View(g), recorded, more);
    case Drain => DrainKeeps(g);
  }

  /**
   In every reachable graph the connections are, in order, those of the recorded events: each has its
   event's ends and time, and a confidence of 0.9 or 0.7, by that event's size, raised once per merged event.
   */
  lemma {:induction false} ConfidenceLaw(env: Environment, ops: seq<Op>)
    requires Sound(env)
    ensures WellFormed(After(env, ops)) && Aligned(env.config, View(After(env, ops)), RecordedEvents(env, ops))
  {
    if ops == [] {
      assert View(After(env, ops)) == [];
    } else {
      var init, op := ops[..|ops| - 1], ops[|ops| - 1];
      ConfidenceLaw(env, init);
      StepAligns(env, After(env, init), RecordedEvents(env, init), op);
      if op.Net? { CollapsesIsInWindow(env, init, op.pid, op.event); }
    }
  }

  lemma CappedReaches(count: nat)
    requires count >= 1
    ensures Capped(0.9, count) >= 0.9 && (Capped(0.7, count) >= 0.9 <==> count >= 5)
  {
  }

  /** A connection is of confidence 0.9 exactly when its first event was large or five events made it up. */
  lemma StrongIffLargeOrRepeated(env: Environment, ops: seq<Op>, i: nat)
    requires Sound(env) && i < |RecordedEvents(env, ops)|
    ensures WellFormed(After(env, ops)) && |Connections(View(After(env, ops)))| == |RecordedEvents(env, ops)|
    ensures var w, r := Connections(View(After(env, ops)))[i].weight, RecordedEvents(env, ops)[i];
      w.NetworkConnection? &&
      (w.confidence >= 0.9 <==> r.event.dataSize > env.config.minBytesThreshold || w.eventCount >= 5)
  {
    ConfidenceLaw(env, ops);
    var e := Connections(View(After(env, ops)))[i];
    assert ConnectionOf(env.config, e, RecordedEvents(env, ops)[i]);
    CappedReaches(e.weight.eventCount);
  }

  /** With the default configuration recorded events of a process and port are half a minute apart. */
  lemma SpacedUnderDefaults(env: Environment, ops: seq<Op>, pid: nat, port: nat)
    requires env.config == DEFAULT_CONFIG && StrictlyIncreasing(ops, pid, port)
    ensures WindowApart(RecordedEvents(env, ops), pid, port, 30_000_000_000)
  {
    RecordedAreWindowApart(env, ops, pid, port);
  }

  /** With the default configuration a large event carries more than a kilobyte. */
  lemma StrongUnderDefaults(env: Environment, ops: seq<Op>, i: nat)
    requires Sound(env) && env.config == DEFAULT_CONFIG && i < |RecordedEvents(env, ops)|
    ensures WellFormed(After(env, ops)) && |Connections(View(After(env, ops)))| == |RecordedEvents(env, ops)|
    ensures var w, r := Connections(View(After(env, ops)))[i].weight, RecordedEvents(env, ops)[i];
      w.NetworkConnection? && (w.confidence >= 0.9 <==> r.event.dataSize > 1024 || w.eventCount >= 5)
  {
    StrongIffLargeOrRepeated(env, ops, i);
  }

  /** With the default configuration an attempt ties a load to an event less than five minutes later. */
  lemma CorrelatedUnderDefaults(env: Environment, ops: seq<Op>, s: Selector, i: nat, j: nat)
    requires Sound(env) && env.config == DEFAULT_CONFIG && Correlated(env, ops, s, i, j)
    ensures 0 < ops[j].event.timestampNs - ops[i].timestampNs < 300_000_000_000
  {
  }
}
