/** Threshold-crossing alerts with a cooldown. Clock readings are nanoseconds, confidences exact. */
module StreamingAlerts {
  import opened Wrappers

  const THRESHOLD := 0.8
  const ALERT_COOLDOWN := 30_000_000_000

  datatype Alerts = Alerts(pathConfidence: map<string, real>, lastAlert: map<string, nat>)

  const EMPTY := Alerts(map[], map[])

  function Recorded(s: Alerts, path: string): real {
    if path in s.pathConfidence then s.pathConfidence[path] else 0.0
  }

  predicate Crosses(s: Alerts, path: string, confidence: real) {
    Recorded(s, path) < THRESHOLD && confidence >= THRESHOLD
  }

  predicate CoolingDown(s: Alerts, path: string, now: nat) {
    path in s.lastAlert && Since(s.lastAlert[path], now) < ALERT_COOLDOWN
  }

  /** An observation through `should_alert`, with its two clock readings, or a newly detected path. */
  datatype Op =
    | Observe(path: string, confidence: real, checkedAt: nat, alertedAt: nat)
    | PathDetected(path: string, confidence: real)

  predicate Fires(s: Alerts, op: Op) {
    op.Observe? && Crosses(s, op.path, op.confidence) && !CoolingDown(s, op.path, op.checkedAt)
  }

  predicate Suppressed(s: Alerts, op: Op) {
    op.Observe? && Crosses(s, op.path, op.confidence) && CoolingDown(s, op.path, op.checkedAt)
  }

  function Step(s: Alerts, op: Op): Alerts {
    if Suppressed(s, op) then s
    else
      var noted := s.(pathConfidence := s.pathConfidence[op.path := op.confidence]);
      if Fires(s, op) then noted.(lastAlert := s.lastAlert[op.path := op.alertedAt]) else noted
  }

  function After(ops: seq<Op>): Alerts {
    if ops == [] then EMPTY else Step(After(ops[..|ops| - 1]), ops[|ops| - 1])
  }

  class StreamingState {
    var pathConfidence: map<string, real>
    var lastAlert: map<string, nat>

    function State(): Alerts
      reads this
    {
      Alerts(pathConfidence, lastAlert)
    }

    constructor ()
      ensures State() == EMPTY
    {
      pathConfidence, lastAlert := map[], map[];
    }

    method ShouldAlert(path: string, confidence: real, checkedAt: nat, alertedAt: nat) returns (alert: bool)
      modifies this
      ensures alert <==> Fires(old(State()), Observe(path, confidence, checkedAt, alertedAt))
      ensures State() == Step(old(State()), Observe(path, confidence, checkedAt, alertedAt))
    {
      var oldConfidence := if path in pathConfidence then pathConfidence[path] else 0.0;
      alert := oldConfidence < THRESHOLD && confidence >= THRESHOLD;
      if alert {
        if path in lastAlert && Since(lastAlert[path], checkedAt) < ALERT_COOLDOWN {
          return false;
        }
        lastAlert := lastAlert[path := alertedAt];
      }
      pathConfidence := pathConfidence[path := confidence];
    }

    /** The state write of `handle_path_detected`, and whether it raises an alert of its own. */
    method NotePathDetected(path: string, confidence: real, alertThreshold: real) returns (alert: bool)
      modifies this
      ensures State() == Step(old(State()), PathDetected(path, confidence))
      ensures alert <==> DetectionAlerts(PathDetected(path, confidence), alertThreshold)
    {
      pathConfidence := pathConfidence[path := confidence];
      alert := confidence >= alertThreshold;
    }
  }

  // ---- over whole runs ---------------------------------------------------------------------

  predicate FiresAt(ops: seq<Op>, i: nat, path: string) {
    i < |ops| && ops[i].path == path && Fires(After(ops[..i]), ops[i])
  }

  /** The operation at `i` records a confidence below the threshold for the path. */
  predicate RecordsLow(ops: seq<Op>, i: nat, path: string) {
    i < |ops| && ops[i].path == path && ops[i].confidence < 0.8
  }

  lemma AfterOneMore(ops: seq<Op>, i: nat)
    requires i < |ops|
    ensures After(ops[..i + 1]) == Step(After(ops[..i]), ops[i])
  {
    assert ops[..i + 1][..i] == ops[..i];
  }

  /** Between an alert and the next time a low confidence is recorded, the record stays high. */
  lemma {:induction false} HighSinceAlert(ops: seq<Op>, i: nat, j: nat, path: string)
    requires FiresAt(ops, i, path) && i < j <= |ops|
    ensures Recorded(After(ops[..j]), path) < 0.8 ==> exists k :: i < k < j && RecordsLow(ops, k, path)
  {
    AfterOneMore(ops, j - 1);
    if j > i + 1 {
      HighSinceAlert(ops, i, j - 1, path);
      if Recorded(After(ops[..j]), path) < 0.8 && !RecordsLow(ops, j - 1, path) {
        assert Recorded(After(ops[..j - 1]), path) < 0.8;
      }
    }
  }

  predicate ClockMonotone(ops: seq<Op>) {
    && (forall i | 0 <= i < |ops| && ops[i].Observe? :: ops[i].checkedAt <= ops[i].alertedAt)
    && (forall i, j | 0 <= i < j < |ops| && ops[i].Observe? && ops[j].Observe? :: ops[i].alertedAt <= ops[j].checkedAt)
  }

  /** The last alert on record is no earlier than any alert that fired, and none later than the clock. */
  lemma {:induction false} AlertIsRemembered(ops: seq<Op>, i: nat, j: nat, path: string)
    requires ClockMonotone(ops) && FiresAt(ops, i, path) && i < j <= |ops|
    ensures path in After(ops[..j]).lastAlert && ops[i].alertedAt <= After(ops[..j]).lastAlert[path]
  {
    AfterOneMore(ops, j - 1);
    if j > i + 1 { AlertIsRemembered(ops, i, j - 1, path); }
  }

  /**
   Two alerts for one path are at least the cooldown apart, and in between a confidence below the
   threshold was recorded for it.
   */
  lemma AlertsAreSpaced(ops: seq<Op>, i: nat, j: nat, path: string)
    requires ClockMonotone(ops) && i < j && FiresAt(ops, i, path) && FiresAt(ops, j, path)
    ensures ops[j].checkedAt - ops[i].alertedAt >= 30_000_000_000
    ensures exists k :: i < k < j && RecordsLow(ops, k, path)
  {
    HighSinceAlert(ops, i, j, path);
    AlertIsRemembered(ops, i, j, path);
  }

  // ---- a suppressed crossing leaves no trace -----------------------------------------------

  predicate SuppressedAt(ops: seq<Op>, i: nat, path: string) {
    i < |ops| && ops[i].path == path && Suppressed(After(ops[..i]), ops[i])
  }

  lemma {:induction false} SameStateGoesOn(a: seq<Op>, b: seq<Op>, more: seq<Op>)
    requires After(a) == After(b)
    ensures After(a + more) == After(b + more)
  {
    if more == [] {
      assert a + more == a && b + more == b;
    } else {
      var n := |more| - 1;
      SameStateGoesOn(a, b, more[..n]);
      assert (a + more)[..|a + more| - 1] == a + more[..n] && (b + more)[..|b + more| - 1] == b + more[..n];
    }
  }

  lemma SameStateWithout(ops: seq<Op>, i: nat, n: nat, path: string)
    requires SuppressedAt(ops, i, path) && i < n <= |ops|
    ensures After(Without(ops, i)[..n - 1]) == After(ops[..n])
  {
    AfterOneMore(ops, i);
    SameStateGoesOn(ops[..i], ops[..i + 1], ops[i + 1..n]);
    assert Without(ops, i)[..n - 1] == ops[..i] + ops[i + 1..n] && ops[..n] == ops[..i + 1] + ops[i + 1..n];
  }

  /**
   A run with a crossing suppressed inside the cooldown ends as the run without it, and every other
   operation fires in the one exactly when it does in the other.
   */
  lemma SuppressionLeavesNoTrace(ops: seq<Op>, i: nat, path: string)
    requires SuppressedAt(ops, i, path)
    ensures After(Without(ops, i)) == After(ops)
    ensures forall k: nat, other | k < i :: FiresAt(ops, k, other) <==> FiresAt(Without(ops, i), k, other)
    ensures forall k: nat, other | i < k :: FiresAt(ops, k, other) <==> FiresAt(Without(ops, i), k - 1, other)
  {
    var without := Without(ops, i);
    SameStateWithout(ops, i, |ops|, path);
    assert ops[..|ops|] == ops && without[..|ops| - 1] == without;
    forall k: nat, other | k < i ensures FiresAt(ops, k, other) <==> FiresAt(without, k, other) {
      assert without[..k] == ops[..k];
    }
    forall k: nat, other | i < k ensures FiresAt(ops, k, other) <==> FiresAt(without, k - 1, other) {
      if k < |ops| { SameStateWithout(ops, i, k, path); }
    }
  }

  // ---- exactly when an observation fires ---------------------------------------------------

  predicate HighDetected(ops: seq<Op>, k: nat, path: string) {
    k < |ops| && ops[k].PathDetected? && ops[k].path == path && ops[k].confidence >= 0.8
  }

  /** The operation at `k` raises the path's record to a high confidence: an alert, or a detected path. */
  predicate Raises(ops: seq<Op>, k: nat, path: string) {
    FiresAt(ops, k, path) || HighDetected(ops, k, path)
  }

  /** Before `j` something raised the path's record, and no low confidence was recorded since. */
  ghost predicate HeldHigh(ops: seq<Op>, j: nat, path: string) {
    exists k: nat :: Raises(ops, k, path) && k < j && forall l: nat | k < l < j :: !RecordsLow(ops, l, path)
  }

  lemma {:induction false} RecordIsHeldHigh(ops: seq<Op>, j: nat, path: string)
    requires j <= |ops|
    ensures Recorded(After(ops[..j]), path) >= 0.8 <==> HeldHigh(ops, j, path)
  {
    if j > 0 {
      RecordIsHeldHigh(ops, j - 1, path);
      AfterOneMore(ops, j - 1);
      HeldHighOneMore(ops, j - 1, path);
    }
  }

  lemma HeldHighOneMore(ops: seq<Op>, j: nat, path: string)
    requires j < |ops|
    ensures HeldHigh(ops, j + 1, path) <==>
      Raises(ops, j, path) || (HeldHigh(ops, j, path) && !RecordsLow(ops, j, path))
  {
    if HeldHigh(ops, j + 1, path) && !Raises(ops, j, path) {
      var k: nat :| Raises(ops, k, path) && k < j + 1 && forall l: nat | k < l < j + 1 :: !RecordsLow(ops, l, path);
      assert k < j;
    }
  }

  /** The last alert for the path before `j`, as its history has it. */
  function LastFired(ops: seq<Op>, j: nat, path: string): Option<nat>
    requires j <= |ops|
  {
    if j == 0 then None
    else if FiresAt(ops, j - 1, path) && ops[j - 1].Observe? then Some(ops[j - 1].alertedAt)
    else LastFired(ops, j - 1, path)
  }

  lemma {:induction false} AlertTimeIsLastFired(ops: seq<Op>, j: nat, path: string)
    requires j <= |ops|
    ensures var s := After(ops[..j]);
      LastFired(ops, j, path) == if path in s.lastAlert then Some(s.lastAlert[path]) else None
  {
    if j > 0 {
      AlertTimeIsLastFired(ops, j - 1, path);
      AfterOneMore(ops, j - 1);
    }
  }

  /** The last alert is at least the cooldown past. */
  predicate CooledDown(ops: seq<Op>, j: nat, path: string, now: nat)
    requires j <= |ops|
  {
    LastFired(ops, j, path).Some? ==> now >= LastFired(ops, j, path).value + 30_000_000_000
  }

  /**
   An operation fires exactly when it observes a high confidence for the path while no earlier alert
   or detected path holds the record high, and the last alert is a cooldown past.
   */
  lemma FiresExactly(ops: seq<Op>, j: nat, path: string)
    requires j < |ops|
    ensures FiresAt(ops, j, path) <==>
      ops[j].path == path && ops[j].Observe? && ops[j].confidence >= 0.8 &&
      !HeldHigh(ops, j, path) && CooledDown(ops, j, path, ops[j].checkedAt)
  {
    RecordIsHeldHigh(ops, j, path);
    AlertTimeIsLastFired(ops, j, path);
  }

  // ---- what becomes of a suppressed alert --------------------------------------------------

  /** After `i`, a detected path recorded a high confidence, and nothing recorded a low one since. */
  ghost predicate Swallowed(ops: seq<Op>, i: nat, j: nat, path: string) {
    exists k: nat :: i < k < j && HighDetected(ops, k, path) && forall l: nat | k < l < j :: !RecordsLow(ops, l, path)
  }

  /** High observations of the path between `i` and `j` fall inside the cooldown of its last alert. */
  predicate HighOnesCoolingDown(ops: seq<Op>, i: nat, j: nat, path: string, lastAlert: nat) {
    forall k | i < k < j && k < |ops| && ops[k].path == path && ops[k].Observe? && ops[k].confidence >= 0.8 ::
      ops[k].checkedAt < lastAlert + 30_000_000_000
  }

  /** After a suppressed crossing nothing fires until the cooldown is over. */
  lemma {:induction false} SilentWhileCoolingDown(ops: seq<Op>, i: nat, j: nat, path: string)
    requires SuppressedAt(ops, i, path) && i < j <= |ops|
    requires HighOnesCoolingDown(ops, i, j, path, After(ops[..i]).lastAlert[path])
    ensures forall k: nat | i <= k < j :: !FiresAt(ops, k, path)
    ensures LastFired(ops, j, path) == Some(After(ops[..i]).lastAlert[path])
  {
    AlertTimeIsLastFired(ops, i, path);
    AlertTimeIsLastFired(ops, j - 1, path);
    if j > i + 1 { SilentWhileCoolingDown(ops, i, j - 1, path); }
  }

  lemma HeldHighIsSwallowed(ops: seq<Op>, i: nat, j: nat, path: string)
    requires SuppressedAt(ops, i, path) && i < j <= |ops|
    requires forall k: nat | i <= k < j :: !FiresAt(ops, k, path)
    ensures HeldHigh(ops, j, path) <==> Swallowed(ops, i, j, path)
  {
    if HeldHigh(ops, j, path) {
      var k: nat :| Raises(ops, k, path) && k < j && forall l: nat | k < l < j :: !RecordsLow(ops, l, path);
      if k < i {
        assert HeldHigh(ops, i, path);
        RecordIsHeldHigh(ops, i, path);
      }
    }
    if Swallowed(ops, i, j, path) {
      var k: nat :| i < k < j && HighDetected(ops, k, path) && forall l: nat | k < l < j :: !RecordsLow(ops, l, path);
      assert Raises(ops, k, path);
    }
  }

  /**
   After a crossing was suppressed, the first observation at or above the threshold that comes past
   the cooldown fires exactly when no detected path swallowed it.
   */
  lemma SuppressedAlertFiresLater(ops: seq<Op>, i: nat, j: nat, path: string)
    requires SuppressedAt(ops, i, path) && i < j < |ops|
    requires HighOnesCoolingDown(ops, i, j, path, After(ops[..i]).lastAlert[path])
    requires ops[j].path == path && ops[j].Observe? && ops[j].confidence >= 0.8
    ensures FiresAt(ops, j, path) <==>
      ops[j].checkedAt >= After(ops[..i]).lastAlert[path] + 30_000_000_000 && !Swallowed(ops, i, j, path)
  {
    SilentWhileCoolingDown(ops, i, j, path);
    HeldHighIsSwallowed(ops, i, j, path);
    FiresExactly(ops, j, path);
  }

  function SwallowingRun(path: string, low: real, high: real): seq<Op> {
    [Observe(path, high, 0, 0), Observe(path, low, 0, 0), Observe(path, high, 1, 1), PathDetected(path, high),
     Observe(path, high, 60_000_000_000, 60_000_000_000)]
  }

  /**
   A run in which the crossing alert is lost: raised, cooled, suppressed, swallowed by a detected path,
   and silent past the cooldown.
   */
  lemma DetectedPathSwallowsAlert(path: string, low: real, high: real)
    requires low < 0.8 <= high
    ensures var ops := SwallowingRun(path, low, high);
      FiresAt(ops, 0, path) && SuppressedAt(ops, 2, path) && Swallowed(ops, 2, 4, path) && !FiresAt(ops, 4, path)
  {
    var ops := SwallowingRun(path, low, high);
    assert ops[..0] == [];
    AfterOneMore(ops, 0);
    AfterOneMore(ops, 1);
    assert SuppressedAt(ops, 2, path);
    assert HighDetected(ops, 3, path);
    SuppressedAlertFiresLater(ops, 2, 4, path);
  }

  // ---- the alert of the detected path itself -----------------------------------------------

  /** The alert that `handle_path_detected` raises for the path, by its configured threshold. */
  predicate DetectionAlerts(op: Op, alertThreshold: real) { op.PathDetected? && op.confidence >= alertThreshold }

  /** Some alert, of a crossing or of a detected path, told of the path, and no low confidence was recorded since. */
  ghost predicate Told(ops: seq<Op>, j: nat, path: string, alertThreshold: real) {
    exists k: nat :: k < j && k < |ops| && ops[k].path == path
      && (FiresAt(ops, k, path) || DetectionAlerts(ops[k], alertThreshold))
      && forall l: nat | k < l < j :: !RecordsLow(ops, l, path)
  }

  lemma HighIsTold(ops: seq<Op>, j: nat, path: string, alertThreshold: real)
    requires j <= |ops| && alertThreshold <= 0.8 && Recorded(After(ops[..j]), path) >= 0.8
    ensures Told(ops, j, path, alertThreshold)
  {
    RecordIsHeldHigh(ops, j, path);
    var k: nat :| Raises(ops, k, path) && k < j && forall l: nat | k < l < j :: !RecordsLow(ops, l, path);
    assert FiresAt(ops, k, path) || DetectionAlerts(ops[k], alertThreshold);
  }

  /**
   A path whose record is high has been told of since its record was last low, in every run, exactly
   when detected paths alert at the crossing threshold or lower; otherwise one in between is silent.
   */
  lemma HighAlwaysToldIff(path: string, alertThreshold: real)
    ensures (forall ops, j: nat | j <= |ops| && Recorded(After(ops[..j]), path) >= 0.8 ::
      Told(ops, j, path, alertThreshold))
      <==> alertThreshold <= 0.8
  {
    if alertThreshold <= 0.8 {
      forall ops, j: nat | j <= |ops| && Recorded(After(ops[..j]), path) >= 0.8
        ensures Told(ops, j, path, alertThreshold)
      {
        HighIsTold(ops, j, path, alertThreshold);
      }
    } else {
      var ops := [PathDetected(path, 0.8)];
      AfterOneMore(ops, 0);
      assert ops[..1] == ops;
      assert Recorded(After(ops[..1]), path) >= 0.8 && !Told(ops, 1, path, alertThreshold);
    }
  }
}
