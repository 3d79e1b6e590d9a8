/**
 The circuit breaker for external calls: once as atomic calls against the history since the circuit
 last closed, and once as tasks that interleave at every access to the shared fields.
 */
module CircuitBreakers {
  import opened Wrappers

  datatype CircuitState = Closed | Open | HalfOpen

  datatype BreakerConfig = BreakerConfig(threshold: nat, recoverySecs: nat)

  datatype Breaker = Breaker(state: CircuitState, failureCount: nat, lastFailure: Option<nat>)

  const INITIAL := Breaker(Closed, 0, None)

  /** Whole seconds since a clock reading. */
  function SecondsSince(t: nat, now: nat): nat { Since(t, now) / 1_000_000_000 }

  // ---- atomic calls ------------------------------------------------------------------------

  datatype Call = Proceed(now: nat) | Success | Failure(now: nat)

  predicate Allows(config: BreakerConfig, b: Breaker, now: nat) {
    b.state == Open && b.lastFailure.Some? ==> SecondsSince(b.lastFailure.value, now) >= config.recoverySecs
  }

  function Apply(config: BreakerConfig, b: Breaker, call: Call): Breaker {
    match call
    case Proceed(now) =>
      if b.state == Open && b.lastFailure.Some? && Allows(config, b, now) then b.(state := HalfOpen) else b
    case Success => if b.state == HalfOpen then b.(state := Closed, failureCount := 0) else b
    case Failure(now) =>
      var count := b.failureCount + 1;
      Breaker(if count >= config.threshold then Open else b.state, count, Some(now))
  }

  function AfterCalls(config: BreakerConfig, calls: seq<Call>): Breaker {
    if calls == [] then INITIAL else Apply(config, AfterCalls(config, calls[..|calls| - 1]), calls[|calls| - 1])
  }

  class CircuitBreaker {
    const config: BreakerConfig
    var state: CircuitState
    var failureCount: nat
    var lastFailure: Option<nat>

    function State(): Breaker
      reads this
    {
      Breaker(state, failureCount, lastFailure)
    }

    constructor (config: BreakerConfig)
      ensures this.config == config && State() == INITIAL
    {
      this.config := config;
      state, failureCount, lastFailure := Closed, 0, None;
    }

    method ShouldProceed(now: nat) returns (allowed: bool)
      modifies this
      ensures allowed == Allows(config, old(State()), now)
      ensures State() == Apply(config, old(State()), Proceed(now))
    {
      match state
      case Closed => allowed := true;
      case HalfOpen => allowed := true;
      case Open =>
        match lastFailure
        case None => allowed := true;
        case Some(last) =>
          allowed := SecondsSince(last, now) >= config.recoverySecs;
          if allowed { state := HalfOpen; }
    }

    method RecordSuccess()
      modifies this
      ensures State() == Apply(config, old(State()), Success)
    {
      if state == HalfOpen {
        state := Closed;
        failureCount := 0;
      }
    }

    method RecordFailure(now: nat)
      modifies this
      ensures State() == Apply(config, old(State()), Failure(now))
    {
      failureCount := failureCount + 1;
      lastFailure := Some(now);
      if failureCount >= config.threshold { state := Open; }
    }
  }

  // What the history since the last close says, without any breaker state.

  function Failures(calls: seq<Call>): nat {
    if calls == [] then 0 else Failures(calls[..|calls| - 1]) + if calls[|calls| - 1].Failure? then 1 else 0
  }

  function LastFailure(calls: seq<Call>): Option<nat> {
    if calls == [] then None
    else if calls[|calls| - 1].Failure? then Some(calls[|calls| - 1].now)
    else LastFailure(calls[..|calls| - 1])
  }

  /** The recovery time, in nanoseconds, has passed since a failure. */
  predicate Recovered(config: BreakerConfig, failedAt: nat, now: nat) {
    config.recoverySecs == 0 || now >= failedAt + config.recoverySecs * 1_000_000_000
  }

  /** Since the last failure, some caller asked after the recovery time. */
  predicate Probed(config: BreakerConfig, calls: seq<Call>) {
    calls != [] &&
    var init := calls[..|calls| - 1];
    match calls[|calls| - 1]
    case Failure(_) => false
    case Success => Probed(config, init)
    case Proceed(now) =>
      Probed(config, init) ||
      (LastFailure(init).Some? && Recovered(config, LastFailure(init).value, now))
  }

  function Phase(config: BreakerConfig, sinceClose: seq<Call>): CircuitState {
    if Failures(sinceClose) < config.threshold then Closed
    else if Probed(config, sinceClose) then HalfOpen
    else Open
  }

  /** The calls since the circuit last closed: a success in the half-open phase closes it. */
  function SinceClose(config: BreakerConfig, calls: seq<Call>): seq<Call> {
    if calls == [] then []
    else
      var before := SinceClose(config, calls[..|calls| - 1]);
      if calls[|calls| - 1] == Success && Phase(config, before) == HalfOpen then [] else before + [calls[|calls| - 1]]
  }

  lemma {:induction false} FailuresHaveALast(calls: seq<Call>)
    ensures Failures(calls) > 0 <==> LastFailure(calls).Some?
  {
    if calls != [] { FailuresHaveALast(calls[..|calls| - 1]); }
  }

  ghost predicate Mirrors(config: BreakerConfig, b: Breaker, since: seq<Call>) {
    && b.state == Phase(config, since) && b.failureCount == Failures(since)
    && (Failures(since) > 0 ==> b.lastFailure == LastFailure(since))
  }

  /** Whole seconds reach the recovery time exactly when the nanoseconds do. */
  lemma WholeSecondsSuffice(config: BreakerConfig, failedAt: nat, now: nat)
    ensures SecondsSince(failedAt, now) >= config.recoverySecs <==> Recovered(config, failedAt, now)
  {
  }

  lemma ApplyKeepsMirror(config: BreakerConfig, b: Breaker, since: seq<Call>, call: Call)
    requires config.threshold >= 1 && Mirrors(config, b, since)
    ensures Mirrors(config, Apply(config, b, call),
      if call == Success && Phase(config, since) == HalfOpen then [] else since + [call])
  {
    if call.Proceed? && LastFailure(since).Some? { WholeSecondsSuffice(config, LastFailure(since).value, call.now); }
    assert (since + [call])[..|since|] == since;
    FailuresHaveALast(since);
    FailuresHaveALast(since + [call]);
  }

  lemma {:induction false} BreakerMirrorsHistory(config: BreakerConfig, calls: seq<Call>)
    requires config.threshold >= 1
    ensures Mirrors(config, AfterCalls(config, calls), SinceClose(config, calls))
  {
    if calls != [] {
      var init := calls[..|calls| - 1];
      BreakerMirrorsHistory(config, init);
      ApplyKeepsMirror(config, AfterCalls(config, init), SinceClose(config, init), calls[|calls| - 1]);
    }
  }

  /**
   With calls atomic and a threshold of at least one: the circuit is closed exactly when fewer
   failures than the threshold happened since it last closed, and a caller is turned away exactly
   when the circuit is open and fewer than the recovery seconds passed since the last failure.
   */
  lemma ClosedAndRejectedExactly(config: BreakerConfig, calls: seq<Call>, now: nat)
    requires config.threshold >= 1
    ensures var b, since := AfterCalls(config, calls), SinceClose(config, calls);
      && (b.state == Closed <==> Failures(since) < config.threshold)
      && (!Allows(config, b, now) <==>
           Failures(since) >= config.threshold && !Probed(config, since) &&
           LastFailure(since).Some? && !Recovered(config, LastFailure(since).value, now))
  {
    var since := SinceClose(config, calls);
    if LastFailure(since).Some? { WholeSecondsSuffice(config, LastFailure(since).value, now); }
    BreakerMirrorsHistory(config, calls);
    FailuresHaveALast(SinceClose(config, calls));
  }

  /** A threshold of zero breaks the law at once: the new breaker is closed with no failure to spare. */
  lemma ThresholdMustBePositive(config: BreakerConfig)
    ensures (forall calls ::
        AfterCalls(config, calls).state == Closed <==> Failures(SinceClose(config, calls)) < config.threshold)
      <==> config.threshold >= 1
  {
    if config.threshold >= 1 {
      forall calls
        ensures AfterCalls(config, calls).state == Closed <==> Failures(SinceClose(config, calls)) < config.threshold
      {
        BreakerMirrorsHistory(config, calls);
      }
    } else {
      assert AfterCalls(config, []).state == Closed && Failures(SinceClose(config, [])) == 0;
    }
  }

  // ---- interleaved tasks -------------------------------------------------------------------

  /** Where a call stands between two steps; a failure reads the clock before it waits to store the time. */
  datatype Task =
    | Asking | SawOpen | Recovering | Answered(allowed: bool, fellThrough: bool)
    | Succeeding | Closing | Resetting
    | Failing | Stamping(count: nat) | Storing(count: nat, at: nat) | Tripping(count: nat)
    | Finished

  datatype World = World(breaker: Breaker, now: nat, tasks: map<nat, Task>)

  datatype Action = Spawn(id: nat, start: Task) | Run(id: nat) | Advance(ns: nat)

  predicate Legal(w: World, a: Action) {
    match a
    case Spawn(id, start) => id !in w.tasks && (start == Asking || start == Succeeding || start == Failing)
    case Run(id) => id in w.tasks
    case Advance(_) => true
  }

  /** One step of one task: an access to the shared fields, or a clock reading. */
  function Access(config: BreakerConfig, b: Breaker, now: nat, t: Task): (Breaker, Task) {
    match t
    case Asking => (b, if b.state == Open then SawOpen else Answered(true, false))
    case SawOpen =>
      (match b.lastFailure
       case None => (b, Answered(true, true))
       case Some(last) =>
         (b, if SecondsSince(last, now) >= config.recoverySecs then Recovering else Answered(false, false)))
    case Recovering => (b.(state := HalfOpen), Answered(true, false))
    case Answered(_, _) => (b, t)
    case Succeeding => (b, if b.state == HalfOpen then Closing else Finished)
    case Closing => (b.(state := Closed), Resetting)
    case Resetting => (b.(failureCount := 0), Finished)
    case Failing => (b.(failureCount := b.failureCount + 1), Stamping(b.failureCount + 1))
    case Stamping(count) => (b, Storing(count, now))
    case Storing(count, at) => (b.(lastFailure := Some(at)), Tripping(count))
    case Tripping(count) => (if count >= config.threshold then b.(state := Open) else b, Finished)
    case Finished => (b, t)
  }

  function Act(config: BreakerConfig, w: World, a: Action): World
    requires Legal(w, a)
  {
    match a
    case Spawn(id, start) => w.(tasks := w.tasks[id := start])
    case Advance(ns) => w.(now := w.now + ns)
    case Run(id) =>
      var (b, t) := Access(config, w.breaker, w.now, w.tasks[id]);
      w.(breaker := b, tasks := w.tasks[id := t])
  }

  const START := World(INITIAL, 0, map[])

  predicate Schedulable(config: BreakerConfig, w: World, schedule: seq<Action>)
    decreases |schedule|
  {
    schedule != [] ==> Legal(w, schedule[0]) && Schedulable(config, Act(config, w, schedule[0]), schedule[1..])
  }

  function Outcome(config: BreakerConfig, w: World, schedule: seq<Action>): World
    requires Schedulable(config, w, schedule)
    decreases |schedule|
  {
    if schedule == [] then w else Outcome(config, Act(config, w, schedule[0]), schedule[1..])
  }

  /** Leaving the closed state, or being about to, means a failure time is on record. */
  ghost predicate Stamped(w: World) {
    && (w.breaker.state != Closed ==> w.breaker.lastFailure.Some?)
    && (forall id | id in w.tasks ::
          match w.tasks[id]
          case SawOpen => w.breaker.lastFailure.Some?
          case Recovering => w.breaker.lastFailure.Some?
          case Tripping(_) => w.breaker.lastFailure.Some?
          case Answered(_, fellThrough) => !fellThrough
          case _ => true)
  }

  lemma ActKeepsStamped(config: BreakerConfig, w: World, a: Action)
    requires Legal(w, a) && Stamped(w)
    ensures Stamped(Act(config, w, a))
  {
  }

  /**
   Under every interleaving of any number of callers at every shared access: off the closed state
   the last failure is always known, and no caller is ever let through for lack of one.
   */
  lemma {:induction false} FallThroughIsUnreachable(config: BreakerConfig, w: World, schedule: seq<Action>)
    requires Stamped(w) && Schedulable(config, w, schedule)
    ensures Stamped(Outcome(config, w, schedule))
    decreases |schedule|
  {
    if schedule != [] {
      ActKeepsStamped(config, w, schedule[0]);
      FallThroughIsUnreachable(config, Act(config, w, schedule[0]), schedule[1..]);
    }
  }

  lemma EveryScheduleFromStart(config: BreakerConfig, schedule: seq<Action>)
    requires Schedulable(config, START, schedule)
    ensures var w := Outcome(config, START, schedule);
      && (w.breaker.state != Closed ==> w.breaker.lastFailure.Some?)
      && (forall id | id in w.tasks && w.tasks[id].Answered? :: !w.tasks[id].fellThrough)
  {
    FallThroughIsUnreachable(config, START, schedule);
  }

  // ---- schedules, one action longer at the end ---------------------------------------------

  lemma {:induction false} OneMoreAction(config: BreakerConfig, w: World, schedule: seq<Action>, a: Action)
    requires Schedulable(config, w, schedule) && Legal(Outcome(config, w, schedule), a)
    ensures Schedulable(config, w, schedule + [a])
    ensures Outcome(config, w, schedule + [a]) == Act(config, Outcome(config, w, schedule), a)
    decreases |schedule|
  {
    if schedule == [] {
      assert schedule + [a] == [a] && [a][1..] == [];
    } else {
      OneMoreAction(config, Act(config, w, schedule[0]), schedule[1..], a);
      assert (schedule + [a])[1..] == schedule[1..] + [a];
    }
  }

  /** Some schedule leads from one world to the other. */
  ghost predicate Leads(config: BreakerConfig, w: World, w': World) {
    exists schedule :: Schedulable(config, w, schedule) && Outcome(config, w, schedule) == w'
  }

  lemma LeadsHere(config: BreakerConfig, w: World)
    ensures Leads(config, w, w)
  {
    assert Schedulable(config, w, []) && Outcome(config, w, []) == w;
  }

  lemma LeadsOn(config: BreakerConfig, w: World, w': World, a: Action)
    requires Leads(config, w, w') && Legal(w', a)
    ensures Leads(config, w, Act(config, w', a))
  {
    var schedule :| Schedulable(config, w, schedule) && Outcome(config, w, schedule) == w';
    OneMoreAction(config, w, schedule, a);
  }

  function StartOf(call: Call): Task {
    match call case Proceed(_) => Asking case Success => Succeeding case Failure(_) => Failing
  }

  function Runs(id: nat, n: nat): seq<Action> { if n == 0 then [] else [Run(id)] + Runs(id, n - 1) }

  /** A call that runs from start to end with nothing in between. */
  function Alone(id: nat, call: Call): seq<Action> { [Spawn(id, StartOf(call))] + Runs(id, 4) }

  function RunAlone(config: BreakerConfig, b: Breaker, now: nat, t: Task, steps: nat): (Breaker, Task)
    decreases steps
  {
    if steps == 0 then (b, t)
    else var (b', t') := Access(config, b, now, t); RunAlone(config, b', now, t', steps - 1)
  }

  lemma {:induction false} RunsAreAlone(config: BreakerConfig, w: World, id: nat, n: nat)
    requires id in w.tasks
    ensures Schedulable(config, w, Runs(id, n))
    ensures var (b, t) := RunAlone(config, w.breaker, w.now, w.tasks[id], n);
      Outcome(config, w, Runs(id, n)) == World(b, w.now, w.tasks[id := t])
    decreases n
  {
    if n == 0 {
      assert w.tasks[id := w.tasks[id]] == w.tasks;
    } else {
      var next := Act(config, w, Run(id));
      RunsAreAlone(config, next, id, n - 1);
      assert Runs(id, n)[0] == Run(id) && Runs(id, n)[1..] == Runs(id, n - 1);
      var (b, t) := RunAlone(config, next.breaker, next.now, next.tasks[id], n - 1);
      assert next.tasks[id := t] == w.tasks[id := t];
    }
  }

  lemma FourStepsDoTheCall(config: BreakerConfig, b: Breaker, call: Call, now: nat)
    requires call.Proceed? || call.Failure? ==> call.now == now
    ensures var (b', t) := RunAlone(config, b, now, StartOf(call), 4);
      && b' == Apply(config, b, call)
      && (if call.Proceed? then t.Answered? && t.allowed == Allows(config, b, now) else t == Finished)
  {
    var (b1, t1) := Access(config, b, now, StartOf(call));
    var (b2, t2) := Access(config, b1, now, t1);
    var (b3, t3) := Access(config, b2, now, t2);
    var (b4, t4) := Access(config, b3, now, t3);
    assert RunAlone(config, b4, now, t4, 0) == (b4, t4);
    assert RunAlone(config, b3, now, t3, 1) == (b4, t4);
    assert RunAlone(config, b2, now, t2, 2) == (b4, t4);
    assert RunAlone(config, b1, now, t1, 3) == (b4, t4);
  }

  /** Such a call, in the middle of any run, does to the breaker exactly what the atomic call does. */
  lemma UninterruptedIsAtomic(config: BreakerConfig, w: World, id: nat, call: Call)
    requires id !in w.tasks && (call.Proceed? || call.Failure? ==> call.now == w.now)
    ensures Schedulable(config, w, Alone(id, call))
    ensures var w' := Outcome(config, w, Alone(id, call));
      && w'.breaker == Apply(config, w.breaker, call) && w'.now == w.now
      && id in w'.tasks && w'.tasks == w.tasks[id := w'.tasks[id]]
      && (if call.Proceed? then w'.tasks[id].Answered? && w'.tasks[id].allowed == Allows(config, w.breaker, w.now)
          else w'.tasks[id] == Finished)
  {
    var spawned := Act(config, w, Spawn(id, StartOf(call)));
    RunsAreAlone(config, spawned, id, 4);
    FourStepsDoTheCall(config, w.breaker, call, w.now);
    assert Alone(id, call)[1..] == Runs(id, 4);
  }

  // ---- the failure count under interleaving ------------------------------------------------

  /** A failure that counted and has still to stamp its time or trip the circuit. */
  predicate Counted(t: Task) { t.Stamping? || t.Storing? || t.Tripping? }

  /** A caller that saw the open circuit and may still move it to half-open. */
  predicate SawItOpen(t: Task) { t.SawOpen? || t.Recovering? }

  /**
   The failure count stands for the state: off the closed state, or where a caller saw it open, it has
   reached the threshold, and no failure on its way counts beyond it.
   */
  ghost predicate CountStands(config: BreakerConfig, w: World) {
    && (w.breaker.state != Closed ==> w.breaker.failureCount >= config.threshold)
    && (forall id | id in w.tasks && Counted(w.tasks[id]) :: 1 <= w.tasks[id].count <= w.breaker.failureCount)
    && (forall id | id in w.tasks && SawItOpen(w.tasks[id]) :: w.breaker.failureCount >= config.threshold)
  }

  /** The action resets the count while the circuit is not closed, or a call that relies on the count is on its way. */
  predicate ResetsTooLate(w: World, a: Action) {
    && a.Run? && a.id in w.tasks && w.tasks[a.id].Resetting?
    && (w.breaker.state != Closed || exists id | id in w.tasks :: Counted(w.tasks[id]) || SawItOpen(w.tasks[id]))
  }

  /** One action keeps the count standing exactly when it is not a late reset. */
  lemma ActKeepsCountIff(config: BreakerConfig, w: World, a: Action)
    requires config.threshold >= 1 && Legal(w, a) && CountStands(config, w)
    ensures CountStands(config, Act(config, w, a)) <==> !ResetsTooLate(w, a)
  {
    var w' := Act(config, w, a);
    if ResetsTooLate(w, a) && w.breaker.state == Closed {
      var id :| id in w.tasks && (Counted(w.tasks[id]) || SawItOpen(w.tasks[id]));
      assert id in w'.tasks && w'.tasks[id] == w.tasks[id];
    }
  }

  ghost predicate AlwaysStands(config: BreakerConfig, w: World, schedule: seq<Action>)
    requires Schedulable(config, w, schedule)
    decreases |schedule|
  {
    CountStands(config, w) && (schedule != [] ==> AlwaysStands(config, Act(config, w, schedule[0]), schedule[1..]))
  }

  predicate NoLateReset(config: BreakerConfig, w: World, schedule: seq<Action>)
    requires Schedulable(config, w, schedule)
    decreases |schedule|
  {
    schedule != [] ==> !ResetsTooLate(w, schedule[0]) && NoLateReset(config, Act(config, w, schedule[0]), schedule[1..])
  }

  /** Over any schedule, the count stands at every step exactly when no reset comes too late. */
  lemma {:induction false} CountStandsIff(config: BreakerConfig, w: World, schedule: seq<Action>)
    requires config.threshold >= 1 && CountStands(config, w) && Schedulable(config, w, schedule)
    ensures AlwaysStands(config, w, schedule) <==> NoLateReset(config, w, schedule)
    ensures NoLateReset(config, w, schedule) ==> CountStands(config, Outcome(config, w, schedule))
    decreases |schedule|
  {
    if schedule != [] {
      var next := Act(config, w, schedule[0]);
      ActKeepsCountIff(config, w, schedule[0]);
      if CountStands(config, next) { CountStandsIff(config, next, schedule[1..]); }
    }
  }

  /** A closed circuit at its threshold is about to trip, or about to be reset. */
  ghost predicate NeverStuckClosed(config: BreakerConfig, w: World) {
    w.breaker.state == Closed && w.breaker.failureCount >= config.threshold ==>
      exists id | id in w.tasks ::
        w.tasks[id].Resetting? || (Counted(w.tasks[id]) && w.tasks[id].count >= config.threshold)
  }

  lemma ActNeverSticks(config: BreakerConfig, w: World, a: Action)
    requires config.threshold >= 1 && Legal(w, a) && NeverStuckClosed(config, w)
    ensures NeverStuckClosed(config, Act(config, w, a))
  {
    var w' := Act(config, w, a);
    if w'.breaker.state == Closed && w'.breaker.failureCount >= config.threshold {
      if w.breaker.state == Closed && w.breaker.failureCount >= config.threshold {
        var id :| id in w.tasks &&
          (w.tasks[id].Resetting? || (Counted(w.tasks[id]) && w.tasks[id].count >= config.threshold));
        assert id in w'.tasks;
      } else {
        assert a.Run? && a.id in w'.tasks;
      }
    }
  }

  lemma {:induction false} NeverSticks(config: BreakerConfig, w: World, schedule: seq<Action>)
    requires config.threshold >= 1 && NeverStuckClosed(config, w) && Schedulable(config, w, schedule)
    ensures NeverStuckClosed(config, Outcome(config, w, schedule))
    decreases |schedule|
  {
    if schedule != [] {
      ActNeverSticks(config, w, schedule[0]);
      NeverSticks(config, Act(config, w, schedule[0]), schedule[1..]);
    }
  }

  // ---- what the callers see of it ----------------------------------------------------------

  /** Off the closed state the count has reached the threshold. */
  predicate OffAtThreshold(config: BreakerConfig, w: World) {
    w.breaker.state != Closed ==> w.breaker.failureCount >= config.threshold
  }

  /** The action resets the count off the closed state, or leaves the closed state on a count below the threshold. */
  predicate TearsApart(config: BreakerConfig, w: World, a: Action) {
    && a.Run? && a.id in w.tasks
    && match w.tasks[a.id]
       case Resetting => w.breaker.state != Closed
       case Tripping(count) => count >= config.threshold > w.breaker.failureCount
       case Recovering => w.breaker.failureCount < config.threshold
       case _ => false
  }

  lemma ActKeepsOffAtThresholdIff(config: BreakerConfig, w: World, a: Action)
    requires config.threshold >= 1 && Legal(w, a) && OffAtThreshold(config, w)
    ensures OffAtThreshold(config, Act(config, w, a)) <==> !TearsApart(config, w, a)
  {
  }

  predicate AlwaysOffAtThreshold(config: BreakerConfig, w: World, schedule: seq<Action>)
    requires Schedulable(config, w, schedule)
    decreases |schedule|
  {
    OffAtThreshold(config, w)
    && (schedule != [] ==> AlwaysOffAtThreshold(config, Act(config, w, schedule[0]), schedule[1..]))
  }

  predicate NeverTearsApart(config: BreakerConfig, w: World, schedule: seq<Action>)
    requires Schedulable(config, w, schedule)
    decreases |schedule|
  {
    schedule != [] ==>
      !TearsApart(config, w, schedule[0]) && NeverTearsApart(config, Act(config, w, schedule[0]), schedule[1..])
  }

  /**
   Over any schedule, the circuit is off the closed state only with the count at the threshold, at
   every step, exactly when no reset finds it off and nothing takes it off on a lower count.
   */
  lemma {:induction false} OffAtThresholdIff(config: BreakerConfig, w: World, schedule: seq<Action>)
    requires config.threshold >= 1 && OffAtThreshold(config, w) && Schedulable(config, w, schedule)
    ensures AlwaysOffAtThreshold(config, w, schedule) <==> NeverTearsApart(config, w, schedule)
    ensures NeverTearsApart(config, w, schedule) ==> OffAtThreshold(config, Outcome(config, w, schedule))
    decreases |schedule|
  {
    if schedule != [] {
      var next := Act(config, w, schedule[0]);
      ActKeepsOffAtThresholdIff(config, w, schedule[0]);
      if OffAtThreshold(config, next) { OffAtThresholdIff(config, next, schedule[1..]); }
    }
  }

  /** A schedule without late resets is one that never tears state and count apart. */
  lemma {:induction false} NoLateResetNeverTears(config: BreakerConfig, w: World, schedule: seq<Action>)
    requires config.threshold >= 1 && CountStands(config, w) && Schedulable(config, w, schedule)
    requires NoLateReset(config, w, schedule)
    ensures NeverTearsApart(config, w, schedule)
    decreases |schedule|
  {
    if schedule != [] {
      ActKeepsCountIff(config, w, schedule[0]);
      ActKeepsOffAtThresholdIff(config, w, schedule[0]);
      NoLateResetNeverTears(config, Act(config, w, schedule[0]), schedule[1..]);
    }
  }

  predicate Quiet(w: World) { forall id | id in w.tasks :: w.tasks[id].Answered? || w.tasks[id].Finished? }

  /**
   From a new breaker, over any schedule that never tears state and count apart: once no call is on
   its way, the circuit is closed exactly when the failure count is below the threshold.
   */
  lemma ClosedWhenQuietIff(config: BreakerConfig, schedule: seq<Action>)
    requires config.threshold >= 1 && Schedulable(config, START, schedule) && NeverTearsApart(config, START, schedule)
    requires Quiet(Outcome(config, START, schedule))
    ensures var b := Outcome(config, START, schedule).breaker; b.state == Closed <==> b.failureCount < config.threshold
  {
    OffAtThresholdIff(config, START, schedule);
    NeverSticks(config, START, schedule);
  }

  // ---- a schedule on which the count is lost -----------------------------------------------

  /** Atomic failures, one after the other, lead to the open circuit. */
  lemma {:induction false} FailuresLead(config: BreakerConfig, n: nat) returns (w: World)
    requires n <= config.threshold
    ensures Leads(config, START, w) && Quiet(w) && (forall id | id in w.tasks :: id < n) && w.now == 0
    ensures w.breaker.failureCount == n && (n > 0 ==> w.breaker.lastFailure == Some(0))
    ensures n > 0 && n == config.threshold ==> w.breaker.state == Open
  {
    if n == 0 {
      LeadsHere(config, START);
      return START;
    }
    var before := FailuresLead(config, n - 1);
    UninterruptedIsAtomic(config, before, n - 1, Failure(0));
    w := Outcome(config, before, Alone(n - 1, Failure(0)));
    LeadsThrough(config, START, before, Alone(n - 1, Failure(0)));
  }

  lemma {:induction false} LeadsThrough(config: BreakerConfig, w: World, w': World, schedule: seq<Action>)
    requires Leads(config, w, w') && Schedulable(config, w', schedule)
    ensures Leads(config, w, Outcome(config, w', schedule))
    decreases |schedule|
  {
    if schedule != [] {
      LeadsOn(config, w, w', schedule[0]);
      LeadsThrough(config, w, Act(config, w', schedule[0]), schedule[1..]);
    }
  }

  /** A half-open circuit, at its threshold and with no call on its way, is reached from the new breaker. */
  lemma HalfOpenIsReached(config: BreakerConfig) returns (w: World)
    requires config.threshold >= 1
    ensures Leads(config, START, w) && Quiet(w) && w.breaker.state == HalfOpen &&
      w.breaker.failureCount == config.threshold
    ensures forall id | id in w.tasks :: id <= config.threshold
  {
    var failed := FailuresLead(config, config.threshold);
    var wait := config.recoverySecs * 1_000_000_000;
    LeadsOn(config, START, failed, Advance(wait));
    var later := Act(config, failed, Advance(wait));
    UninterruptedIsAtomic(config, later, config.threshold, Proceed(wait));
    LeadsThrough(config, START, later, Alone(config.threshold, Proceed(wait)));
    w := Outcome(config, later, Alone(config.threshold, Proceed(wait)));
  }

  /**
   Late resets happen: whatever the configuration, some schedule from the new breaker ends with no
   call on its way and the circuit open with no failure counted. A success that found the circuit
   half-open resets the count only after a failure has counted.
   */
  lemma LateTripLosesTheCount(config: BreakerConfig) returns (w: World)
    requires config.threshold >= 1
    ensures Leads(config, START, w) && Quiet(w) && w.breaker.state == Open && w.breaker.failureCount == 0
  {
    var w0 := HalfOpenIsReached(config);
    var success, failure := config.threshold + 1, config.threshold + 2;
    var w1 := Overtaken(config, w0, success, failure);
    var w2 := Next(config, w1, Run(success));
    var w3 := Next(config, w2, Run(success));
    w := Next(config, w3, Run(failure));
    assert w.tasks == w0.tasks[success := Finished][failure := Finished];
  }

  /** A success finds the circuit half-open, and before it closes it a failure counts and stores its time. */
  lemma Overtaken(config: BreakerConfig, w: World, success: nat, failure: nat) returns (w': World)
    requires Leads(config, START, w) && w.breaker.state == HalfOpen
    requires success != failure && success !in w.tasks && failure !in w.tasks
    ensures Leads(config, START, w') && w'.breaker.state == HalfOpen
    ensures w'.tasks == w.tasks[success := Closing][failure := Tripping(w.breaker.failureCount + 1)]
  {
    var w1 := Next(config, w, Spawn(success, Succeeding));
    var w2 := Next(config, w1, Run(success));
    assert w2 == w.(tasks := w.tasks[success := Closing]);
    var w3 := Next(config, w2, Spawn(failure, Failing));
    var w4 := Next(config, w3, Run(failure));
    var w5 := Next(config, w4, Run(failure));
    w' := Next(config, w5, Run(failure));
  }

  lemma Next(config: BreakerConfig, w: World, a: Action) returns (w': World)
    requires Leads(config, START, w) && Legal(w, a)
    ensures Leads(config, START, w') && w' == Act(config, w, a)
  {
    w' := Act(config, w, a);
    LeadsOn(config, START, w, a);
  }
}
