/**
 Event counters whose per-component half is updated by spawned tasks that run later, in any order.
 */
module ReliabilityMetrics {
  import opened Wrappers

  datatype Kind = Processed | Dropped | Errors

  datatype ComponentMetrics = ComponentMetrics(processed: nat, dropped: nat, errors: nat, lastEventTime: Option<int>)

  /** A spawned update of one component's metrics. */
  datatype Task = Task(component: string, kind: Kind, count: nat)

  const NO_METRICS := ComponentMetrics(0, 0, 0, None)

  function Amount(c: ComponentMetrics, kind: Kind): nat {
    match kind case Processed => c.processed case Dropped => c.dropped case Errors => c.errors
  }

  function Metrics(metrics: map<string, ComponentMetrics>, component: string): ComponentMetrics {
    if component in metrics then metrics[component] else NO_METRICS
  }

  function Performed(metrics: map<string, ComponentMetrics>, t: Task, now: int): map<string, ComponentMetrics> {
    var cm := Metrics(metrics, t.component);
    metrics[t.component :=
      match t.kind
      case Processed => cm.(processed := cm.processed + t.count, lastEventTime := Some(now))
      case Dropped => cm.(dropped := cm.dropped + t.count)
      case Errors => cm.(errors := cm.errors + t.count)]
  }

  datatype Books = Books(metrics: map<string, ComponentMetrics>, totalProcessed: nat, totalDropped: nat,
                         pending: seq<Task>)

  const EMPTY := Books(map[], 0, 0, [])

  datatype Action =
    | RecordProcessed(component: string)
    | RecordDropped(component: string, count: nat)
    | RecordError(component: string)
    | RunTask(i: nat, now: int)

  function Spawned(a: Action): seq<Task> {
    match a
    case RecordProcessed(c) => [Task(c, Processed, 1)]
    case RecordDropped(c, n) => [Task(c, Dropped, n)]
    case RecordError(c) => [Task(c, Errors, 1)]
    case RunTask(_, _) => []
  }

  /** Running needs a task to run; with none at that place nothing happens. */
  predicate Legal(b: Books, a: Action) { a.RunTask? ==> a.i < |b.pending| }

  function Act(b: Books, a: Action): Books {
    var spawned := b.(pending := b.pending + Spawned(a));
    match a
    case RecordProcessed(_) => spawned.(totalProcessed := b.totalProcessed + 1)
    case RecordDropped(_, n) => spawned.(totalDropped := b.totalDropped + n)
    case RecordError(_) => spawned
    case RunTask(i, now) =>
      if !Legal(b, a) then b
      else b.(metrics := Performed(b.metrics, b.pending[i], now), pending := Without(b.pending, i))
  }

  class Collector {
    var metrics: map<string, ComponentMetrics>
    var totalProcessed: nat
    var totalDropped: nat
    /** Spawned tasks that have not run yet. */
    var pending: seq<Task>

    function State(): Books
      reads this
    {
      Books(metrics, totalProcessed, totalDropped, pending)
    }

    constructor ()
      ensures State() == EMPTY
    {
      metrics, totalProcessed, totalDropped, pending := map[], 0, 0, [];
    }

    method RecordProcessedEvent(component: string)
      modifies this
      ensures State() == Act(old(State()), RecordProcessed(component))
    {
      totalProcessed := totalProcessed + 1;
      pending := pending + [Task(component, Processed, 1)];
    }

    method RecordDroppedEvents(component: string, count: nat)
      modifies this
      ensures State() == Act(old(State()), RecordDropped(component, count))
    {
      totalDropped := totalDropped + count;
      pending := pending + [Task(component, Dropped, count)];
    }

    method RecordErrorEvent(component: string)
      modifies this
      ensures State() == Act(old(State()), RecordError(component))
    {
      pending := pending + [Task(component, Errors, 1)];
    }

    /** The runtime picks any spawned task; under the write lock it updates one entry, made on demand. */
    method RunSpawned(i: nat, now: int)
      requires i < |pending|
      modifies this
      ensures State() == Act(old(State()), RunTask(i, now))
    {
      var t := pending[i];
      var cm := if t.component in metrics then metrics[t.component] else NO_METRICS;
      match t.kind {
        case Processed => cm := cm.(processed := cm.processed + t.count, lastEventTime := Some(now));
        case Dropped => cm := cm.(dropped := cm.dropped + t.count);
        case Errors => cm := cm.(errors := cm.errors + t.count);
      }
      metrics := metrics[t.component := cm];
      pending := pending[..i] + pending[i + 1..];
    }
  }

  // ---- sums --------------------------------------------------------------------------------

  /** Contribution of tasks to one kind: of one component, or of all. */
  function Owed(tasks: seq<Task>, kind: Kind, components: iset<string>): nat {
    if tasks == [] then 0
    else
      var t := tasks[|tasks| - 1];
      Owed(tasks[..|tasks| - 1], kind, components) + if t.kind == kind && t.component in components then t.count else 0
  }

  lemma {:induction false} OwedAppend(a: seq<Task>, b: seq<Task>, kind: Kind, components: iset<string>)
    ensures Owed(a + b, kind, components) == Owed(a, kind, components) + Owed(b, kind, components)
  {
    if b == [] {
      assert a + b == a;
    } else {
      assert (a + b)[..|a + b| - 1] == a + b[..|b| - 1];
      OwedAppend(a, b[..|b| - 1], kind, components);
    }
  }

  lemma OwedOne(t: Task, kind: Kind, components: iset<string>)
    ensures Owed([t], kind, components) == if t.kind == kind && t.component in components then t.count else 0
  {
    assert [t][..0] == [];
  }

  lemma OwedWithout(tasks: seq<Task>, i: nat, kind: Kind, components: iset<string>)
    requires i < |tasks|
    ensures Owed(tasks, kind, components) ==
      Owed(Without(tasks, i), kind, components) + Owed([tasks[i]], kind, components)
  {
    assert tasks == tasks[..i] + [tasks[i]] + tasks[i + 1..];
    OwedAppend(tasks[..i] + [tasks[i]], tasks[i + 1..], kind, components);
    OwedAppend(tasks[..i], [tasks[i]], kind, components);
    OwedAppend(tasks[..i], tasks[i + 1..], kind, components);
  }

  ghost function Total(metrics: map<string, ComponentMetrics>, kind: Kind, keys: set<string>): nat
    decreases |keys|
  {
    if keys == {} then 0
    else var k :| k in keys; Amount(Metrics(metrics, k), kind) + Total(metrics, kind, keys - {k})
  }

  lemma {:induction false} TotalTakeOut(metrics: map<string, ComponentMetrics>, kind: Kind, keys: set<string>,
                                        k: string)
    requires k in keys
    ensures Total(metrics, kind, keys) == Amount(Metrics(metrics, k), kind) + Total(metrics, kind, keys - {k})
    decreases |keys|
  {
    var first :| first in keys &&
      Total(metrics, kind, keys) == Amount(Metrics(metrics, first), kind) + Total(metrics, kind, keys - {first});
    if first != k {
      TotalTakeOut(metrics, kind, keys - {first}, k);
      TotalTakeOut(metrics, kind, keys - {k}, first);
      assert keys - {first} - {k} == keys - {k} - {first};
    }
  }

  lemma {:induction false} TotalIgnores(m: map<string, ComponentMetrics>, m': map<string, ComponentMetrics>,
                                        kind: Kind, keys: set<string>)
    requires forall k | k in keys :: Metrics(m, k) == Metrics(m', k)
    ensures Total(m, kind, keys) == Total(m', kind, keys)
    decreases |keys|
  {
    if k :| k in keys {
      TotalTakeOut(m, kind, keys, k);
      TotalTakeOut(m', kind, keys, k);
      TotalIgnores(m, m', kind, keys - {k});
    }
  }

  /** Running a task adds its count to the sum over all components. */
  lemma PerformedTotal(metrics: map<string, ComponentMetrics>, t: Task, now: int, kind: Kind)
    ensures Total(Performed(metrics, t, now), kind, Performed(metrics, t, now).Keys) ==
      Total(metrics, kind, metrics.Keys) + if t.kind == kind then t.count else 0
  {
    var after, c := Performed(metrics, t, now), t.component;
    TotalTakeOut(after, kind, after.Keys, c);
    TotalIgnores(after, metrics, kind, after.Keys - {c});
    if c in metrics {
      TotalTakeOut(metrics, kind, metrics.Keys, c);
      assert after.Keys - {c} == metrics.Keys - {c};
    } else {
      assert after.Keys - {c} == metrics.Keys;
    }
  }

  // ---- conservation ------------------------------------------------------------------------

  function After(schedule: seq<Action>): Books {
    if schedule == [] then EMPTY else Act(After(schedule[..|schedule| - 1]), schedule[|schedule| - 1])
  }

  /** Every task a schedule spawned, run or not. */
  function AllSpawned(schedule: seq<Action>): seq<Task> {
    if schedule == [] then [] else AllSpawned(schedule[..|schedule| - 1]) + Spawned(schedule[|schedule| - 1])
  }

  ghost const EVERYONE: iset<string> := iset c: string | true

  /** What the components show in all, plus what pending tasks owe. */
  ghost function Accounted(b: Books, kind: Kind): nat {
    Total(b.metrics, kind, b.metrics.Keys) + Owed(b.pending, kind, EVERYONE)
  }

  lemma ActAccounts(b: Books, a: Action, kind: Kind)
    ensures Accounted(Act(b, a), kind) == Accounted(b, kind) + Owed(Spawned(a), kind, EVERYONE)
  {
    if !a.RunTask? {
      OwedAppend(b.pending, Spawned(a), kind, EVERYONE);
    } else if Legal(b, a) {
      PerformedTotal(b.metrics, b.pending[a.i], a.now, kind);
      OwedWithout(b.pending, a.i, kind, EVERYONE);
      OwedOne(b.pending[a.i], kind, EVERYONE);
    }
  }

  ghost predicate Balanced(b: Books) {
    b.totalProcessed == Accounted(b, Processed) && b.totalDropped == Accounted(b, Dropped)
  }

  lemma ActBalances(b: Books, a: Action)
    requires Balanced(b)
    ensures Balanced(Act(b, a))
  {
    ActAccounts(b, a, Processed);
    ActAccounts(b, a, Dropped);
    if !a.RunTask? {
      OwedOne(Spawned(a)[0], Processed, EVERYONE);
      OwedOne(Spawned(a)[0], Dropped, EVERYONE);
    }
  }

  /**
   At every step of every schedule the totals are the sums over the components plus what the tasks
   not yet run still owe; so they agree once no task is left.
   */
  lemma {:induction false} TotalsBalance(schedule: seq<Action>)
    ensures Balanced(After(schedule))
  {
    if schedule == [] {
      assert EMPTY.metrics.Keys == {};
    } else {
      TotalsBalance(schedule[..|schedule| - 1]);
      ActBalances(After(schedule[..|schedule| - 1]), schedule[|schedule| - 1]);
    }
  }

  /** What one component shows, plus what its own pending tasks owe. */
  ghost function AccountedFor(b: Books, component: string, kind: Kind): nat {
    Amount(Metrics(b.metrics, component), kind) + Owed(b.pending, kind, iset{component})
  }

  lemma ActAccountsFor(b: Books, a: Action, component: string, kind: Kind)
    ensures AccountedFor(Act(b, a), component, kind) ==
      AccountedFor(b, component, kind) + Owed(Spawned(a), kind, iset{component})
  {
    if !a.RunTask? {
      OwedAppend(b.pending, Spawned(a), kind, iset{component});
    } else if Legal(b, a) {
      OwedWithout(b.pending, a.i, kind, iset{component});
      OwedOne(b.pending[a.i], kind, iset{component});
    }
  }

  /**
   Component by component, what was recorded is what the component shows plus what its own pending
   tasks owe, whatever the order the tasks ran in.
   */
  lemma {:induction false} ComponentsBalance(schedule: seq<Action>, component: string, kind: Kind)
    ensures Owed(AllSpawned(schedule), kind, iset{component}) == AccountedFor(After(schedule), component, kind)
  {
    if schedule != [] {
      var init, a := schedule[..|schedule| - 1], schedule[|schedule| - 1];
      ComponentsBalance(init, component, kind);
      OwedAppend(AllSpawned(init), Spawned(a), kind, iset{component});
      ActAccountsFor(After(init), a, component, kind);
    }
  }

  /** At quiescence each component shows exactly what was recorded for it, and the totals are their sums. */
  lemma QuiescentBooksAgree(schedule: seq<Action>, component: string, kind: Kind)
    requires After(schedule).pending == []
    ensures Amount(Metrics(After(schedule).metrics, component), kind) ==
      Owed(AllSpawned(schedule), kind, iset{component})
    ensures After(schedule).totalProcessed == Total(After(schedule).metrics, Processed, After(schedule).metrics.Keys)
    ensures After(schedule).totalDropped == Total(After(schedule).metrics, Dropped, After(schedule).metrics.Keys)
  {
    TotalsBalance(schedule);
    ComponentsBalance(schedule, component, kind);
  }

  /** A component carries a time of its last event exactly when it shows one processed. */
  ghost predicate Timed(b: Books) {
    && (forall t | t in b.pending && t.kind == Processed :: t.count == 1)
    && (forall c :: Metrics(b.metrics, c).lastEventTime.Some? <==> Metrics(b.metrics, c).processed > 0)
  }

  lemma {:induction false} TimedWhenProcessed(schedule: seq<Action>)
    ensures Timed(After(schedule))
  {
    if schedule != [] {
      TimedWhenProcessed(schedule[..|schedule| - 1]);
      ActKeepsTimed(After(schedule[..|schedule| - 1]), schedule[|schedule| - 1]);
    }
  }

  lemma ActKeepsTimed(b: Books, a: Action)
    requires Timed(b)
    ensures Timed(Act(b, a))
  {
    if a.RunTask? && Legal(b, a) {
      assert b.pending[a.i] in b.pending;
      forall t | t in Without(b.pending, a.i) ensures t in b.pending { }
    }
  }

  /** The time of the last processed event whose task ran for the component. */
  function LastProcessed(schedule: seq<Action>, component: string): Option<int> {
    if schedule == [] then None
    else
      var init, a := schedule[..|schedule| - 1], schedule[|schedule| - 1];
      var b := After(init);
      if a.RunTask? && a.i < |b.pending| && b.pending[a.i].component == component && b.pending[a.i].kind == Processed
      then Some(a.now)
      else LastProcessed(init, component)
  }

  /** The last-event time a component carries is when its last processed event's task ran. */
  lemma {:induction false} TimeIsOfLastProcessed(schedule: seq<Action>, component: string)
    ensures Metrics(After(schedule).metrics, component).lastEventTime == LastProcessed(schedule, component)
  {
    if schedule != [] { TimeIsOfLastProcessed(schedule[..|schedule| - 1], component); }
  }
}
