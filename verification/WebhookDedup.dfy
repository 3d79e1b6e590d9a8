/**
 The webhook manager's deduplication cache, bounded in size and time, against the unbounded log of
 every alert it ever sent. Clock readings are nanoseconds.
 */
module WebhookDedup {
  import opened Wrappers

  const MAX_DEDUP_ENTRIES := 10_000
  const DEDUP_TTL := 60_000_000_000

  predicate Fresh(t: nat, now: nat) { Since(t, now) < DEDUP_TTL }

  predicate IsDuplicate(cache: map<string, nat>, path: string, now: nat) {
    path in cache && Fresh(cache[path], now)
  }

  predicate IsOldest(cache: map<string, nat>, victim: string) {
    victim in cache && forall k | k in cache :: cache[victim] <= cache[k]
  }

  predicate Full(cache: map<string, nat>, path: string) { |cache| >= MAX_DEDUP_ENTRIES && path !in cache }

  /** `mark_sent`: evict the oldest entry when full, insert at `markedAt`, drop what expired by `cleanedAt`. */
  function Mark(cache: map<string, nat>, path: string, markedAt: nat, cleanedAt: nat, victim: string)
    : map<string, nat>
  {
    var kept := (if Full(cache, path) then cache - {victim} else cache)[path := markedAt];
    map k | k in kept && Fresh(kept[k], cleanedAt) :: kept[k]
  }

  /** An alert that was broadcast. */
  datatype Sent = Sent(path: string, at: nat)

  /** One call of `send_alert`: its three clock readings and, if it evicts, the entry it picks. */
  datatype Send = Send(path: string, checkedAt: nat, markedAt: nat, cleanedAt: nat, victim: string)

  datatype Manager = Manager(cache: map<string, nat>, log: seq<Sent>)

  function Step(m: Manager, s: Send): Manager {
    if IsDuplicate(m.cache, s.path, s.checkedAt) then m
    else Manager(Mark(m.cache, s.path, s.markedAt, s.cleanedAt, s.victim), m.log + [Sent(s.path, s.markedAt)])
  }

  function After(sends: seq<Send>): Manager {
    if sends == [] then Manager(map[], []) else Step(After(sends[..|sends| - 1]), sends[|sends| - 1])
  }

  /** The eviction picks an entry of least time, whichever the map's iteration order offers. */
  predicate PicksOldest(m: Manager, s: Send) {
    Full(m.cache, s.path) ==> IsOldest(m.cache, s.victim)
  }

  predicate Faithful(sends: seq<Send>) {
    forall n | 0 <= n < |sends| :: PicksOldest(After(sends[..n]), sends[n])
  }

  class WebhookManager {
    var dedupCache: map<string, nat>
    /** Every alert broadcast so far. */
    ghost var log: seq<Sent>

    ghost function State(): Manager
      reads this
    {
      Manager(dedupCache, log)
    }

    constructor ()
      ensures State() == After([])
    {
      dedupCache, log := map[], [];
    }

    method CheckDuplicate(path: string, now: nat) returns (duplicate: bool)
      ensures duplicate <==> IsDuplicate(dedupCache, path, now)
    {
      if path in dedupCache && Since(dedupCache[path], now) < DEDUP_TTL {
        return true;
      }
      return false;
    }

    method MarkSent(path: string, markedAt: nat, cleanedAt: nat) returns (ghost victim: string)
      modifies `dedupCache
      ensures Full(old(dedupCache), path) ==> IsOldest(old(dedupCache), victim)
      ensures dedupCache == Mark(old(dedupCache), path, markedAt, cleanedAt, victim)
    {
      victim := path;
      if |dedupCache| >= MAX_DEDUP_ENTRIES && path !in dedupCache {
        OldestExists(dedupCache);
        var oldest :| IsOldest(dedupCache, oldest);
        victim := oldest;
        dedupCache := dedupCache - {oldest};
      }
      dedupCache := dedupCache[path := markedAt];
      dedupCache := map k | k in dedupCache && Since(dedupCache[k], cleanedAt) < DEDUP_TTL :: dedupCache[k];
    }

    method SendAlert(path: string, checkedAt: nat, markedAt: nat, cleanedAt: nat)
      returns (broadcast: bool, ghost victim: string)
      modifies this
      ensures PicksOldest(old(State()), Send(path, checkedAt, markedAt, cleanedAt, victim))
      ensures State() == Step(old(State()), Send(path, checkedAt, markedAt, cleanedAt, victim))
      ensures broadcast <==> log == old(log) + [Sent(path, markedAt)]
    {
      victim := AnOldest(dedupCache, path);
      var duplicate := CheckDuplicate(path, checkedAt);
      if duplicate {
        return false, victim;
      }
      victim := MarkSent(path, markedAt, cleanedAt);
      log := log + [Sent(path, markedAt)];
      broadcast := true;
    }
  }

  lemma AnOldest(cache: map<string, nat>, path: string) returns (victim: string)
    ensures Full(cache, path) ==> IsOldest(cache, victim)
  {
    victim := path;
    if Full(cache, path) {
      OldestExists(cache);
      victim :| IsOldest(cache, victim);
    }
  }

  lemma {:induction false} OldestExists(cache: map<string, nat>)
    requires |cache| > 0
    ensures exists victim :: IsOldest(cache, victim)
    decreases |cache|
  {
    var k :| k in cache.Keys;
    var rest := cache - {k};
    if rest == map[] {
      assert forall j | j in cache :: j == k by { assert forall j | j in cache && j != k :: j in rest; }
      assert IsOldest(cache, k);
    } else {
      assert |rest| > 0 && |rest.Keys| < |cache.Keys| by { assert rest.Keys == cache.Keys - {k}; }
      OldestExists(rest);
      var v :| IsOldest(rest, v);
      assert IsOldest(cache, if cache[k] <= cache[v] then k else v) by {
        assert forall j | j in cache && j != k :: j in rest;
      }
    }
  }

  // ---- what the log says -------------------------------------------------------------------

  function LastSent(log: seq<Sent>, path: string): Option<nat> {
    if log == [] then None
    else if log[|log| - 1].path == path then Some(log[|log| - 1].at)
    else LastSent(log[..|log| - 1], path)
  }

  predicate LastSentFresh(log: seq<Sent>, path: string, now: nat) {
    match LastSent(log, path) case None => false case Some(t) => Fresh(t, now)
  }

  /** The path was sent less than the time-to-live ago. */
  predicate RecentlySent(log: seq<Sent>, path: string, now: nat) {
    exists i | 0 <= i < |log| :: log[i].path == path && now < log[i].at + 60_000_000_000
  }

  lemma {:induction false} LastSentIsSent(log: seq<Sent>, path: string) returns (i: nat)
    requires LastSent(log, path).Some?
    ensures i < |log| && log[i] == Sent(path, LastSent(log, path).value)
    ensures forall j | i < j < |log| :: log[j].path != path
  {
    i := |log| - 1;
    if log[i].path != path { i := LastSentIsSent(log[..i], path); }
  }

  lemma {:induction false} SentHasLast(log: seq<Sent>, i: nat)
    requires i < |log|
    ensures LastSent(log, log[i].path).Some?
  {
    if i < |log| - 1 { SentHasLast(log[..|log| - 1], i); }
  }

  /** The cache holds nothing but last sending times. */
  ghost predicate Truthful(m: Manager) {
    forall p | p in m.cache :: LastSent(m.log, p) == Some(m.cache[p])
  }

  /** The cache still holds every path sent within the time-to-live. */
  ghost predicate Complete(m: Manager, now: nat) {
    forall p :: LastSentFresh(m.log, p, now) ==> p in m.cache
  }

  lemma LastSentOneMore(log: seq<Sent>, s: Sent, path: string)
    ensures LastSent(log + [s], path) == if s.path == path then Some(s.at) else LastSent(log, path)
  {
    assert (log + [s])[..|log|] == log;
  }

  lemma StepKeepsTruthful(m: Manager, s: Send)
    requires Truthful(m) && |m.cache| <= MAX_DEDUP_ENTRIES && PicksOldest(m, s)
    ensures Truthful(Step(m, s)) && |Step(m, s).cache| <= MAX_DEDUP_ENTRIES
  {
    forall p { LastSentOneMore(m.log, Sent(s.path, s.markedAt), p); }
    MarkStaysBounded(m, s);
  }

  lemma MarkStaysBounded(m: Manager, s: Send)
    requires |m.cache| <= MAX_DEDUP_ENTRIES && PicksOldest(m, s)
    ensures |Mark(m.cache, s.path, s.markedAt, s.cleanedAt, s.victim)| <= MAX_DEDUP_ENTRIES
  {
    var evicted := if Full(m.cache, s.path) then m.cache - {s.victim} else m.cache;
    var kept := evicted[s.path := s.markedAt];
    assert |kept| <= MAX_DEDUP_ENTRIES by {
      assert kept.Keys == evicted.Keys + {s.path};
      assert evicted.Keys == if Full(m.cache, s.path) then m.cache.Keys - {s.victim} else m.cache.Keys;
      if s.path in evicted { assert kept.Keys == evicted.Keys; }
    }
    var marked := Mark(m.cache, s.path, s.markedAt, s.cleanedAt, s.victim);
    assert marked.Keys <= kept.Keys;
    SubsetSize(marked.Keys, kept.Keys);
  }

  lemma SubsetSize<T>(a: set<T>, b: set<T>)
    requires a <= b
    ensures |a| <= |b|
  {
    assert b == a + (b - a);
  }

  /** Whatever the clock and the load: the cache is truthful and never outgrows its bound. */
  lemma {:induction false} AlwaysTruthfulAndBounded(sends: seq<Send>)
    requires Faithful(sends)
    ensures Truthful(After(sends)) && |After(sends).cache| <= 10_000
  {
    if sends != [] {
      var n := |sends| - 1;
      assert forall i | 0 <= i < n :: sends[..n][..i] == sends[..i];
      AlwaysTruthfulAndBounded(sends[..n]);
      StepKeepsTruthful(After(sends[..n]), sends[n]);
    }
  }

  /** An alert is suppressed only if its path was sent within the time-to-live. */
  lemma SuppressesOnlyRecent(sends: seq<Send>, path: string, now: nat)
    requires Faithful(sends) && IsDuplicate(After(sends).cache, path, now)
    ensures RecentlySent(After(sends).log, path, now)
  {
    AlwaysTruthfulAndBounded(sends);
    var i := LastSentIsSent(After(sends).log, path);
  }

  // ---- when the answer is exact ------------------------------------------------------------

  /** Marking evicts an entry that has not expired. */
  predicate EvictsFresh(cache: map<string, nat>, path: string, victim: string, now: nat) {
    Full(cache, path) && victim in cache && Fresh(cache[victim], now)
  }

  /** Marking keeps the cache complete exactly when it does not evict an entry that is still fresh. */
  lemma MarkKeepsCompleteIff(m: Manager, s: Send)
    requires Truthful(m) && Complete(m, s.markedAt) && PicksOldest(m, s) && s.markedAt <= s.cleanedAt
    requires !IsDuplicate(m.cache, s.path, s.checkedAt)
    ensures Complete(Step(m, s), s.cleanedAt) <==> !EvictsFresh(m.cache, s.path, s.victim, s.cleanedAt)
  {
    var m' := Step(m, s);
    forall p ensures LastSentFresh(m'.log, p, s.cleanedAt) ==>
                     p in m'.cache || (p == s.victim && EvictsFresh(m.cache, s.path, s.victim, s.cleanedAt)) {
      LastSentOneMore(m.log, Sent(s.path, s.markedAt), p);
      if LastSentFresh(m'.log, p, s.cleanedAt) && p != s.path {
        assert LastSentFresh(m.log, p, s.markedAt);
      }
    }
    if EvictsFresh(m.cache, s.path, s.victim, s.cleanedAt) {
      LastSentOneMore(m.log, Sent(s.path, s.markedAt), s.victim);
      assert LastSentFresh(m'.log, s.victim, s.cleanedAt) && s.victim !in m'.cache;
    }
  }

  /** One caller at a time with a clock that does not go back. */
  predicate Sequential(sends: seq<Send>) {
    && (forall n | 0 <= n < |sends| :: sends[n].checkedAt <= sends[n].markedAt <= sends[n].cleanedAt)
    && (forall n | 0 < n < |sends| :: sends[n - 1].cleanedAt <= sends[n].checkedAt)
  }

  function Clock(sends: seq<Send>): nat { if sends == [] then 0 else sends[|sends| - 1].cleanedAt }

  /** The distinct paths alerted within the time-to-live before `now`. */
  function RecentPaths(log: seq<Sent>, now: nat): set<string> {
    set i | 0 <= i < |log| && now < log[i].at + 60_000_000_000 :: log[i].path
  }

  /** No window of the time-to-live that ends with an alert holds more distinct paths than the cache. */
  predicate WithinCapacity(log: seq<Sent>) {
    forall n | 0 < n <= |log| :: |RecentPaths(log[..n], log[n - 1].at)| <= 10_000
  }

  /** Evicting a fresh entry takes more distinct fresh paths than the cache holds. */
  lemma EvictingFreshNeedsMorePaths(m: Manager, s: Send)
    requires Truthful(m) && PicksOldest(m, s) && s.markedAt <= s.cleanedAt
    requires EvictsFresh(m.cache, s.path, s.victim, s.cleanedAt)
    ensures |RecentPaths(m.log + [Sent(s.path, s.markedAt)], s.markedAt)| > 10_000
  {
    var log := m.log + [Sent(s.path, s.markedAt)];
    var recent := RecentPaths(log, s.markedAt);
    assert log[|m.log|].path in recent;
    forall p | p in m.cache ensures p in recent {
      var i := LastSentIsSent(m.log, p);
      assert log[i].path in recent;
    }
    SubsetSize(m.cache.Keys + {s.path}, recent);
    assert |m.cache.Keys + {s.path}| == |m.cache| + 1;
  }

  /** The conditions on a run hold of the run without its last call. */
  lemma RunWithoutLast(sends: seq<Send>)
    requires sends != [] && Faithful(sends) && Sequential(sends) && WithinCapacity(After(sends).log)
    ensures var n := |sends| - 1; var init, s := sends[..n], sends[n];
      && Faithful(init) && Sequential(init) && WithinCapacity(After(init).log)
      && Clock(init) <= s.checkedAt <= s.markedAt <= s.cleanedAt && PicksOldest(After(init), s)
      && After(sends) == Step(After(init), s)
  {
    var n := |sends| - 1;
    var init := sends[..n];
    assert sends[..n] == init;
    FaithfulPrefix(sends);
    CapacityOfPrefix(After(init).log, After(sends).log);
  }

  lemma FaithfulPrefix(sends: seq<Send>)
    requires sends != [] && Faithful(sends)
    ensures Faithful(sends[..|sends| - 1]) && PicksOldest(After(sends[..|sends| - 1]), sends[|sends| - 1])
  {
    var n := |sends| - 1;
    assert forall k | 0 <= k < n :: sends[..n][..k] == sends[..k];
  }

  lemma CapacityOfPrefix(before: seq<Sent>, log: seq<Sent>)
    requires WithinCapacity(log) && before <= log
    ensures WithinCapacity(before)
  {
    forall k | 0 < k <= |before| ensures |RecentPaths(before[..k], before[k - 1].at)| <= MAX_DEDUP_ENTRIES {
      assert before[..k] == log[..k] && before[k - 1] == log[k - 1];
    }
  }

  lemma {:induction false} CompleteWithinCapacity(sends: seq<Send>, now: nat)
    requires Faithful(sends) && Sequential(sends) && WithinCapacity(After(sends).log) && Clock(sends) <= now
    ensures Complete(After(sends), now)
  {
    if sends != [] {
      var n := |sends| - 1;
      var init, s := sends[..n], sends[n];
      RunWithoutLast(sends);
      if IsDuplicate(After(init).cache, s.path, s.checkedAt) {
        CompleteWithinCapacity(init, now);
      } else {
        CompleteWithinCapacity(init, s.markedAt);
        AlwaysTruthfulAndBounded(init);
        SentWithinCapacity(sends);
        MarkKeepsCompleteIff(After(init), s);
      }
    }
  }

  lemma SentWithinCapacity(sends: seq<Send>)
    requires sends != [] && Faithful(sends) && Sequential(sends) && WithinCapacity(After(sends).log)
    requires var s, m := sends[|sends| - 1], After(sends[..|sends| - 1]);
      Truthful(m) && PicksOldest(m, s) && !IsDuplicate(m.cache, s.path, s.checkedAt)
    ensures var s, m := sends[|sends| - 1], After(sends[..|sends| - 1]);
      !EvictsFresh(m.cache, s.path, s.victim, s.cleanedAt)
  {
    var s, m := sends[|sends| - 1], After(sends[..|sends| - 1]);
    var log := After(sends).log;
    assert log == m.log + [Sent(s.path, s.markedAt)];
    assert log[..|log|] == log && |RecentPaths(log[..|log|], log[|log| - 1].at)| <= MAX_DEDUP_ENTRIES;
    if EvictsFresh(m.cache, s.path, s.victim, s.cleanedAt) {
      EvictingFreshNeedsMorePaths(m, s);
    }
  }

  /**
   With one caller at a time, a clock that does not go back and no more than the cache's capacity of
   distinct paths alerted in any window, the bounded cache answers exactly like the unbounded log.
   */
  lemma AnswersLikeTheLog(sends: seq<Send>, path: string, now: nat)
    requires Faithful(sends) && Sequential(sends) && WithinCapacity(After(sends).log) && Clock(sends) <= now
    ensures IsDuplicate(After(sends).cache, path, now) <==> RecentlySent(After(sends).log, path, now)
  {
    CompleteWithinCapacity(sends, now);
    CompleteAnswers(sends, path, now);
  }

  lemma CompleteAnswers(sends: seq<Send>, path: string, now: nat)
    requires Faithful(sends) && Sequential(sends) && Complete(After(sends), now) && Clock(sends) <= now
    ensures IsDuplicate(After(sends).cache, path, now) <==> RecentlySent(After(sends).log, path, now)
  {
    var m := After(sends);
    AlwaysTruthfulAndBounded(sends);
    if IsDuplicate(m.cache, path, now) { SuppressesOnlyRecent(sends, path, now); }
    if i :| 0 <= i < |m.log| && m.log[i].path == path && now < m.log[i].at + 60_000_000_000 {
      SentHasLast(m.log, i);
      var last := LastSentIsSent(m.log, path);
      LogIsOrdered(sends, i, last);
    }
  }

  lemma {:induction false} LogIsOrdered(sends: seq<Send>, i: nat, j: nat)
    requires Sequential(sends) && i < |After(sends).log| && j < |After(sends).log|
    ensures After(sends).log[j].at <= Clock(sends)
    ensures i <= j ==> After(sends).log[i].at <= After(sends).log[j].at
  {
    var n := |sends| - 1;
    var init := sends[..n];
    var before := |After(init).log|;
    if i < before && j < before {
      LogIsOrdered(init, i, j);
    } else if i < before {
      LogIsOrdered(init, i, i);
    } else if j < before {
      LogIsOrdered(init, j, j);
    }
  }

  // ---- exactly when the answer is exact ----------------------------------------------------

  /** After every call, and at any later time, the cache answers as the unbounded log does. */
  ghost predicate AlwaysAnswersLikeTheLog(sends: seq<Send>) {
    forall n, path, now | 0 <= n <= |sends| && Clock(sends[..n]) <= now ::
      IsDuplicate(After(sends[..n]).cache, path, now) <==> RecentlySent(After(sends[..n]).log, path, now)
  }

  /** The call at `n` is no duplicate, and marking it evicts an entry that has not expired. */
  predicate LosesFresh(sends: seq<Send>, n: nat)
    requires n < |sends|
  {
    var s, m := sends[n], After(sends[..n]);
    !IsDuplicate(m.cache, s.path, s.checkedAt) && EvictsFresh(m.cache, s.path, s.victim, s.cleanedAt)
  }

  lemma CompleteLater(m: Manager, now: nat, later: nat)
    requires Complete(m, now) && now <= later
    ensures Complete(m, later)
  {
    forall p | LastSentFresh(m.log, p, later) ensures LastSentFresh(m.log, p, now) { }
  }

  lemma PrefixIsRun(sends: seq<Send>, n: nat)
    requires Faithful(sends) && Sequential(sends) && n <= |sends|
    ensures Faithful(sends[..n]) && Sequential(sends[..n])
  {
    assert forall k | 0 <= k < n :: sends[..n][..k] == sends[..k];
  }

  lemma StepStaysCompleteIff(sends: seq<Send>, n: nat)
    requires Faithful(sends) && Sequential(sends) && n < |sends| && Complete(After(sends[..n]), Clock(sends[..n]))
    ensures Complete(After(sends[..n + 1]), Clock(sends[..n + 1])) <==> !LosesFresh(sends, n)
  {
    var m, s := After(sends[..n]), sends[n];
    assert sends[..n + 1][..n] == sends[..n];
    PrefixIsRun(sends, n);
    PrefixIsRun(sends, n + 1);
    FaithfulPrefix(sends[..n + 1]);
    AlwaysTruthfulAndBounded(sends[..n]);
    if IsDuplicate(m.cache, s.path, s.checkedAt) {
      CompleteLater(m, Clock(sends[..n]), s.cleanedAt);
    } else {
      CompleteLater(m, Clock(sends[..n]), s.markedAt);
      MarkKeepsCompleteIff(m, s);
    }
  }

  /** A complete cache answers as the log from then on; one that is not fails to at once. */
  lemma CompleteIffAnswers(sends: seq<Send>)
    requires Faithful(sends) && Sequential(sends)
    ensures Complete(After(sends), Clock(sends)) <==>
      forall path, now | Clock(sends) <= now ::
        IsDuplicate(After(sends).cache, path, now) <==> RecentlySent(After(sends).log, path, now)
  {
    var m := After(sends);
    if Complete(m, Clock(sends)) {
      forall path, now | Clock(sends) <= now
        ensures IsDuplicate(m.cache, path, now) <==> RecentlySent(m.log, path, now)
      {
        CompleteLater(m, Clock(sends), now);
        CompleteAnswers(sends, path, now);
      }
    } else {
      var p :| LastSentFresh(m.log, p, Clock(sends)) && p !in m.cache;
      var i := LastSentIsSent(m.log, p);
      assert RecentlySent(m.log, p, Clock(sends)) && !IsDuplicate(m.cache, p, Clock(sends));
    }
  }

  lemma {:induction false} CompleteUpTo(sends: seq<Send>, n: nat)
    requires Faithful(sends) && Sequential(sends) && n <= |sends|
    requires forall k: nat | k < n :: !LosesFresh(sends, k)
    ensures Complete(After(sends[..n]), Clock(sends[..n]))
  {
    if n > 0 {
      CompleteUpTo(sends, n - 1);
      StepStaysCompleteIff(sends, n - 1);
    }
  }

  /**
   With one caller at a time and a clock that does not go back: after every call the cache answers
   like the unbounded log exactly when no call that goes through evicts an entry still fresh.
   */
  lemma AnswersLikeTheLogIff(sends: seq<Send>)
    requires Faithful(sends) && Sequential(sends)
    ensures AlwaysAnswersLikeTheLog(sends) <==> forall n: nat | n < |sends| :: !LosesFresh(sends, n)
  {
    forall n: nat | n <= |sends|
      ensures Complete(After(sends[..n]), Clock(sends[..n])) <==>
        forall path, now | Clock(sends[..n]) <= now ::
          IsDuplicate(After(sends[..n]).cache, path, now) <==> RecentlySent(After(sends[..n]).log, path, now)
    {
      PrefixIsRun(sends, n);
      CompleteIffAnswers(sends[..n]);
    }
    if forall n: nat | n < |sends| :: !LosesFresh(sends, n) {
      forall n: nat | n <= |sends| ensures Complete(After(sends[..n]), Clock(sends[..n])) { CompleteUpTo(sends, n); }
    }
    forall n: nat | n < |sends| && LosesFresh(sends, n) ensures !AlwaysAnswersLikeTheLog(sends) {
      if Complete(After(sends[..n]), Clock(sends[..n])) { StepStaysCompleteIff(sends, n); }
    }
  }

  /** Under the same conditions two broadcasts of one path are at least the time-to-live apart. */
  lemma {:induction false} OncePerWindow(sends: seq<Send>, i: nat, j: nat)
    requires Faithful(sends) && Sequential(sends) && WithinCapacity(After(sends).log)
    requires i < j < |After(sends).log| && After(sends).log[i].path == After(sends).log[j].path
    ensures After(sends).log[j].at - After(sends).log[i].at >= 60_000_000_000
  {
    var init, s := sends[..|sends| - 1], sends[|sends| - 1];
    var before := After(init).log;
    RunWithoutLast(sends);
    if j < |before| {
      OncePerWindow(init, i, j);
    } else {
      AnswersLikeTheLog(init, s.path, s.checkedAt);
      assert before[i] == After(sends).log[i];
      LogIsOrdered(init, i, i);
    }
  }

  // ---- what the cache holds ----------------------------------------------------------------

  /** When the cache was last cleaned: by the last call that was no duplicate. */
  function LastCleaned(sends: seq<Send>): Option<nat> {
    if sends == [] then None
    else
      var init, s := sends[..|sends| - 1], sends[|sends| - 1];
      if IsDuplicate(After(init).cache, s.path, s.checkedAt) then LastCleaned(init) else Some(s.cleanedAt)
  }

  /** For any clock and load: no entry of the cache had expired when it was last cleaned. */
  lemma {:induction false} NothingExpiredIsKept(sends: seq<Send>)
    ensures LastCleaned(sends).None? ==> After(sends).cache == map[]
    ensures LastCleaned(sends).Some? ==>
      forall p | p in After(sends).cache :: LastCleaned(sends).value < After(sends).cache[p] + 60_000_000_000
  {
    if sends != [] { NothingExpiredIsKept(sends[..|sends| - 1]); }
  }

  /** When the cache was last cleaned is no later than the last call's end. */
  lemma {:induction false} CleanedByNow(sends: seq<Send>)
    requires Sequential(sends) && LastCleaned(sends).Some?
    ensures LastCleaned(sends).value <= Clock(sends)
  {
    if LastCleaned(sends) != Some(Clock(sends)) { CleanedByNow(sends[..|sends| - 1]); }
  }

  lemma {:induction false} CompleteAtLastCleaning(sends: seq<Send>)
    requires Faithful(sends) && Sequential(sends) && LastCleaned(sends).Some?
    requires forall n: nat | n < |sends| :: !LosesFresh(sends, n)
    ensures Complete(After(sends), LastCleaned(sends).value)
  {
    var n := |sends| - 1;
    var init, s := sends[..n], sends[n];
    if IsDuplicate(After(init).cache, s.path, s.checkedAt) {
      PrefixIsRun(sends, n);
      forall k: nat | k < n ensures !LosesFresh(init, k) {
        assert init[..k] == sends[..k];
        assert !LosesFresh(sends, k);
      }
      CompleteAtLastCleaning(init);
    } else {
      CompleteUpTo(sends, |sends|);
      assert sends[..|sends|] == sends;
    }
  }

  /**
   With one caller at a time, a clock that does not go back and no fresh entry evicted, the cache holds
   exactly the paths last sent within the time-to-live before it was last cleaned, with that time.
   */
  lemma CacheIsFreshLog(sends: seq<Send>, path: string)
    requires Faithful(sends) && Sequential(sends) && LastCleaned(sends).Some?
    requires forall n: nat | n < |sends| :: !LosesFresh(sends, n)
    ensures var m, last := After(sends), LastSent(After(sends).log, path);
      && (path in m.cache <==> last.Some? && LastCleaned(sends).value < last.value + 60_000_000_000)
      && (path in m.cache ==> Some(m.cache[path]) == last)
  {
    AlwaysTruthfulAndBounded(sends);
    NothingExpiredIsKept(sends);
    CompleteAtLastCleaning(sends);
    if LastSent(After(sends).log, path).Some? &&
      LastCleaned(sends).value < LastSent(After(sends).log, path).value + 60_000_000_000 {
      assert LastSentFresh(After(sends).log, path, LastCleaned(sends).value);
    }
  }
}
