# Verification of the execution-aware scanner's runtime core

The scanner watches processes through eBPF, ties what they do to known vulnerabilities, and decides
what to alert on and what to enforce. This project models the stateful core of its agent, and the
federation merge of its aggregator, and proves what every run keeps.

**Runtime attack graph.** A multigraph of processes, libraries, destinations and vulnerabilities with
a string index, per-process load lists, a deduplication clock per (process, port) and a log of
streaming updates. Identifiers are proved injective across node kinds; the log is proved to replay to
the graph; every network event is accounted for as an edge, a merge or a loss; the two time windows
are proved to decide exactly which edges exist; paths are proved to hold exactly the chains of their
vulnerability; and the enforcement gate is characterised by an if-and-only-if over the graph.

**Control machines.** A circuit breaker (atomic against its history, and as tasks interleaving at
every shared access), hysteresis backpressure, counters updated by spawned tasks, a bounded TTL
deduplication cache, and a threshold alerter with a cooldown.

**Bounded or fast forms.** Capped per-cgroup state, a library-to-vulnerability cache, Welford's
variance, an exponentially weighted average, and the merge of two federated aggregators, each against
its simple definition.

Objects that update fields in place are classes; each method is proved to compute a function on
states, and the results over whole runs are lemmas about that function. `RuntimeAttackGraph` also
keeps its history, and its validity says its fields are the graph that history leads to.

| file | source component |
|---|---|
| `Wrappers.dfy` | shared option type, machine ranges, clock difference, sliding window |
| `NodeIdentity.dfy` | node kinds and identifiers |
| `AttackGraph.dfy` | graph data, one function per operation, the identifier view |
| `AttackGraphRuns.dfy` | what one operation does to the view; the update log |
| `AttackGraphHistory.dfy` | deduplication and conservation against the bare history |
| `AttackGraphWindows.dfy` | window bounds, correlation, growth of connections |
| `AttackGraphContents.dfy` | nodes, log and attempts with every attribute |
| `AttackPaths.dfy` | path construction and the enforcement gate |
| `PathCounts.dfy` | how often a path counts a connection |
| `EnforcementHistory.dfy` | the enforcement gate against the bare history |
| `RuntimeAttackGraph.dfy` | the graph as a class |
| `CircuitBreaker.dfy`, `Backpressure.dfy`, `ReliabilityMetrics.dfy` | reliability module |
| `WebhookDedup.dfy` | webhook manager |
| `StreamingAlerts.dfy` | streaming engine state |
| `WorkloadStates.dfy` | per-cgroup state store |
| `RuntimeMapper.dfy` | runtime mapper |
| `AnomalyDetector.dfy` | anomaly detector |
| `PredictiveRisk.dfy` | predictive risk engine |
| `Federation.dfy` | aggregator federation |

Modelling choices that reach several results:

- Confidences, scores and samples are exact reals.
- `Environment` stands for the graph library and the library-name matcher: `find_edge` returns some
  edge between two nodes, and iteration lists each edge at a node once, in some order. Results hold for
  every such choice; `NewestFirstIsSound` shows one exists.
- Clock readings are parameters in nanoseconds; a call that reads the clock twice takes two.
- `u32::from_be` is the byte swap of a little-endian host.

Where the code does less than its own comments promise, the code is followed:

- Burst collapsing is documented as aggregating bytes into the existing edge. The deduplication key
  leaves the destination address out, so an event to a second address inside the window is counted as
  collapsed and its bytes vanish. `EventsAreConserved` accounts for these losses, `CountsMatchCallsIff`
  and `TotalsMatchIff` say exactly when there are none, `SecondAddressIsLost` exhibits them.
- The circuit breaker's failure count assumes that no reset is overtaken. `CountStandsIff` and
  `OffAtThresholdIff` say on which schedules count and state keep together, `LateTripLosesTheCount`
  builds one from the new breaker that leaves the circuit open with a count of zero.
- A detected path can swallow a suppressed crossing alert; `SuppressedAlertFiresLater` says exactly when.
  The path may raise an alert of its own; `HighAlwaysToldIff` says when that makes up for it.
- A process keeps findings of lists given before the one in force; `VulnerabilitiesFoundWhenMapped` says
  exactly which.
- Federation keys join cluster and path with an unquoted colon; `KeysIdentifyIff` says exactly for which
  cluster identifiers a key still identifies a path.
- A path repeats a process's connections for every load that leads to it, so its bytes count them as
  often. `CountedOnceIff` says exactly when they are counted once, `LoadedTwiceCountsTwice` exhibits a
  run where they are not.

## Model

| member | source | states |
|---|---|---|
| NodeIdentity.DecimalInjective | scanner-agent/src/runtime_attack_graph_v2.rs:84-86 | decimal rendering of pids and ports never merges two numbers |
| NodeIdentity.DecimalSpells | scanner-agent/src/runtime_attack_graph_v2.rs:84-86 | the rendering spells its number in decimal, without leading zeros |
| NodeIdentity.DottedInjective | scanner-agent/src/runtime_attack_graph_v2.rs:360-368 | two 32-bit addresses with the same dotted text are the same address |
| NodeIdentity.DottedReadsBytesInOrder | scanner-agent/src/runtime_attack_graph_v2.rs:361-368 | the dotted text is the four stored bytes in network order |
| NodeIdentity.DottedSpellsBytes | scanner-agent/src/runtime_attack_graph_v2.rs:361-368 | those bytes are spelled in decimal, joined by dots, the least significant of the stored integer first |
| NodeIdentity.NodeIdInjective | scanner-agent/src/runtime_attack_graph_v2.rs:82-90 | two nodes share an identifier exactly when they are the same entity, across all five kinds and whatever the other attributes |
| AttackGraph.AddNodeKeepsIndex | scanner-agent/src/runtime_attack_graph_v2.rs:298-307 | adding a node keeps the index a bijection with the nodes, returns the entity's one node, moves no node and changes no edge |
| AttackGraph.NewestFirstIsSound | scanner-agent/src/runtime_attack_graph_v2.rs:470-470 | the assumption on edge lookup and iteration (some edge between the nodes; each edge at a node once) is met by walking edges newest first |
| AttackGraphRuns.AttemptsNeverMiss | scanner-agent/src/runtime_attack_graph_v2.rs:505-522 | the library lookup of correlation never misses: the edges added are those of the loads in the window, in order |
| AttackGraphRuns.AggregateView | scanner-agent/src/runtime_attack_graph_v2.rs:443-492 | a collapsed event changes one connection of its own process and destination and logs it, or changes nothing |
| AttackGraphRuns.AlwaysWellFormed | scanner-agent/src/runtime_attack_graph_v2.rs:279-615 | after every run the index is exact, every edge joins node kinds its type allows, and every recorded load is indexed |
| AttackGraphRuns.LogReplaysToGraph | scanner-agent/src/runtime_attack_graph_v2.rs:342-349 | replaying drained and queued updates gives the graph's load count, connection count, bytes and events, in total, per identifier pair and per port |
| AttackGraphHistory.CollapsesIsInWindow | scanner-agent/src/runtime_attack_graph_v2.rs:370-387 | an event collapses exactly when it falls strictly inside the window of the last recorded event of its process and port |
| AttackGraphHistory.ConnectionsAreRecordings | scanner-agent/src/runtime_attack_graph_v2.rs:387-420 | one connection edge per recorded event, in total, per identifier pair and per port |
| AttackGraphHistory.MergesIffSeen | scanner-agent/src/runtime_attack_graph_v2.rs:443-470 | a collapsed event finds an edge to merge into exactly when its process was recorded connecting to that destination before |
| AttackGraphHistory.EventsAreConserved | scanner-agent/src/runtime_attack_graph_v2.rs:353-492 | event counts (and bytes) in the graph plus those of lost events are exactly what the calls offered, for every selection of edges |
| AttackGraphHistory.CallsAreEdgesPlusCollapsed | scanner-agent/src/runtime_attack_graph_v2.rs:378-420 | network calls are connection edges plus collapsed bursts |
| AttackGraphHistory.TotalsMatchIff | scanner-agent/src/runtime_attack_graph_v2.rs:353-492 | event counts, and bytes, add up to what was offered, in total, per connection and per port, exactly when no event that weighs there collapses towards a destination its process never had recorded |
| AttackGraphHistory.CountsMatchCallsIff | scanner-agent/src/runtime_attack_graph_v2.rs:371-383 | event counts add up to the calls exactly when no event collapses towards a destination its process never had recorded |
| AttackGraphHistory.OneAddressConserves | scanner-agent/src/runtime_attack_graph_v2.rs:353-492 | with one address per process and port, bytes and events are conserved, connection by connection |
| AttackGraphHistory.SecondAddressIsLost | scanner-agent/src/runtime_attack_graph_v2.rs:371-383 | a second address on the same process and port inside the window is lost; the counts no longer match, nor do the bytes if it carried any |
| AttackGraphHistory.CountersFit | scanner-agent/src/runtime_attack_graph_v2.rs:129-136 | with fewer than 2^32 network calls no 32-bit event count and no 64-bit byte count can wrap |
| AttackGraphWindows.EdgesPerSpan | scanner-agent/src/runtime_attack_graph_v2.rs:370-387 | strictly increasing times on a process and port: its edges are as many as its recorded events, any two of those are a window apart, and so a span holds at most span / window + 1 of them |
| AttackGraphWindows.AttemptsAreCorrelatedPairs | scanner-agent/src/runtime_attack_graph_v2.rs:495-524 | exploitation attempts are exactly one per pair of a recorded event and an earlier load of its process inside the window, in total and between any two identifiers; collapsed events add none |
| AttackGraphWindows.ConfidenceLaw | scanner-agent/src/runtime_attack_graph_v2.rs:387-418 | the connections are, in order, those of the recorded events: each has its event's ends and time, and a confidence of 0.9 for an event above the byte threshold, else 0.7, plus 0.05 per merged event, capped at 0.95 |
| AttackGraphWindows.StrongIffLargeOrRepeated | scanner-agent/src/runtime_attack_graph_v2.rs:408-412 | a connection reaches confidence 0.9 exactly when its first event was above the byte threshold or five events made it up |
| AttackGraphWindows.SpacedUnderDefaults | scanner-agent/src/runtime_attack_graph_v2.rs:43-55 | with the default configuration recorded events of a process and port are 30 seconds apart |
| AttackGraphWindows.StrongUnderDefaults | scanner-agent/src/runtime_attack_graph_v2.rs:43-55 | with the default configuration a large event is one of more than 1024 bytes |
| AttackGraphWindows.CorrelatedUnderDefaults | scanner-agent/src/runtime_attack_graph_v2.rs:43-55 | with the default configuration an attempt ties a load to an event less than 300 seconds later |
| AttackGraphWindows.ConfidenceStaysInRange | scanner-agent/src/runtime_attack_graph_v2.rs:479-482 | connection confidence lies between 0.7 and 0.95 in every reachable graph |
| AttackGraphWindows.EdgesOnlyGrow | scanner-agent/src/runtime_attack_graph_v2.rs:298-615 | between any point of a run and its end no edge is removed or redirected and no counter or confidence falls |
| AttackGraphContents.NodesAreFirstMentions | scanner-agent/src/runtime_attack_graph_v2.rs:298-420 | after every run the nodes are the entities that loads, associations and recorded events mention, each once, in order of first mention and with the attributes of that mention, the protocol included |
| AttackGraphContents.LogIsHistory | scanner-agent/src/runtime_attack_graph_v2.rs:342-492 | drained and queued updates are, in order and with their data, one per load, per recorded event and per merged event |
| AttackGraphContents.QueueIsWaiting | scanner-agent/src/runtime_attack_graph_v2.rs:787-789 | the queue holds exactly what was told since the last drain, so each update is handed over once |
| AttackGraphContents.AttemptsTell | scanner-agent/src/runtime_attack_graph_v2.rs:505-522 | the attempts of a graph are exactly those that tie a load to a later recorded event of its process inside the window, with confidence 0.72 or 0.56 by the event's size and the evidence text with the whole seconds between |
| AttackPaths.PathIsJustified | scanner-agent/src/runtime_attack_graph_v2.rs:655-776 | the path starts at the vulnerability; every other node is backed by a graph edge of its kind to another path node; each path edge has its recorded ends and the weight of the graph edge it stands for; no process repeats; bytes are the connections' sum; indicators tell its libraries and connections in order, signals its kinds of edges |
| AttackPaths.PathCollectsExactly | scanner-agent/src/runtime_attack_graph_v2.rs:673-750 | a path holds exactly the libraries, processes, destinations and connections on a chain of its vulnerability: none invented, none missed |
| PathCounts.PathCountsTriples | scanner-agent/src/runtime_attack_graph_v2.rs:690-744 | a path counts a connection, and its bytes, once per pair of a vulnerable edge and a load edge leading to its process: both totals are sums over triples of graph edges, whatever the iteration order |
| PathCounts.CountedOnceIff | scanner-agent/src/runtime_attack_graph_v2.rs:690-744 | a path's connections and bytes are those of each process times the ways to it; never less than each reached connection counted once, and equal to that exactly when no connection of any worth has a process that two pairs of a vulnerable edge and a load lead to |
| PathCounts.LoadedTwiceCountsTwice | scanner-agent/src/runtime_attack_graph_v2.rs:690-726 | a run that loads one library twice and connects once: the graph holds the connection's bytes, the path twice as many |
| AttackPaths.ConnectionsAreChains | scanner-agent/src/runtime_attack_graph_v2.rs:545-577 | the path has a (strong) connection exactly when the graph has a complete chain ending in one |
| AttackPaths.EnforcedIff | scanner-agent/src/runtime_attack_graph_v2.rs:205-209 | with default thresholds the gate passes exactly for a complete chain with KEV and EPSS 0.7, or one of the two and a connection of confidence 0.9 on a chain |
| AttackPaths.ConfidenceTable | scanner-agent/src/runtime_attack_graph_v2.rs:527-580 | for every graph and finding the path's confidence is a figure for its length and whether its chain is complete and strong, plus 0.15 for a known exploit and 0.1 for an EPSS of 0.7 |
| AttackPaths.GateExactly | scanner-agent/src/runtime_attack_graph_v2.rs:205-209 | in every configuration the gate passes exactly with a load on the path, enough nodes and enough confidence |
| AttackPaths.PathReports | scanner-agent/src/runtime_attack_graph_v2.rs:753-770 | the path's risk is a fifth of the score per node up to five and never above the score, equal to it exactly from five nodes on; depth and time window as configured |
| AttackPaths.EnforceableExactly | scanner-agent/src/runtime_attack_graph_v2.rs:797-804 | the listing holds exactly the paths of reachable findings that pass the gate |
| AttackPaths.EnforceableInOrder | scanner-agent/src/runtime_attack_graph_v2.rs:797-804 | the listing is the paths of the findings that pass, each once and in the order of the findings |
| AttackPaths.EnforcementIsSound | scanner-agent/src/runtime_attack_graph_v2.rs:527-580 | an enforced path names its reachable finding and contains vulnerability, library, process and destination in that order, with the evidence the gate demands |
| EnforcementHistory.CompleteChainFromHistory | scanner-agent/src/runtime_attack_graph_v2.rs:310-615 | from the bare history: a finding has a complete chain exactly when some library, loaded before an association of its vulnerability with a matching package, was loaded at any time by a process with a recorded event |
| EnforcementHistory.LinksAreAssociations | scanner-agent/src/runtime_attack_graph_v2.rs:583-615 | a vulnerability has one edge to a library for each association of it with a matching package after the library was loaded, and no other |
| EnforcementHistory.EnforcedFromHistory | scanner-agent/src/runtime_attack_graph_v2.rs:527-615 | with default thresholds a known-exploited finding of high EPSS passes the gate exactly when the history completes its chain |
| EnforcementHistory.EnforcedOnOneIff | scanner-agent/src/runtime_attack_graph_v2.rs:527-615 | with default thresholds a finding with just one of known exploit and high EPSS passes the gate exactly when the history completes its chain through a process with a recorded event that was large or made up by five |
| EnforcementHistory.EnforcedByLargeEvent | scanner-agent/src/runtime_attack_graph_v2.rs:408-412 | from the bare history: one large recorded event of a process on the chain, and either piece of evidence, suffice |
| EnforcementHistory.EnforcementLasts | scanner-agent/src/runtime_attack_graph_v2.rs:797-804 | with default thresholds a finding that passes the gate at some point of a run passes it to the end |
| RuntimeAttackGraphs.RuntimeAttackGraph.AddNode | scanner-agent/src/runtime_attack_graph_v2.rs:298-307 | the in-place index and node list compute the graph function |
| RuntimeAttackGraphs.RuntimeAttackGraph.ProcessLibraryLoad | scanner-agent/src/runtime_attack_graph_v2.rs:310-350 | updates nodes, edge, load list and log as the graph function, and extends the history by this load |
| RuntimeAttackGraphs.RuntimeAttackGraph.ProcessNetworkEvent | scanner-agent/src/runtime_attack_graph_v2.rs:353-440 | collapses or records the event as the graph function, and extends the history by it |
| RuntimeAttackGraphs.RuntimeAttackGraph.AggregateNetworkEvent | scanner-agent/src/runtime_attack_graph_v2.rs:443-492 | merges into the edge found, or returns early, as the graph function |
| RuntimeAttackGraphs.RuntimeAttackGraph.CorrelateWithLibraries | scanner-agent/src/runtime_attack_graph_v2.rs:495-524 | the loop appends one attempt per load in the window, in load order |
| RuntimeAttackGraphs.RuntimeAttackGraph.AssociateCveWithLibrary | scanner-agent/src/runtime_attack_graph_v2.rs:583-615 | the loop links the vulnerability to every matching library node, and extends the history |
| RuntimeAttackGraphs.RuntimeAttackGraph.DrainUpdates | scanner-agent/src/runtime_attack_graph_v2.rs:787-789 | hands over the queue once, emptying it and keeping the total log |
| RuntimeAttackGraphs.RuntimeAttackGraph.BuildPathForFinding | scanner-agent/src/runtime_attack_graph_v2.rs:655-776 | the nested loops build the path the lemmas describe, indicators included |
| RuntimeAttackGraphs.RuntimeAttackGraph.GetEnforceablePaths | scanner-agent/src/runtime_attack_graph_v2.rs:797-804 | the filtered listing is the one the lemmas describe |
| CircuitBreakers.CircuitBreaker.ShouldProceed | scanner-agent/src/reliability.rs:251-273 | answers and moves to half-open as the atomic call |
| CircuitBreakers.CircuitBreaker.RecordSuccess | scanner-agent/src/reliability.rs:276-283 | closes and resets only from half-open |
| CircuitBreakers.CircuitBreaker.RecordFailure | scanner-agent/src/reliability.rs:286-297 | counts, stamps and opens at the threshold |
| CircuitBreakers.BreakerMirrorsHistory | scanner-agent/src/reliability.rs:251-297 | state, count and last failure are functions of the calls since the circuit last closed |
| CircuitBreakers.ClosedAndRejectedExactly | scanner-agent/src/reliability.rs:251-297 | closed exactly when failures since the last close are below the threshold; rejected exactly when they reached it, no caller probed since, and fewer than the recovery seconds, in nanoseconds, passed since the last failure |
| CircuitBreakers.ThresholdMustBePositive | scanner-agent/src/reliability.rs:290-296 | the closed law holds for all histories exactly when the threshold is at least one |
| CircuitBreakers.FallThroughIsUnreachable | scanner-agent/src/reliability.rs:251-297 | at every step of every interleaving, off the closed state a last failure is recorded, and no caller takes the branch for a missing one; a failure's clock reading and its later store are separate steps |
| CircuitBreakers.EveryScheduleFromStart | scanner-agent/src/reliability.rs:257-270 | from a new breaker, no schedule lets a caller through for lack of a failure time |
| CircuitBreakers.UninterruptedIsAtomic | scanner-agent/src/reliability.rs:251-297 | in any world of any run, a call scheduled from start to end with nothing in between does to the breaker exactly what the atomic call does |
| CircuitBreakers.ActKeepsCountIff | scanner-agent/src/reliability.rs:276-297 | one step keeps the count standing for the state (off closed, or seen open, it has reached the threshold) exactly when it is not a reset while the circuit is not closed or a failure or an open-circuit caller is on its way |
| CircuitBreakers.CountStandsIff | scanner-agent/src/reliability.rs:251-297 | over any schedule the count stands at every step exactly when no reset comes too late |
| CircuitBreakers.NeverSticks | scanner-agent/src/reliability.rs:280-296 | over every schedule a closed circuit at its threshold has a trip or a reset still on its way |
| CircuitBreakers.OffAtThresholdIff | scanner-agent/src/reliability.rs:251-297 | over any schedule the circuit is off the closed state only with its count at the threshold, at every step, exactly when no reset finds it off and nothing takes it off on a lower count |
| CircuitBreakers.NoLateResetNeverTears | scanner-agent/src/reliability.rs:276-297 | schedules without a late reset are among those |
| CircuitBreakers.ClosedWhenQuietIff | scanner-agent/src/reliability.rs:251-297 | from a new breaker, on such a schedule and once no call is on its way, the circuit is closed exactly when the count is below the threshold |
| CircuitBreakers.LateTripLosesTheCount | scanner-agent/src/reliability.rs:280-296 | late resets happen: for every configuration with a threshold, a schedule from the new breaker ends with no call on its way, the circuit open and no failure counted |
| Backpressure.BackpressureController.CheckBackpressure | scanner-agent/src/reliability.rs:189-211 | raises, releases or keeps pressure and returns it |
| Backpressure.PressureIsHighSinceLow | scanner-agent/src/reliability.rs:191-208 | pressure is on exactly when some size reached the high mark with none at or below the low mark since |
| Backpressure.HysteresisIff | scanner-agent/src/reliability.rs:191-208 | that law holds for all runs exactly when the low mark is below the high mark |
| Backpressure.TogglesNeedMovement | scanner-agent/src/reliability.rs:196-208 | k toggles need total queue movement of at least (k - 1) times the band |
| ReliabilityMetrics.Collector.RecordProcessedEvent | scanner-agent/src/reliability.rs:98-109 | bumps the total at once and spawns the component update |
| ReliabilityMetrics.Collector.RecordDroppedEvents | scanner-agent/src/reliability.rs:112-121 | adds the count to the total at once and spawns the component update |
| ReliabilityMetrics.Collector.RunSpawned | scanner-agent/src/reliability.rs:103-108 | any spawned task may run next; it updates one entry, made on demand, and a processed event stamps its time |
| ReliabilityMetrics.TotalsBalance | scanner-agent/src/reliability.rs:98-121 | at every step of every schedule the totals are the component sums plus what tasks not yet run owe |
| ReliabilityMetrics.ComponentsBalance | scanner-agent/src/reliability.rs:98-132 | per component and kind, what was recorded is what shows plus what its pending tasks owe, whatever the order |
| ReliabilityMetrics.QuiescentBooksAgree | scanner-agent/src/reliability.rs:135-169 | with no task left each component shows exactly what was recorded and the totals are their sums |
| ReliabilityMetrics.TimedWhenProcessed | scanner-agent/src/reliability.rs:103-108 | after every schedule a component carries a last-event time exactly when it shows a processed event |
| ReliabilityMetrics.TimeIsOfLastProcessed | scanner-agent/src/reliability.rs:103-108 | that time is when the task of the component's last processed event ran |
| WebhookDedup.WebhookManager.CheckDuplicate | scanner-agent/src/webhook_sender.rs:528-536 | duplicate exactly when cached and unexpired |
| WebhookDedup.WebhookManager.MarkSent | scanner-agent/src/webhook_sender.rs:542-557 | evicts some oldest entry only when full, inserts, drops the expired |
| WebhookDedup.WebhookManager.SendAlert | scanner-agent/src/webhook_sender.rs:569-577 | broadcasts and logs exactly when not a duplicate |
| WebhookDedup.AlwaysTruthfulAndBounded | scanner-agent/src/webhook_sender.rs:539-557 | for any clock and load, cached times are last sending times and the cache never exceeds 10000 entries |
| WebhookDedup.NothingExpiredIsKept | scanner-agent/src/webhook_sender.rs:553-556 | for any clock and load no cached entry had expired when the cache was last cleaned |
| WebhookDedup.SuppressesOnlyRecent | scanner-agent/src/webhook_sender.rs:528-536 | an alert is suppressed only if its path was sent within the time-to-live |
| WebhookDedup.MarkKeepsCompleteIff | scanner-agent/src/webhook_sender.rs:545-556 | marking keeps every fresh path cached exactly when it does not evict a fresh entry |
| WebhookDedup.EvictingFreshNeedsMorePaths | scanner-agent/src/webhook_sender.rs:545-550 | evicting a fresh entry takes more than 10000 distinct paths alerted in one window |
| WebhookDedup.AnswersLikeTheLog | scanner-agent/src/webhook_sender.rs:528-577 | sequential callers, a clock that does not go back and at most 10000 paths a window: the cache answers exactly like the unbounded log |
| WebhookDedup.AnswersLikeTheLogIff | scanner-agent/src/webhook_sender.rs:528-577 | sequential callers and a clock that does not go back: after every call the cache answers like the log exactly when no call that goes through evicts an entry still fresh |
| WebhookDedup.CacheIsFreshLog | scanner-agent/src/webhook_sender.rs:539-557 | with sequential callers and no fresh entry evicted, the cache holds exactly the paths last sent within 60 seconds before it was last cleaned, with that time |
| WebhookDedup.OncePerWindow | scanner-agent/src/webhook_sender.rs:569-577 | under the same conditions two broadcasts of one path are at least 60 seconds apart |
| StreamingAlerts.StreamingState.ShouldAlert | scanner-agent/src/streaming_engine.rs:169-188 | alerts on a crossing past the cooldown; a suppressed crossing returns before any write |
| StreamingAlerts.StreamingState.NotePathDetected | scanner-agent/src/streaming_engine.rs:381-404 | a detected path overwrites the recorded confidence, and alerts by itself at the configured threshold |
| StreamingAlerts.AlertsAreSpaced | scanner-agent/src/streaming_engine.rs:169-188 | two alerts for one path are at least the cooldown apart with a confidence below 0.8 recorded in between |
| StreamingAlerts.FiresExactly | scanner-agent/src/streaming_engine.rs:169-188 | from the history alone: an observation fires exactly when it is high, no earlier alert or detected path holds the record high since the last low one, and the last alert is a cooldown past |
| StreamingAlerts.SuppressionLeavesNoTrace | scanner-agent/src/streaming_engine.rs:176-181 | a run with a suppressed crossing ends as the run without it, and every other operation of either run fires in both or in neither |
| StreamingAlerts.SuppressedAlertFiresLater | scanner-agent/src/streaming_engine.rs:169-188 | after a suppressed crossing, with every high observation since then inside the cooldown, the next high observation fires exactly when the cooldown is over and no detected path swallowed it: recorded a high confidence with no low one recorded since |
| StreamingAlerts.DetectedPathSwallowsAlert | scanner-agent/src/streaming_engine.rs:381-384 | a run from the start in which a detected path swallows a suppressed crossing alert, which does not fire past the cooldown either |
| StreamingAlerts.HighAlwaysToldIff | scanner-agent/src/streaming_engine.rs:403-440 | in every run a path whose record is high was told of, by a crossing or by a detected path's own alert, since its record was last low, exactly when detected paths alert at the crossing threshold or below |
| WorkloadStates.StateStore.ApplyExec | scanner-agent/src/state.rs:82-97 | updates the entry of the event's cgroup only, as the history step |
| WorkloadStates.StateStore.ApplyFile | scanner-agent/src/state.rs:99-142 | the same for file events, with up to three signals in order |
| WorkloadStates.StateStore.ApplyNet | scanner-agent/src/state.rs:144-183 | the same for network events, with saturating bytes |
| WorkloadStates.CappedKeepsFirst | scanner-agent/src/state.rs:67-73 | capped insertion keeps a set equal to the first 5000 distinct values offered |
| WorkloadStates.PushKeepsLast | scanner-agent/src/state.rs:59-64 | pushing keeps the signals equal to the last 1000 raised |
| WorkloadStates.BoundedStateRefinesHistory | scanner-agent/src/state.rs:82-199 | under any interleaving a cgroup's entry is given by its own events since the last clear: bytes min(sum, 1 TB), last 1000 signals, first 5000 distinct values of each set |
| WorkloadStates.EntriesAreBrought | scanner-agent/src/state.rs:82-183 | a set of a cgroup holds only paths, system calls, commands, flows and libraries its own events brought, and below 5000 entries all of them |
| WorkloadStates.SignalsAreRaised | scanner-agent/src/state.rs:82-183 | a cgroup shows only signals its own events raised, with their weight, time and text, and below 1000 all of them |
| WorkloadStates.RaisedExactly | scanner-agent/src/state.rs:99-142 | one event raises each of its signals once, in the order of the source |
| RuntimeMappers.RuntimeMapper.LoadVulnerabilities | scanner-agent/src/runtime_mapper.rs:51-60 | regroups the list by package and empties the cache |
| RuntimeMappers.RuntimeMapper.HandleFile | scanner-agent/src/runtime_mapper.rs:82-136 | reads or fills the cache and extends the process, as the history step |
| RuntimeMappers.ScanExactly | scanner-agent/src/runtime_mapper.rs:206-231 | a scan finds exactly the given vulnerabilities whose package matches the path, despite the grouping |
| RuntimeMappers.CacheEqualsRescan | scanner-agent/src/runtime_mapper.rs:51-136 | in every reachable state each cached entry is what a fresh scan would return |
| RuntimeMappers.CacheHoldsScanned | scanner-agent/src/runtime_mapper.rs:51-136 | the cache holds exactly the libraries that live processes mapped since the list was last given |
| RuntimeMappers.VulnerabilitiesFoundWhenMapped | scanner-agent/src/runtime_mapper.rs:51-136 | a process is tracked exactly while live, and lists exactly the vulnerabilities that matched a library it mapped since its start, each against the list known at that moment |
| RuntimeMappers.ScanOccurs | scanner-agent/src/runtime_mapper.rs:206-231 | a scan lists a matching vulnerability exactly as often as it was given |
| RuntimeMappers.ListedAsOwed | scanner-agent/src/runtime_mapper.rs:82-136 | a live process lists a vulnerability once for each load that found it, and each time it was given then |
| RuntimeMappers.ProcessShowsItsLife | scanner-agent/src/runtime_mapper.rs:63-162 | a live process shows its last command, the libraries it mapped and its web connections, in order, since its start |
| RuntimeMappers.VulnerabilitiesAreExplained | scanner-agent/src/runtime_mapper.rs:63-136 | a process started since the last list holds exactly the vulnerabilities of that list matching some library it mapped |
| RuntimeMappers.OlderProcessKeepsOldFindings | scanner-agent/src/runtime_mapper.rs:51-60 | a run in which a process older than the list in force keeps a finding that list does not have |
| AnomalyDetectors.AnomalyDetector.UpdateBaseline | scanner-agent/src/anomaly_detector.rs:140-147 | the loop keeps every feature's statistics equal to those of its column of the history |
| AnomalyDetectors.AnomalyDetector.Detect | scanner-agent/src/anomaly_detector.rs:150-204 | with a usable root, reports exactly the features whose squared distance from the average of their history exceeds the squared threshold times the sample variance, in order and with value, average, deviation and z-score; the score passes one half exactly when something is reported; nothing before enough samples |
| AnomalyDetectors.ScoreLaw | scanner-agent/src/anomaly_detector.rs:194-195 | the score is the greatest deviation over twice the threshold, capped at one |
| AnomalyDetectors.WelfordIsTwoPass | scanner-agent/src/anomaly_detector.rs:66-72 | the streamed mean and second moment are those of the two-pass definition, for every sample sequence |
| AnomalyDetectors.MeanIsAverage | scanner-agent/src/anomaly_detector.rs:66-72 | the streamed mean is the sum over the count |
| AnomalyDetectors.OrderDoesNotMatter | scanner-agent/src/anomaly_detector.rs:66-72 | the same samples in any order give the same statistics |
| AnomalyDetectors.FewBaselineOutliersIff | scanner-agent/src/anomaly_detector.rs:75-94 | of n baseline samples the k a feature would itself flag at threshold t satisfy k * t^2 <= n - 1 exactly when there is a sample and t is not negative or n * t^2 <= n - 1 |
| AnomalyDetectors.NegativeThresholdFlagsAll | scanner-agent/src/anomaly_detector.rs:179-190 | a negative threshold flags every sample |
| PredictiveRisk.CalculateEwma | scanner-agent/src/predictive_risk.rs:170-184 | each entry of the loop is the average of the scores up to it |
| PredictiveRisk.EwmaIsClosedForm | scanner-agent/src/predictive_risk.rs:170-184 | the last value is (1-a)^n x0 plus the sum of a (1-a)^(n-i) xi |
| PredictiveRisk.EwmaStaysInRange | scanner-agent/src/predictive_risk.rs:170-184 | for 0 < a <= 1 the average stays within the range of the scores |
| PredictiveRisk.PredictiveRiskEngine.RecordScore | scanner-agent/src/predictive_risk.rs:83-92 | appends and drains the oldest beyond the limit |
| PredictiveRisk.HistoryIsLastScores | scanner-agent/src/predictive_risk.rs:83-92 | the history is exactly the last max_history scores recorded since the last clear |
| PredictiveRisk.PredictionIsClosedForm | scanner-agent/src/predictive_risk.rs:95-110 | a prediction exists exactly when enough scores are retained and starts from their closed form |
| Federation.AggregatorState.ReceiveFederationSync | scanner-aggregator/src/main.rs:130-159 | the two loops and the peer update compute the merge |
| Federation.AggregatorState.PrepareFederationSync | scanner-aggregator/src/main.rs:162-172 | the payload holds exactly the stored paths and the correlations as they stand |
| Federation.ReceiveKeepsSane | scanner-aggregator/src/main.rs:138-151 | paths stay under their own keys and correlation identifiers stay distinct |
| Federation.MergeAppendsNews | scanner-aggregator/src/main.rs:145-151 | merging correlations keeps the known ones and appends, in order and field for field, the first entry of each identifier not known |
| Federation.LastReceivedWins | scanner-aggregator/src/main.rs:138-143 | of several received entries under one key the last is stored |
| Federation.PeersTellLastSync | scanner-aggregator/src/main.rs:153-158 | after any syncs exactly the registered peers are listed; one that was heard is active with the time of its last sync, the others are as they were |
| Federation.ReceiveTwiceIsOnce | scanner-aggregator/src/main.rs:138-151 | the same sync twice equals once, for paths and correlations |
| Federation.CrossingConvergesIff | scanner-aggregator/src/main.rs:130-172 | exchanges that cross leave one path map exactly when shared keys held equal values, and always one identifier set |
| Federation.ExchangeConverges | scanner-aggregator/src/main.rs:130-172 | one exchange in each direction, the second prepared after the first arrived, always leaves one path map and one identifier set |
| Federation.AgreementIsStable | scanner-aggregator/src/main.rs:130-172 | peers that agree are unchanged by any further sync |
| Federation.CollideIffAmbiguous | scanner-aggregator/src/main.rs:141-142 | two clusters have different paths under one key exactly when one identifier followed by a colon begins the other |
| Federation.KeysIdentifyIff | scanner-aggregator/src/main.rs:141-142 | over a set of clusters keys identify paths exactly when no identifier followed by a colon begins another |
| Federation.MergeDropsNoPath | scanner-aggregator/src/main.rs:138-143 | with such identifiers a merge keeps an entry for every path stored or received |

## Left out

- Floating-point rounding, NaN and infinities: confidences, scores and samples are exact reals, so a sum that meets a threshold only after rounding in 32 bits is not captured.
- Machine wrap-around: counters are mathematical integers; `CountersFit` bounds those of the graph's edges, the bytes summed over one path and the reliability counters are not bounded.
- EnforcementHistory.EnforcedOnOneIff: the number of events a connection is made up by is read from the graph, because it depends on which parallel edge `find_edge` picks.
- AnomalyDetectors.AnomalyDetector.Detect: leaves out the workload identifier and the wall-clock time of a result; a feature is named by its place, and the square root is a parameter.
- RuntimeAttackGraphs.RuntimeAttackGraph.BuildPathForFinding: leaves out the path's random identifier and its rank, which is always unset here.
- PredictiveRisk.PredictiveRiskEngine.PredictCurrent: only the current score; trend, slope, extrapolations and prediction confidence are not modelled.
- `build_attack_paths`: sorting, ranks, top-K and running metrics over paths, which lean on the library sort.
- `process_connections` and `cve_to_library`, which are written and never read, and update kinds the graph never emits.
- Path summaries.
- `library_matches_package` and the path and command tests: uninterpreted predicates.
- The graph library itself, including its A* search and component analysis in the older graph: petgraph is not part of this model.
- Watchdog, health checks, rate limiter, retry with backoff, and payload formats.
- The rest of the streaming engine: output, escalation reports, graph export, and the payload of the alert that `handle_path_detected` itself raises.
- `FindingStore`, snapshots, and the analysis loop that clears the store after a snapshot.
- `add_path` and `analyze_correlations` of the aggregator, which replace the correlation list with fresh identifiers, and lock ordering.
- eBPF probes, byte parsers, cloud and Kubernetes clients, the REST interface, policies and the remediation service.
