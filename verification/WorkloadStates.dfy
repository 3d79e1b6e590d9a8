/**
 Per-cgroup runtime state, capped in every field, against the unbounded history of events.
 Paths and commands are strings; the string predicates are left uninterpreted.
 */
module WorkloadStates {
  import opened Wrappers

  const MAX_SIGNALS := 1000
  const MAX_SET_ENTRIES := 5000
  const MAX_DATA_BYTES := 1_099_511_627_776

  datatype SignalType = LibraryLoaded | LargeDataTransfer | SensitiveFileAccess | MprotectExec | SuspiciousExec

  datatype RuntimeSignal = RuntimeSignal(kind: SignalType, weight: real, timestampNs: nat, details: string)

  datatype FileKind = Mmap | Open | Mprotect | OtherFile
  datatype NetKind = Connect | Bind | TcpSend | TcpRecv | UdpSend | UdpRecv | OtherNet

  datatype Event =
    | Exec(cgroupId: nat, timestampNs: nat, command: string)
    | File(cgroupId: nat, timestampNs: nat, path: string, fileKind: FileKind)
    | Transfer(cgroupId: nat, timestampNs: nat, flow: string, destination: string, netKind: NetKind, dataSize: u32)

  /** The five capped sets. */
  datatype Field = ObservedPaths | ObservedSyscalls | Commands | NetworkFlows | LoadedLibraries

  datatype WorkloadState = WorkloadState(
    observedPaths: set<string>,
    observedSyscalls: set<string>,
    commands: set<string>,
    networkFlows: set<string>,
    loadedLibraries: set<string>,
    signals: seq<RuntimeSignal>,
    dataTransferredBytes: nat)

  const NEW_WORKLOAD := WorkloadState({}, {}, {}, {}, {}, [], 0)

  datatype Strings = Strings(
    isSharedLibrary: string -> bool,
    isSensitivePath: string -> bool,
    isSuspiciousCommand: string -> bool,
    decimal: nat -> string)

  function Entries(w: WorkloadState, f: Field): set<string> {
    match f
    case ObservedPaths => w.observedPaths
    case ObservedSyscalls => w.observedSyscalls
    case Commands => w.commands
    case NetworkFlows => w.networkFlows
    case LoadedLibraries => w.loadedLibraries
  }

  function CappedInsert(entries: set<string>, value: string): set<string> {
    if |entries| >= MAX_SET_ENTRIES && value !in entries then entries else entries + {value}
  }

  function InsertAll(entries: set<string>, values: seq<string>): set<string> {
    if values == [] then entries
    else CappedInsert(InsertAll(entries, values[..|values| - 1]), values[|values| - 1])
  }

  function PushSignal(signals: seq<RuntimeSignal>, signal: RuntimeSignal): seq<RuntimeSignal> {
    (if |signals| >= MAX_SIGNALS then signals[1..] else signals) + [signal]
  }

  function PushAll(signals: seq<RuntimeSignal>, more: seq<RuntimeSignal>): seq<RuntimeSignal> {
    if more == [] then signals else PushSignal(PushAll(signals, more[..|more| - 1]), more[|more| - 1])
  }

  function FileSyscall(k: FileKind): string {
    match k case Mmap => "mmap" case Open => "openat" case Mprotect => "mprotect" case OtherFile => "unknown"
  }

  function NetSyscall(k: NetKind): string {
    match k
    case Connect => "connect" case Bind => "bind" case TcpSend => "tcp_sendmsg" case TcpRecv => "tcp_recvmsg"
    case UdpSend => "udp_sendmsg" case UdpRecv => "udp_recvmsg" case OtherNet => "unknown"
  }

  function Min(a: nat, b: nat): nat { if a <= b then a else b }

  /** `saturating_add` on 64 bits, then the cap. */
  function AddBytes(total: nat, size: u32): nat { Min(Min(total + size, TWO_TO_64 - 1), MAX_DATA_BYTES) }

  function SuspiciousSignal(e: Event): RuntimeSignal
    requires e.Exec?
  { RuntimeSignal(SuspiciousExec, 1.5, e.timestampNs, "Suspicious command: " + e.command) }

  function LibrarySignal(e: Event): RuntimeSignal
    requires e.File?
  { RuntimeSignal(LibraryLoaded, 2.0, e.timestampNs, "Library loaded: " + e.path) }

  function SensitiveSignal(e: Event): RuntimeSignal
    requires e.File?
  { RuntimeSignal(SensitiveFileAccess, 1.0, e.timestampNs, "Sensitive file: " + e.path) }

  function MprotectSignal(e: Event): RuntimeSignal
    requires e.File?
  { RuntimeSignal(MprotectExec, 1.5, e.timestampNs, "Memory protection changed") }

  function TransferSignal(strings: Strings, e: Event): RuntimeSignal
    requires e.Transfer?
  {
    RuntimeSignal(LargeDataTransfer, 1.5, e.timestampNs,
                  "Large transfer: " + strings.decimal(e.dataSize) + " bytes to " + e.destination)
  }

  function If<T>(b: bool, x: T): seq<T> { if b then [x] else [] }

  /** The signals one event raises. */
  function Raised(strings: Strings, e: Event): seq<RuntimeSignal> {
    match e
    case Exec(_, _, command) => If(strings.isSuspiciousCommand(command), SuspiciousSignal(e))
    case File(_, _, path, kind) =>
      If(kind == Mmap && strings.isSharedLibrary(path), LibrarySignal(e))
      + If(strings.isSensitivePath(path), SensitiveSignal(e))
      + If(kind == Mprotect, MprotectSignal(e))
    case Transfer(_, _, _, _, _, size) => If(size > 1024, TransferSignal(strings, e))
  }

  /** The values one event offers to a set. */
  function Offered(strings: Strings, e: Event, f: Field): seq<string> {
    match (e, f)
    case (Exec(_, _, command), Commands) => [command]
    case (Exec(_, _, _), ObservedSyscalls) => ["execve"]
    case (File(_, _, path, _), ObservedPaths) => [path]
    case (File(_, _, _, kind), ObservedSyscalls) => [FileSyscall(kind)]
    case (File(_, _, path, kind), LoadedLibraries) => If(kind == Mmap && strings.isSharedLibrary(path), path)
    case (Transfer(_, _, flow, _, _, _), NetworkFlows) => [flow]
    case (Transfer(_, _, _, _, kind, _), ObservedSyscalls) => [NetSyscall(kind)]
    case _ => []
  }

  /** What one event does to the workload of its own cgroup. */
  function Apply(strings: Strings, w: WorkloadState, e: Event): WorkloadState {
    WorkloadState(
      InsertAll(w.observedPaths, Offered(strings, e, ObservedPaths)),
      InsertAll(w.observedSyscalls, Offered(strings, e, ObservedSyscalls)),
      InsertAll(w.commands, Offered(strings, e, Commands)),
      InsertAll(w.networkFlows, Offered(strings, e, NetworkFlows)),
      InsertAll(w.loadedLibraries, Offered(strings, e, LoadedLibraries)),
      PushAll(w.signals, Raised(strings, e)),
      if e.Transfer? then AddBytes(w.dataTransferredBytes, e.dataSize) else w.dataTransferredBytes)
  }

  datatype Op = Event(event: Event) | Clear

  function Workload(store: map<nat, WorkloadState>, cgroupId: nat): WorkloadState {
    if cgroupId in store then store[cgroupId] else NEW_WORKLOAD
  }

  function Step(strings: Strings, store: map<nat, WorkloadState>, op: Op): map<nat, WorkloadState> {
    match op
    case Clear => map[]
    case Event(e) => store[e.cgroupId := Apply(strings, Workload(store, e.cgroupId), e)]
  }

  function After(strings: Strings, ops: seq<Op>): map<nat, WorkloadState> {
    if ops == [] then map[] else Step(strings, After(strings, ops[..|ops| - 1]), ops[|ops| - 1])
  }

  lemma InsertOne(entries: set<string>, v: string)
    ensures InsertAll(entries, [v]) == CappedInsert(entries, v)
  {
    assert [v][..0] == [];
  }

  function PushIf(signals: seq<RuntimeSignal>, b: bool, s: RuntimeSignal): seq<RuntimeSignal> {
    if b then PushSignal(signals, s) else signals
  }

  lemma PushOne(signals: seq<RuntimeSignal>, b: bool, s: RuntimeSignal)
    ensures PushAll(signals, If(b, s)) == PushIf(signals, b, s)
  {
    assert [s][..0] == [];
  }

  lemma PushThree(signals: seq<RuntimeSignal>, b: bool, s: RuntimeSignal, c: bool, t: RuntimeSignal, d: bool,
                  u: RuntimeSignal)
    ensures PushAll(signals, If(b, s) + If(c, t) + If(d, u)) == PushIf(PushIf(PushIf(signals, b, s), c, t), d, u)
  {
    PushAllAppend(signals, If(b, s) + If(c, t), If(d, u));
    PushAllAppend(signals, If(b, s), If(c, t));
    PushOne(signals, b, s);
    PushOne(PushIf(signals, b, s), c, t);
    PushOne(PushIf(PushIf(signals, b, s), c, t), d, u);
  }

  lemma ExecApplies(strings: Strings, w: WorkloadState, e: Event)
    requires e.Exec?
    ensures Apply(strings, w, e) ==
      w.(commands := CappedInsert(w.commands, e.command),
         observedSyscalls := CappedInsert(w.observedSyscalls, "execve"),
         signals := PushIf(w.signals, strings.isSuspiciousCommand(e.command), SuspiciousSignal(e)))
  {
    InsertOne(w.commands, e.command);
    InsertOne(w.observedSyscalls, "execve");
    PushOne(w.signals, strings.isSuspiciousCommand(e.command), SuspiciousSignal(e));
  }

  lemma FileApplies(strings: Strings, w: WorkloadState, e: Event)
    requires e.File?
    ensures var isLoad := e.fileKind == Mmap && strings.isSharedLibrary(e.path);
      Apply(strings, w, e) ==
      w.(observedPaths := CappedInsert(w.observedPaths, e.path),
         observedSyscalls := CappedInsert(w.observedSyscalls, FileSyscall(e.fileKind)),
         loadedLibraries := if isLoad then CappedInsert(w.loadedLibraries, e.path) else w.loadedLibraries,
         signals := PushIf(PushIf(PushIf(w.signals, isLoad, LibrarySignal(e)), strings.isSensitivePath(e.path),
           SensitiveSignal(e)),
                           e.fileKind == Mprotect, MprotectSignal(e)))
  {
    InsertOne(w.observedPaths, e.path);
    InsertOne(w.observedSyscalls, FileSyscall(e.fileKind));
    InsertOne(w.loadedLibraries, e.path);
    PushThree(w.signals, e.fileKind == Mmap && strings.isSharedLibrary(e.path), LibrarySignal(e),
              strings.isSensitivePath(e.path), SensitiveSignal(e), e.fileKind == Mprotect, MprotectSignal(e));
  }

  lemma TransferApplies(strings: Strings, w: WorkloadState, e: Event)
    requires e.Transfer?
    ensures Apply(strings, w, e) ==
      w.(networkFlows := CappedInsert(w.networkFlows, e.flow),
         observedSyscalls := CappedInsert(w.observedSyscalls, NetSyscall(e.netKind)),
         dataTransferredBytes := AddBytes(w.dataTransferredBytes, e.dataSize),
         signals := PushIf(w.signals, e.dataSize > 1024, TransferSignal(strings, e)))
  {
    InsertOne(w.networkFlows, e.flow);
    InsertOne(w.observedSyscalls, NetSyscall(e.netKind));
    PushOne(w.signals, e.dataSize > 1024, TransferSignal(strings, e));
  }

  lemma {:induction false} PushAllAppend(signals: seq<RuntimeSignal>, a: seq<RuntimeSignal>, b: seq<RuntimeSignal>)
    ensures PushAll(signals, a + b) == PushAll(PushAll(signals, a), b)
  {
    if b == [] {
      assert a + b == a;
    } else {
      assert (a + b)[..|a + b| - 1] == a + b[..|b| - 1];
      PushAllAppend(signals, a, b[..|b| - 1]);
    }
  }

  class StateStore {
    const strings: Strings
    var byCgroup: map<nat, WorkloadState>

    constructor (strings: Strings)
      ensures this.strings == strings && byCgroup == map[]
    {
      this.strings, byCgroup := strings, map[];
    }

    method ApplyExec(e: Event)
      requires e.Exec?
      modifies this
      ensures byCgroup == Step(strings, old(byCgroup), Op.Event(e))
    {
      var entry := Workload(byCgroup, e.cgroupId);
      entry := entry.(commands := CappedInsert(entry.commands, e.command));
      entry := entry.(observedSyscalls := CappedInsert(entry.observedSyscalls, "execve"));
      if strings.isSuspiciousCommand(e.command) {
        entry := entry.(signals := PushSignal(entry.signals, SuspiciousSignal(e)));
      }
      ExecApplies(strings, Workload(byCgroup, e.cgroupId), e);
      byCgroup := byCgroup[e.cgroupId := entry];
    }

    method ApplyFile(e: Event)
      requires e.File?
      modifies this
      ensures byCgroup == Step(strings, old(byCgroup), Op.Event(e))
    {
      var entry := Workload(byCgroup, e.cgroupId);
      var isLoad := e.fileKind == Mmap && strings.isSharedLibrary(e.path);
      var libraries := if isLoad then CappedInsert(entry.loadedLibraries, e.path) else entry.loadedLibraries;
      var signals := RaiseFileSignals(entry.signals, e, isLoad);
      FileApplies(strings, entry, e);
      entry := entry.(observedPaths := CappedInsert(entry.observedPaths, e.path),
                      observedSyscalls := CappedInsert(entry.observedSyscalls, FileSyscall(e.fileKind)),
                      loadedLibraries := libraries, signals := signals);
      byCgroup := byCgroup[e.cgroupId := entry];
    }

    /** The three signals a file event can raise, in order. */
    method RaiseFileSignals(before: seq<RuntimeSignal>, e: Event, isLoad: bool) returns (signals: seq<RuntimeSignal>)
      requires e.File?
      ensures signals ==
        PushIf(PushIf(PushIf(before, isLoad, LibrarySignal(e)), strings.isSensitivePath(e.path), SensitiveSignal(e)),
                                e.fileKind == Mprotect, MprotectSignal(e))
    {
      signals := before;
      if isLoad { signals := PushSignal(signals, LibrarySignal(e)); }
      if strings.isSensitivePath(e.path) { signals := PushSignal(signals, SensitiveSignal(e)); }
      if e.fileKind == Mprotect { signals := PushSignal(signals, MprotectSignal(e)); }
    }

    method ApplyNet(e: Event)
      requires e.Transfer?
      modifies this
      ensures byCgroup == Step(strings, old(byCgroup), Op.Event(e))
    {
      var entry := Workload(byCgroup, e.cgroupId);
      entry := entry.(networkFlows := CappedInsert(entry.networkFlows, e.flow));
      entry := entry.(observedSyscalls := CappedInsert(entry.observedSyscalls, NetSyscall(e.netKind)));
      entry := entry.(dataTransferredBytes := AddBytes(entry.dataTransferredBytes, e.dataSize));
      if e.dataSize > 1024 {
        entry := entry.(signals := PushSignal(entry.signals, TransferSignal(strings, e)));
      }
      TransferApplies(strings, Workload(byCgroup, e.cgroupId), e);
      byCgroup := byCgroup[e.cgroupId := entry];
    }

    method ClearAll()
      modifies this
      ensures byCgroup == Step(strings, old(byCgroup), Clear)
    {
      byCgroup := map[];
    }
  }

  // ---- the unbounded history of one cgroup -------------------------------------------------

  /** The events of a cgroup since the store was last cleared. */
  function OwnEvents(ops: seq<Op>, cgroupId: nat): seq<Event> {
    if ops == [] then []
    else
      match ops[|ops| - 1]
      case Clear => []
      case Event(e) => OwnEvents(ops[..|ops| - 1], cgroupId) + if e.cgroupId == cgroupId then [e] else []
  }

  function BytesOf(events: seq<Event>): nat {
    if events == [] then 0
    else
      var e := events[|events| - 1];
      BytesOf(events[..|events| - 1]) + if e.Transfer? then e.dataSize else 0
  }

  function SignalLog(strings: Strings, events: seq<Event>): seq<RuntimeSignal> {
    if events == [] then [] else SignalLog(strings, events[..|events| - 1]) + Raised(strings, events[|events| - 1])
  }

  function OfferedLog(strings: Strings, events: seq<Event>, f: Field): seq<string> {
    if events == [] then []
    else OfferedLog(strings, events[..|events| - 1], f) + Offered(strings, events[|events| - 1], f)
  }

  /** Distinct values in order of first arrival. */
  function Distinct(values: seq<string>): seq<string> {
    if values == [] then []
    else
      var before, v := Distinct(values[..|values| - 1]), values[|values| - 1];
      if v in before then before else before + [v]
  }

  function Take<T>(s: seq<T>, n: nat): seq<T> { if |s| <= n then s else s[..n] }
  function Elements(s: seq<string>): set<string> { set x | x in s }

  lemma {:induction false} DistinctIsDistinct(values: seq<string>)
    ensures forall i, j | 0 <= i < j < |Distinct(values)| :: Distinct(values)[i] != Distinct(values)[j]
    ensures forall x :: x in Distinct(values) <==> x in values
  {
    if values != [] {
      var init, v := values[..|values| - 1], values[|values| - 1];
      DistinctIsDistinct(init);
      assert values == init + [v];
    }
  }

  lemma {:induction false} ElementsSize(s: seq<string>)
    requires forall i, j | 0 <= i < j < |s| :: s[i] != s[j]
    ensures |Elements(s)| == |s|
  {
    if s != [] {
      var init, v := s[..|s| - 1], s[|s| - 1];
      ElementsSize(init);
      assert Elements(s) == Elements(init) + {v};
    }
  }

  ghost function FirstDistinct(values: seq<string>): set<string> { Elements(Take(Distinct(values), 5000)) }

  /** Inserting one more offered value keeps the set equal to the first distinct ones. */
  lemma CappedKeepsFirst(values: seq<string>, v: string)
    ensures CappedInsert(FirstDistinct(values), v) == FirstDistinct(values + [v])
  {
    var d := Distinct(values);
    DistinctIsDistinct(values);
    assert (values + [v])[..|values|] == values;
    ElementsSize(Take(d, MAX_SET_ENTRIES));
    if v in d {
      CappedInsertKnown(d, v);
    } else if |d| < MAX_SET_ENTRIES {
      assert Elements(d + [v]) == Elements(d) + {v};
    } else {
      assert Take(d + [v], MAX_SET_ENTRIES) == Take(d, MAX_SET_ENTRIES);
    }
  }

  lemma CappedInsertKnown(d: seq<string>, v: string)
    requires v in d && |Elements(Take(d, MAX_SET_ENTRIES))| == |Take(d, MAX_SET_ENTRIES)|
    ensures CappedInsert(Elements(Take(d, MAX_SET_ENTRIES)), v) == Elements(Take(d, MAX_SET_ENTRIES))
  {
    var first := Elements(Take(d, MAX_SET_ENTRIES));
    if v in first { assert first + {v} == first; }
  }

  lemma {:induction false} InsertAllKeepsFirst(values: seq<string>, more: seq<string>)
    ensures InsertAll(FirstDistinct(values), more) == FirstDistinct(values + more)
  {
    if more == [] {
      assert values + more == values;
    } else {
      var init, v := more[..|more| - 1], more[|more| - 1];
      InsertAllKeepsFirst(values, init);
      CappedKeepsFirst(values + init, v);
      assert values + init + [v] == values + more;
    }
  }

  lemma {:induction false} PushAllKeepsLast(log: seq<RuntimeSignal>, more: seq<RuntimeSignal>)
    ensures PushAll(LastOf(log, MAX_SIGNALS), more) == LastOf(log + more, MAX_SIGNALS)
  {
    if more == [] {
      assert log + more == log;
    } else {
      var init, v := more[..|more| - 1], more[|more| - 1];
      PushAllKeepsLast(log, init);
      assert log + more == (log + init) + [v];
      PushKeepsLast(log + init, v);
    }
  }

  lemma PushKeepsLast(log: seq<RuntimeSignal>, signal: RuntimeSignal)
    ensures PushSignal(LastOf(log, MAX_SIGNALS), signal) == LastOf(log + [signal], MAX_SIGNALS)
  {
  }

  /** The capped state is a window onto the unbounded history. */
  ghost predicate Refines(strings: Strings, w: WorkloadState, events: seq<Event>) {
    && w.dataTransferredBytes == (if BytesOf(events) <= 1_099_511_627_776 then BytesOf(events) else 1_099_511_627_776)
    && w.signals == LastOf(SignalLog(strings, events), 1000)
    && forall f :: Entries(w, f) == FirstDistinct(OfferedLog(strings, events, f))
  }

  lemma ApplyRefines(strings: Strings, w: WorkloadState, events: seq<Event>, e: Event)
    requires Refines(strings, w, events)
    ensures Refines(strings, Apply(strings, w, e), events + [e])
  {
    var more := events + [e];
    assert more[..|events|] == events;
    PushAllKeepsLast(SignalLog(strings, events), Raised(strings, e));
    forall f: Field ensures Entries(Apply(strings, w, e), f) == FirstDistinct(OfferedLog(strings, more, f)) {
      EntriesOfApply(strings, w, e, f);
      InsertAllKeepsFirst(OfferedLog(strings, events, f), Offered(strings, e, f));
      assert OfferedLog(strings, more, f) == OfferedLog(strings, events, f) + Offered(strings, e, f);
    }
  }

  lemma EntriesOfApply(strings: Strings, w: WorkloadState, e: Event, f: Field)
    ensures Entries(Apply(strings, w, e), f) == InsertAll(Entries(w, f), Offered(strings, e, f))
  {
  }

  /**
   After any interleaving of events of all cgroups, the entry of a cgroup depends on its own events
   since the last clear only: bytes are their sum up to the cap, signals the last thousand raised,
   each set the first five thousand distinct values offered, in arrival order.
   */
  lemma {:induction false} BoundedStateRefinesHistory(strings: Strings, ops: seq<Op>, cgroupId: nat)
    ensures Refines(strings, Workload(After(strings, ops), cgroupId), OwnEvents(ops, cgroupId))
    ensures cgroupId in After(strings, ops) <==> OwnEvents(ops, cgroupId) != []
  {
    if ops == [] {
    } else {
      var init := ops[..|ops| - 1];
      match ops[|ops| - 1]
      case Clear =>
      case Event(e) =>
        BoundedStateRefinesHistory(strings, init, cgroupId);
        if e.cgroupId == cgroupId {
          ApplyRefines(strings, Workload(After(strings, init), cgroupId), OwnEvents(init, cgroupId), e);
        } else {
          assert OwnEvents(init, cgroupId) + [] == OwnEvents(init, cgroupId);
        }
    }
  }

  // ---- what the log of values and signals says ---------------------------------------------

  /** The event offers the value to the set. */
  predicate Brings(strings: Strings, e: Event, f: Field, x: string) {
    match f
    case ObservedPaths => e.File? && e.path == x
    case Commands => e.Exec? && e.command == x
    case NetworkFlows => e.Transfer? && e.flow == x
    case LoadedLibraries => e.File? && e.fileKind == Mmap && strings.isSharedLibrary(e.path) && e.path == x
    case ObservedSyscalls =>
      || (e.Exec? && x == "execve")
      || (e.File? &&
        (e.fileKind, x) in {(Mmap, "mmap"), (Open, "openat"), (Mprotect, "mprotect"), (OtherFile, "unknown")})
      || (e.Transfer? && (e.netKind, x) in {(Connect, "connect"), (Bind, "bind"), (TcpSend, "tcp_sendmsg"),
                                            (TcpRecv, "tcp_recvmsg"), (UdpSend, "udp_sendmsg"),
                                            (UdpRecv, "udp_recvmsg"), (OtherNet, "unknown")})
  }

  lemma OfferedIsBrought(strings: Strings, e: Event, f: Field, x: string)
    ensures x in Offered(strings, e, f) <==> Brings(strings, e, f, x)
  {
    match f
    case ObservedSyscalls =>
      match e { case Exec(_, _, _) => case File(_, _, _, _) => case Transfer(_, _, _, _, _, _) => }
    case _ =>
  }

  lemma {:induction false} OfferedLogIsBrought(strings: Strings, events: seq<Event>, f: Field, x: string)
    ensures x in OfferedLog(strings, events, f) <==> exists e :: e in events && Brings(strings, e, f, x)
  {
    if events != [] {
      var init, last := events[..|events| - 1], events[|events| - 1];
      OfferedLogIsBrought(strings, init, f, x);
      OfferedIsBrought(strings, last, f, x);
      assert events == init + [last];
    }
  }

  /**
   A set of a cgroup holds only what its own events since the last clear brought; below five thousand
   entries it holds all of it.
   */
  lemma EntriesAreBrought(strings: Strings, ops: seq<Op>, cgroupId: nat, f: Field, x: string)
    ensures var entries, events := Entries(Workload(After(strings, ops), cgroupId), f), OwnEvents(ops, cgroupId);
      && (x in entries ==> exists e :: e in events && Brings(strings, e, f, x))
      && (|entries| < 5000 && (exists e :: e in events && Brings(strings, e, f, x)) ==> x in entries)
  {
    var values := OfferedLog(strings, OwnEvents(ops, cgroupId), f);
    BoundedStateRefinesHistory(strings, ops, cgroupId);
    OfferedLogIsBrought(strings, OwnEvents(ops, cgroupId), f, x);
    DistinctIsDistinct(values);
    ElementsSize(Take(Distinct(values), 5000));
  }

  /** The event raises the signal. */
  predicate Raises(strings: Strings, e: Event, s: RuntimeSignal) {
    && s.timestampNs == e.timestampNs
    && match s.kind
       case SuspiciousExec =>
         && e.Exec? && strings.isSuspiciousCommand(e.command)
         && s.weight == 1.5 && s.details == "Suspicious command: " + e.command
       case LibraryLoaded =>
         && e.File? && e.fileKind == Mmap && strings.isSharedLibrary(e.path)
         && s.weight == 2.0 && s.details == "Library loaded: " + e.path
       case SensitiveFileAccess =>
         && e.File? && strings.isSensitivePath(e.path)
         && s.weight == 1.0 && s.details == "Sensitive file: " + e.path
       case MprotectExec =>
         e.File? && e.fileKind == Mprotect && s.weight == 1.5 && s.details == "Memory protection changed"
       case LargeDataTransfer =>
         && e.Transfer? && e.dataSize > 1024 && s.weight == 1.5
         && s.details == "Large transfer: " + strings.decimal(e.dataSize) + " bytes to " + e.destination
  }

  /** The place of a kind of signal among those of one event. */
  function Rank(k: SignalType): nat {
    match k case LibraryLoaded => 0 case SensitiveFileAccess => 1 case MprotectExec => 2 case _ => 3
  }

  /** One event raises each of its signals once, a library load before a sensitive file before a protection change. */
  lemma RaisedExactly(strings: Strings, e: Event)
    ensures forall s :: s in Raised(strings, e) <==> Raises(strings, e, s)
    ensures forall i, j | 0 <= i < j < |Raised(strings, e)| ::
      Rank(Raised(strings, e)[i].kind) < Rank(Raised(strings, e)[j].kind)
  {
  }

  /** The signals a cgroup shows were raised by its own events since the last clear; below a thousand, they are all. */
  lemma SignalsAreRaised(strings: Strings, ops: seq<Op>, cgroupId: nat, s: RuntimeSignal)
    ensures var signals, events := Workload(After(strings, ops), cgroupId).signals, OwnEvents(ops, cgroupId);
      && (s in signals ==> RaisedBySome(strings, events, s))
      && (|signals| < 1000 && RaisedBySome(strings, events, s) ==> s in signals)
  {
    BoundedStateRefinesHistory(strings, ops, cgroupId);
    SignalLogIsRaised(strings, OwnEvents(ops, cgroupId), s);
  }

  lemma RaisedIff(strings: Strings, e: Event, s: RuntimeSignal)
    ensures s in Raised(strings, e) <==> Raises(strings, e, s)
  {
    RaisedExactly(strings, e);
  }

  predicate RaisedBySome(strings: Strings, events: seq<Event>, s: RuntimeSignal) {
    exists i | 0 <= i < |events| :: Raises(strings, events[i], s)
  }

  lemma RaisedBySomeOneMore(strings: Strings, events: seq<Event>, s: RuntimeSignal)
    requires events != []
    ensures RaisedBySome(strings, events, s) <==>
      RaisedBySome(strings, events[..|events| - 1], s) || Raises(strings, events[|events| - 1], s)
  {
    var n := |events| - 1;
    assert forall i | 0 <= i < n :: events[..n][i] == events[i];
  }

  lemma {:induction false} SignalLogIsRaised(strings: Strings, events: seq<Event>, s: RuntimeSignal)
    ensures s in SignalLog(strings, events) <==> RaisedBySome(strings, events, s)
  {
    if events != [] {
      SignalLogIsRaised(strings, events[..|events| - 1], s);
      RaisedIff(strings, events[|events| - 1], s);
      RaisedBySomeOneMore(strings, events, s);
    }
  }
}
