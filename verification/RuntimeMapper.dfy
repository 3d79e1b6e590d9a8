/**
 Runtime events mapped to vulnerabilities: a per-library cache that must agree with a rescan, and
 per-process vulnerability lists that must agree with the libraries the process loaded.
 */
module RuntimeMappers {
  datatype Vulnerability = Vulnerability(package: string, cve: string)

  datatype Connection = Connection(destination: string, port: nat, protocol: string)

  datatype ProcessState = ProcessState(command: string, loadedLibs: set<string>, connections: seq<Connection>,
                                       vulnerabilities: seq<Vulnerability>)

  /** String functions left uninterpreted, and the order in which the package map lists its keys. */
  datatype Strings = Strings(
    lowercase: string -> string,
    matches: (string, string) -> bool,
    isSharedLibrary: string -> bool,
    ordered: set<string> -> seq<string>)

  ghost predicate Sound(strings: Strings) {
    && (forall keys, k :: k in strings.ordered(keys) <==> k in keys)
    && (forall keys :: NoRepeats(strings.ordered(keys)))
  }

  datatype Mapper = Mapper(
    processes: map<nat, ProcessState>,
    libVulns: map<string, seq<Vulnerability>>,
    packageVulns: map<string, seq<Vulnerability>>)

  const EMPTY := Mapper(map[], map[], map[])

  function At(m: map<string, seq<Vulnerability>>, key: string): seq<Vulnerability> { if key in m then m[key] else [] }

  /** Vulnerabilities grouped under the lower-cased package name. */
  function Grouped(strings: Strings, vulns: seq<Vulnerability>): map<string, seq<Vulnerability>> {
    if vulns == [] then map[]
    else
      var before, v := Grouped(strings, vulns[..|vulns| - 1]), vulns[|vulns| - 1];
      before[strings.lowercase(v.package) := At(before, strings.lowercase(v.package)) + [v]]
  }

  function Matching(strings: Strings, path: string, vulns: seq<Vulnerability>): seq<Vulnerability> {
    if vulns == [] then []
    else
      var before, v := Matching(strings, path, vulns[..|vulns| - 1]), vulns[|vulns| - 1];
      if strings.matches(path, v.package) then before + [v] else before
  }

  function Flatten(packageVulns: map<string, seq<Vulnerability>>, keys: seq<string>): seq<Vulnerability> {
    if keys == [] then [] else Flatten(packageVulns, keys[..|keys| - 1]) + At(packageVulns, keys[|keys| - 1])
  }

  /** A fresh scan of a library against everything currently known. */
  function Scan(strings: Strings, packageVulns: map<string, seq<Vulnerability>>, path: string): seq<Vulnerability> {
    Matching(strings, path, Flatten(packageVulns, strings.ordered(packageVulns.Keys)))
  }

  datatype Op =
    | SetVulnerabilities(vulns: seq<Vulnerability>)
    | Exec(pid: nat, command: string)
    | File(pid: nat, path: string, isMmap: bool)
    | Connect(pid: nat, destination: string, port: nat, protocol: nat)
    | Remove(pid: nat)

  function NewConnection(destination: string, port: nat, protocol: nat): Connection {
    Connection(destination, port, if protocol == 6 then "TCP" else "UDP")
  }

  predicate LoadsLibrary(strings: Strings, op: Op) { op.File? && op.isMmap && strings.isSharedLibrary(op.path) }

  function Step(strings: Strings, m: Mapper, op: Op): Mapper {
    match op
    case SetVulnerabilities(vulns) => m.(packageVulns := Grouped(strings, vulns), libVulns := map[])
    case Exec(pid, command) => m.(processes := m.processes[pid := ProcessState(command, {}, [], [])])
    case File(pid, path, _) =>
      if LoadsLibrary(strings, op) && pid in m.processes then
        var vulns := if path in m.libVulns then m.libVulns[path] else Scan(strings, m.packageVulns, path);
        var p := m.processes[pid];
        m.(libVulns := m.libVulns[path := vulns],
           processes := m.processes[pid := p.(loadedLibs := p.loadedLibs + {path},
                                              vulnerabilities := p.vulnerabilities + vulns)])
      else m
    case Connect(pid, destination, port, protocol) =>
      if (port == 443 || port == 80) && pid in m.processes then
        var p := m.processes[pid];
        m.(processes := m.processes[pid := p.(connections := p.connections +
          [NewConnection(destination, port, protocol)])])
      else m
    case Remove(pid) => m.(processes := m.processes - {pid})
  }

  function After(strings: Strings, ops: seq<Op>): Mapper {
    if ops == [] then EMPTY else Step(strings, After(strings, ops[..|ops| - 1]), ops[|ops| - 1])
  }

  class RuntimeMapper {
    const strings: Strings
    var processes: map<nat, ProcessState>
    var libVulns: map<string, seq<Vulnerability>>
    var packageVulns: map<string, seq<Vulnerability>>

    function State(): Mapper
      reads this
    {
      Mapper(processes, libVulns, packageVulns)
    }

    constructor (strings: Strings)
      ensures this.strings == strings && State() == EMPTY
    {
      this.strings := strings;
      processes, libVulns, packageVulns := map[], map[], map[];
    }

    method LoadVulnerabilities(vulns: seq<Vulnerability>)
      modifies this
      ensures State() == Step(strings, old(State()), SetVulnerabilities(vulns))
    {
      packageVulns := map[];
      for i := 0 to |vulns|
        invariant packageVulns == Grouped(strings, vulns[..i])
        invariant processes == old(processes)
      {
        assert vulns[..i + 1][..i] == vulns[..i];
        var key := strings.lowercase(vulns[i].package);
        packageVulns := packageVulns[key := At(packageVulns, key) + [vulns[i]]];
      }
      assert vulns[..|vulns|] == vulns;
      libVulns := map[];
    }

    method HandleExec(pid: nat, command: string)
      modifies this
      ensures State() == Step(strings, old(State()), Exec(pid, command))
    {
      processes := processes[pid := ProcessState(command, {}, [], [])];
    }

    method HandleFile(pid: nat, path: string, isMmap: bool)
      modifies this
      ensures State() == Step(strings, old(State()), File(pid, path, isMmap))
    {
      if !isMmap || !strings.isSharedLibrary(path) { return; }
      if pid in processes {
        var p := processes[pid];
        processes := processes[pid := p.(loadedLibs := p.loadedLibs + {path})];
        var vulns;
        if path !in libVulns {
          vulns := ScanLibrary(path);
          libVulns := libVulns[path := vulns];
        } else {
          vulns := libVulns[path];
        }
        p := processes[pid];
        processes := processes[pid := p.(vulnerabilities := p.vulnerabilities + vulns)];
      }
    }

    method ScanLibrary(path: string) returns (vulns: seq<Vulnerability>)
      ensures vulns == Scan(strings, packageVulns, path)
    {
      vulns := Matching(strings, path, Flatten(packageVulns, strings.ordered(packageVulns.Keys)));
    }

    method HandleNetwork(pid: nat, destination: string, port: nat, protocol: nat)
      modifies this
      ensures State() == Step(strings, old(State()), Connect(pid, destination, port, protocol))
    {
      if port == 443 || port == 80 {
        if pid in processes {
          var p := processes[pid];
          processes := processes[pid := p.(connections := p.connections +
            [NewConnection(destination, port, protocol)])];
        }
      }
    }

    method RemoveProcess(pid: nat)
      modifies this
      ensures State() == Step(strings, old(State()), Remove(pid))
    {
      processes := processes - {pid};
    }
  }

  // ---- a scan finds exactly the matching vulnerabilities -----------------------------------

  lemma {:induction false} MatchingExactly(strings: Strings, path: string, vulns: seq<Vulnerability>, v: Vulnerability)
    ensures v in Matching(strings, path, vulns) <==> v in vulns && strings.matches(path, v.package)
  {
    if vulns != [] {
      var init, last := vulns[..|vulns| - 1], vulns[|vulns| - 1];
      assert vulns == init + [last];
      MatchingExactly(strings, path, init, v);
    }
  }

  lemma {:induction false} FlattenExactly(packageVulns: map<string, seq<Vulnerability>>, keys: seq<string>,
                                          v: Vulnerability)
    ensures v in Flatten(packageVulns, keys) <==> exists k :: k in keys && v in At(packageVulns, k)
  {
    if keys != [] {
      var init, last := keys[..|keys| - 1], keys[|keys| - 1];
      assert keys == init + [last];
      FlattenExactly(packageVulns, init, v);
    }
  }

  lemma {:induction false} GroupedExactly(strings: Strings, vulns: seq<Vulnerability>, v: Vulnerability)
    ensures v in vulns <==> exists k :: k in Grouped(strings, vulns) && v in Grouped(strings, vulns)[k]
  {
    if vulns != [] {
      var init, last := vulns[..|vulns| - 1], vulns[|vulns| - 1];
      var before, after, key := Grouped(strings, init), Grouped(strings, vulns), strings.lowercase(last.package);
      assert vulns == init + [last];
      GroupedExactly(strings, init, v);
      assert after[key] == At(before, key) + [last];
      if v in init {
        var k :| k in before && v in before[k];
        assert k in after && v in after[k];
      }
      if v == last { assert v in after[key]; }
    }
  }

  lemma ScanExactly(strings: Strings, vulns: seq<Vulnerability>, path: string, v: Vulnerability)
    requires Sound(strings)
    ensures v in Scan(strings, Grouped(strings, vulns), path) <==> v in vulns && strings.matches(path, v.package)
  {
    var grouped := Grouped(strings, vulns);
    MatchingExactly(strings, path, Flatten(grouped, strings.ordered(grouped.Keys)), v);
    FlattenExactly(grouped, strings.ordered(grouped.Keys), v);
    GroupedExactly(strings, vulns, v);
  }

  // ---- coherence over every run ------------------------------------------------------------

  /** The vulnerabilities given last. */
  function Known(ops: seq<Op>): seq<Vulnerability> {
    if ops == [] then []
    else if ops[|ops| - 1].SetVulnerabilities? then ops[|ops| - 1].vulns
    else Known(ops[..|ops| - 1])
  }

  /** The process was started, and not removed, since the vulnerabilities were last given. */
  predicate StartedSince(ops: seq<Op>, pid: nat) {
    if ops == [] then false
    else
      match ops[|ops| - 1]
      case SetVulnerabilities(_) => false
      case Exec(p, _) => p == pid || StartedSince(ops[..|ops| - 1], pid)
      case Remove(p) => p != pid && StartedSince(ops[..|ops| - 1], pid)
      case _ => StartedSince(ops[..|ops| - 1], pid)
  }

  /** The libraries a process mapped since it was started. */
  function Mapped(strings: Strings, ops: seq<Op>, pid: nat): set<string> {
    if ops == [] then {}
    else
      var op, before := ops[|ops| - 1], Mapped(strings, ops[..|ops| - 1], pid);
      if op.Exec? && op.pid == pid then {}
      else if LoadsLibrary(strings, op) && op.pid == pid then before + {op.path}
      else before
  }

  ghost predicate CacheCoherent(strings: Strings, m: Mapper) {
    forall path | path in m.libVulns :: m.libVulns[path] == Scan(strings, m.packageVulns, path)
  }

  lemma StepKeepsCoherent(strings: Strings, m: Mapper, op: Op)
    requires CacheCoherent(strings, m)
    ensures CacheCoherent(strings, Step(strings, m, op))
  {
  }

  /** Every cached entry is what a fresh scan of the vulnerabilities given last would return. */
  lemma {:induction false} CacheEqualsRescan(strings: Strings, ops: seq<Op>)
    ensures CacheCoherent(strings, After(strings, ops))
    ensures After(strings, ops).packageVulns == Grouped(strings, Known(ops))
  {
    if ops != [] {
      CacheEqualsRescan(strings, ops[..|ops| - 1]);
      StepKeepsCoherent(strings, After(strings, ops[..|ops| - 1]), ops[|ops| - 1]);
    }
  }

  /** Some library in the set matches the vulnerability's package. */
  predicate Hits(strings: Strings, libs: set<string>, v: Vulnerability) {
    exists path :: path in libs && strings.matches(path, v.package)
  }

  ghost predicate Explained(strings: Strings, p: ProcessState, known: seq<Vulnerability>) {
    forall v :: v in p.vulnerabilities <==> v in known && Hits(strings, p.loadedLibs, v)
  }

  lemma LoadKeepsExplained(strings: Strings, m: Mapper, op: Op, known: seq<Vulnerability>)
    requires Sound(strings) && CacheCoherent(strings, m) && m.packageVulns == Grouped(strings, known)
    requires LoadsLibrary(strings, op) && op.pid in m.processes && Explained(strings, m.processes[op.pid], known)
    ensures Explained(strings, Step(strings, m, op).processes[op.pid], known)
  {
    var p, p' := m.processes[op.pid], Step(strings, m, op).processes[op.pid];
    forall v ensures v in p'.vulnerabilities <==> v in known && Hits(strings, p'.loadedLibs, v) {
      ScanExactly(strings, known, op.path, v);
      assert Hits(strings, p'.loadedLibs, v) <==>
        Hits(strings, p.loadedLibs, v) || strings.matches(op.path, v.package) by {
        assert op.path in p'.loadedLibs;
        if path :| path in p.loadedLibs && strings.matches(path, v.package) { assert path in p'.loadedLibs; }
      }
    }
  }

  /**
   A process started since the vulnerabilities were last given lists exactly those of them that
   match some library it mapped.
   */
  lemma {:induction false} VulnerabilitiesAreExplained(strings: Strings, ops: seq<Op>, pid: nat)
    requires Sound(strings) && StartedSince(ops, pid)
    ensures pid in After(strings, ops).processes
    ensures After(strings, ops).processes[pid].loadedLibs == Mapped(strings, ops, pid)
    ensures Explained(strings, After(strings, ops).processes[pid], Known(ops))
  {
    var init, op := ops[..|ops| - 1], ops[|ops| - 1];
    if !(op.Exec? && op.pid == pid) {
      VulnerabilitiesAreExplained(strings, init, pid);
      CacheEqualsRescan(strings, init);
      if LoadsLibrary(strings, op) && op.pid == pid {
        LoadKeepsExplained(strings, After(strings, init), op, Known(init));
      }
    }
  }

  // ---- exactly what any live process holds -------------------------------------------------

  /** The process was started, and not removed since. */
  predicate Live(ops: seq<Op>, pid: nat) {
    ops != [] &&
    match ops[|ops| - 1]
    case Exec(p, _) => p == pid || Live(ops[..|ops| - 1], pid)
    case Remove(p) => p != pid && Live(ops[..|ops| - 1], pid)
    case _ => Live(ops[..|ops| - 1], pid)
  }

  /** Operation `i` loads a library into the process, which is not started again later. */
  predicate LoadedSince(strings: Strings, ops: seq<Op>, pid: nat, i: nat) {
    && i < |ops| && LoadsLibrary(strings, ops[i]) && ops[i].pid == pid
    && forall k | i < k < |ops| :: !(ops[k].Exec? && ops[k].pid == pid)
  }

  /** The vulnerability matched a library the process mapped, in the list that was known at that moment. */
  predicate FoundAt(strings: Strings, ops: seq<Op>, pid: nat, v: Vulnerability, i: nat) {
    LoadedSince(strings, ops, pid, i) && v in Known(ops[..i]) && strings.matches(ops[i].path, v.package)
  }

  lemma FoundOneMore(strings: Strings, ops: seq<Op>, pid: nat, v: Vulnerability)
    requires ops != []
    ensures var n := |ops| - 1;
      (exists i: nat :: FoundAt(strings, ops, pid, v, i)) <==>
        FoundAt(strings, ops, pid, v, n) ||
        (!(ops[n].Exec? && ops[n].pid == pid) && exists i: nat :: FoundAt(strings, ops[..n], pid, v, i))
  {
    var n := |ops| - 1;
    forall i: nat | i < n
      ensures FoundAt(strings, ops, pid, v, i) <==>
        !(ops[n].Exec? && ops[n].pid == pid) && FoundAt(strings, ops[..n], pid, v, i)
    {
      assert ops[..n][..i] == ops[..i];
    }
  }

  /**
   A live process lists exactly the vulnerabilities that matched some library it mapped since it was
   started, each against the list known when the library was mapped, whatever list came since.
   */
  lemma {:induction false} VulnerabilitiesFoundWhenMapped(strings: Strings, ops: seq<Op>, pid: nat, v: Vulnerability)
    requires Sound(strings)
    ensures pid in After(strings, ops).processes <==> Live(ops, pid)
    ensures Live(ops, pid) ==>
      (v in After(strings, ops).processes[pid].vulnerabilities <==> exists i: nat :: FoundAt(strings, ops, pid, v, i))
  {
    if ops != [] {
      var n := |ops| - 1;
      VulnerabilitiesFoundWhenMapped(strings, ops[..n], pid, v);
      FoundOneMore(strings, ops, pid, v);
      if LoadsLibrary(strings, ops[n]) && ops[n].pid == pid {
        CacheEqualsRescan(strings, ops[..n]);
        ScanExactly(strings, Known(ops[..n]), ops[n].path, v);
      }
    }
  }

  /** A run in which a process keeps what an earlier list gave it, so that it is not explained by the list in force. */
  lemma OlderProcessKeepsOldFindings(strings: Strings, pid: nat, command: string, path: string, v: Vulnerability)
    requires Sound(strings) && strings.isSharedLibrary(path) && strings.matches(path, v.package)
    ensures var ops := [SetVulnerabilities([v]), Exec(pid, command), File(pid, path, true), SetVulnerabilities([])];
      && pid in After(strings, ops).processes && v in After(strings, ops).processes[pid].vulnerabilities
      && !Explained(strings, After(strings, ops).processes[pid], Known(ops))
  {
    var ops := [SetVulnerabilities([v]), Exec(pid, command), File(pid, path, true), SetVulnerabilities([])];
    assert ops[..3][..2] == ops[..2] && ops[..2][..1] == ops[..1];
    assert Known(ops[..1]) == [v] && Known(ops[..2]) == [v];
    assert Live(ops[..2], pid) && Live(ops[..3], pid) && Live(ops, pid);
    VulnerabilitiesFoundWhenMapped(strings, ops, pid, v);
    assert FoundAt(strings, ops, pid, v, 2);
  }

  // ---- no entry twice ----------------------------------------------------------------------

  /** How often a vulnerability stands in a list. */
  function Occurs(vulns: seq<Vulnerability>, v: Vulnerability): nat {
    if vulns == [] then 0
    else Occurs(vulns[..|vulns| - 1], v) + if vulns[|vulns| - 1] == v then 1 else 0
  }

  lemma {:induction false} OccursAppend(a: seq<Vulnerability>, b: seq<Vulnerability>, v: Vulnerability)
    ensures Occurs(a + b, v) == Occurs(a, v) + Occurs(b, v)
  {
    if b == [] {
      assert a + b == a;
    } else {
      assert (a + b)[..|a + b| - 1] == a + b[..|b| - 1];
      OccursAppend(a, b[..|b| - 1], v);
    }
  }

  lemma {:induction false} MatchingOccurs(strings: Strings, path: string, vulns: seq<Vulnerability>, v: Vulnerability)
    ensures Occurs(Matching(strings, path, vulns), v) ==
      if strings.matches(path, v.package) then Occurs(vulns, v) else 0
  {
    if vulns != [] {
      var init, last := vulns[..|vulns| - 1], vulns[|vulns| - 1];
      MatchingOccurs(strings, path, init, v);
      OccursOneMore(Matching(strings, path, init), last, v);
    }
  }

  lemma GroupedOneMore(strings: Strings, vulns: seq<Vulnerability>, k: string)
    requires vulns != []
    ensures var n := |vulns| - 1;
      At(Grouped(strings, vulns), k) ==
      if k == strings.lowercase(vulns[n].package) then At(Grouped(strings, vulns[..n]), k) + [vulns[n]]
      else At(Grouped(strings, vulns[..n]), k)
  {
  }

  /** A vulnerability stands under its own package's key only, as often as it was given. */
  lemma {:induction false} GroupedOccurs(strings: Strings, vulns: seq<Vulnerability>, v: Vulnerability, k: string)
    ensures Occurs(At(Grouped(strings, vulns), k), v) ==
      if k == strings.lowercase(v.package) then Occurs(vulns, v) else 0
  {
    if vulns != [] {
      var init, last := vulns[..|vulns| - 1], vulns[|vulns| - 1];
      GroupedOccurs(strings, init, v, k);
      GroupedOneMore(strings, vulns, k);
      OccursOneMore(At(Grouped(strings, init), k), last, v);
    }
  }

  lemma OccursOneMore(vulns: seq<Vulnerability>, w: Vulnerability, v: Vulnerability)
    ensures Occurs(vulns + [w], v) == Occurs(vulns, v) + if w == v then 1 else 0
  {
    assert (vulns + [w])[..|vulns|] == vulns;
  }

  predicate NoRepeats(keys: seq<string>) { forall i, j | 0 <= i < j < |keys| :: keys[i] != keys[j] }

  lemma {:induction false} FlattenOccurs(strings: Strings, vulns: seq<Vulnerability>, keys: seq<string>,
                                         v: Vulnerability)
    requires NoRepeats(keys)
    ensures Occurs(Flatten(Grouped(strings, vulns), keys), v) ==
      if strings.lowercase(v.package) in keys then Occurs(vulns, v) else 0
  {
    if keys != [] {
      var init, last := keys[..|keys| - 1], keys[|keys| - 1];
      assert keys == init + [last] && last !in init;
      FlattenOccurs(strings, vulns, init, v);
      OccursAppend(Flatten(Grouped(strings, vulns), init), At(Grouped(strings, vulns), last), v);
      GroupedOccurs(strings, vulns, v, last);
    }
  }

  lemma {:induction false} GroupedHasKey(strings: Strings, vulns: seq<Vulnerability>, v: Vulnerability)
    ensures Occurs(vulns, v) > 0 ==> strings.lowercase(v.package) in Grouped(strings, vulns)
  {
    if vulns != [] { GroupedHasKey(strings, vulns[..|vulns| - 1], v); }
  }

  /** A scan lists a matching vulnerability exactly as often as it was given. */
  lemma ScanOccurs(strings: Strings, vulns: seq<Vulnerability>, path: string, v: Vulnerability)
    requires Sound(strings)
    ensures Occurs(Scan(strings, Grouped(strings, vulns), path), v) ==
      if strings.matches(path, v.package) then Occurs(vulns, v) else 0
  {
    var grouped := Grouped(strings, vulns);
    var keys := strings.ordered(grouped.Keys);
    MatchingOccurs(strings, path, Flatten(grouped, keys), v);
    FlattenOccurs(strings, vulns, keys, v);
    GroupedHasKey(strings, vulns, v);
  }

  /** How often a process should list a vulnerability: once per load since its start and listing then known. */
  function Owed(strings: Strings, ops: seq<Op>, pid: nat, v: Vulnerability): nat {
    if ops == [] then 0
    else
      var init, op := ops[..|ops| - 1], ops[|ops| - 1];
      if op.Exec? && op.pid == pid then 0
      else
        Owed(strings, init, pid, v) +
        if LoadsLibrary(strings, op) && op.pid == pid && strings.matches(op.path, v.package)
        then Occurs(Known(init), v) else 0
  }

  /** A live process lists a vulnerability once for each of its loads that found it, and each time it was given then. */
  lemma {:induction false} ListedAsOwed(strings: Strings, ops: seq<Op>, pid: nat, v: Vulnerability)
    requires Sound(strings)
    ensures pid in After(strings, ops).processes <==> Live(ops, pid)
    ensures Live(ops, pid) ==>
      Occurs(After(strings, ops).processes[pid].vulnerabilities, v) == Owed(strings, ops, pid, v)
  {
    if ops != [] {
      var n := |ops| - 1;
      ListedAsOwed(strings, ops[..n], pid, v);
      if LoadsLibrary(strings, ops[n]) && ops[n].pid == pid && Live(ops[..n], pid) {
        CacheEqualsRescan(strings, ops[..n]);
        LoadLists(strings, After(strings, ops[..n]), ops[n], Known(ops[..n]), v);
      }
    }
  }

  lemma LoadLists(strings: Strings, m: Mapper, op: Op, known: seq<Vulnerability>, v: Vulnerability)
    requires Sound(strings) && CacheCoherent(strings, m) && m.packageVulns == Grouped(strings, known)
    requires LoadsLibrary(strings, op) && op.pid in m.processes
    ensures op.pid in Step(strings, m, op).processes
    ensures Occurs(Step(strings, m, op).processes[op.pid].vulnerabilities, v) ==
      Occurs(m.processes[op.pid].vulnerabilities, v) +
        if strings.matches(op.path, v.package) then Occurs(known, v) else 0
  {
    ScanOccurs(strings, known, op.path, v);
    OccursAppend(m.processes[op.pid].vulnerabilities, Scan(strings, m.packageVulns, op.path), v);
  }

  /** Commands and connections a live process shows: those since its start. */
  function CommandOf(ops: seq<Op>, pid: nat): string {
    if ops == [] then ""
    else if ops[|ops| - 1].Exec? && ops[|ops| - 1].pid == pid then ops[|ops| - 1].command
    else CommandOf(ops[..|ops| - 1], pid)
  }

  function Connected(ops: seq<Op>, pid: nat): seq<Connection> {
    if ops == [] then []
    else
      var op, before := ops[|ops| - 1], Connected(ops[..|ops| - 1], pid);
      if op.Exec? && op.pid == pid then []
      else if op.Connect? && op.pid == pid && op.port in {80, 443}
      then before + [Connection(op.destination, op.port, if op.protocol == 6 then "TCP" else "UDP")]
      else before
  }

  /**
   A live process shows its last command, the libraries it mapped and its web connections, in order, since its start.
   */
  lemma {:induction false} ProcessShowsItsLife(strings: Strings, ops: seq<Op>, pid: nat)
    ensures pid in After(strings, ops).processes <==> Live(ops, pid)
    ensures Live(ops, pid) ==>
      var p := After(strings, ops).processes[pid];
      p.command == CommandOf(ops, pid) && p.loadedLibs == Mapped(strings, ops, pid) &&
        p.connections == Connected(ops, pid)
  {
    if ops != [] { ProcessShowsItsLife(strings, ops[..|ops| - 1], pid); }
  }

  /** The libraries scanned since the list was last given: those a live process mapped. */
  function Scanned(strings: Strings, ops: seq<Op>): set<string> {
    if ops == [] then {}
    else
      var init, op := ops[..|ops| - 1], ops[|ops| - 1];
      if op.SetVulnerabilities? then {}
      else if LoadsLibrary(strings, op) && Live(init, op.pid) then Scanned(strings, init) + {op.path}
      else Scanned(strings, init)
  }

  /** The cache holds exactly the libraries scanned since the list was last given. */
  lemma {:induction false} CacheHoldsScanned(strings: Strings, ops: seq<Op>)
    ensures After(strings, ops).libVulns.Keys == Scanned(strings, ops)
  {
    if ops != [] {
      var init, op := ops[..|ops| - 1], ops[|ops| - 1];
      CacheHoldsScanned(strings, init);
      if op.File? { ProcessShowsItsLife(strings, init, op.pid); }
    }
  }
}
