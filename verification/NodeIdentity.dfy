/**
 The nodes of the runtime attack graph and the strings that identify them.
 Two nodes share an identifier exactly when they are the same entity; every other
 result about the graph leans on this, because its index is keyed by these strings.
 */
module NodeIdentity {
  import opened Wrappers

  datatype RuntimeNode =
    | Process(pid: nat, name: string, cgroupId: nat)
    | Library(path: string, cveIds: seq<string>)
    | Network(ip: string, port: nat, protocol: string)
    | Vulnerability(cveId: string, package: string, cvss: real, epss: real, kev: bool)
    | Technique(title: string, mitreTactic: Option<string>)

  /** Decimal rendering of an unsigned integer. */
  function Decimal(n: nat): (s: string)
    ensures |s| > 0
    ensures forall i | 0 <= i < |s| :: '0' <= s[i] <= '9'
  {
    if n < 10 then [Digit(n)] else Decimal(n / 10) + [Digit(n % 10)]
  }

  function Digit(d: nat): (c: char)
    requires d < 10
    ensures '0' <= c <= '9' && c as int - '0' as int == d
  {
    "0123456789"[d]
  }

  lemma {:induction false} DecimalInjective(a: nat, b: nat)
    requires Decimal(a) == Decimal(b)
    ensures a == b
  {
    var s := Decimal(a);
    if a < 10 || b < 10 {
      assert |Decimal(a)| == 1 <==> a < 10;
      assert |Decimal(b)| == 1 <==> b < 10;
      assert s[0] == Digit(a) == Digit(b);
    } else {
      assert s[|s| - 1] == Digit(a % 10) == Digit(b % 10);
      assert s[..|s| - 1] == Decimal(a / 10) == Decimal(b / 10);
      DecimalInjective(a / 10, b / 10);
    }
  }

  /** The number that digits spell, most significant first. */
  function Spelt(s: string): int {
    if s == "" then 0 else Spelt(s[..|s| - 1]) * 10 + (s[|s| - 1] as int - '0' as int)
  }

  /** The rendering spells its number, with no zero in front of a longer one. */
  lemma {:induction false} DecimalSpells(n: nat)
    ensures Spelt(Decimal(n)) == n && (|Decimal(n)| > 1 ==> Decimal(n)[0] != '0')
  {
    var s := Decimal(n);
    if n >= 10 {
      DecimalSpells(n / 10);
      assert s[..|s| - 1] == Decimal(n / 10);
    } else {
      assert s[..0] == "";
    }
  }

  /** Byte `k` of an integer, counted from the least significant. */
  function Octet(n: nat, k: nat): (b: nat)
    ensures b < 256
  {
    if k == 0 then n % 256 else Octet(n / 256, k - 1)
  }

  function FromOctets(a: nat, b: nat, c: nat, d: nat): nat { ((a * 256 + b) * 256 + c) * 256 + d }

  /** `u32::from_be` on a little-endian host. */
  function FromBigEndian(n: u32): nat { FromOctets(Octet(n, 0), Octet(n, 1), Octet(n, 2), Octet(n, 3)) }

  function Quad(a: nat, b: nat, c: nat, d: nat): string {
    Decimal(a) + "." + (Decimal(b) + "." + (Decimal(c) + "." + Decimal(d)))
  }

  /** Dotted rendering of a destination address held in network byte order. */
  function Dotted(daddr: u32): string {
    var h := FromBigEndian(daddr);
    Quad(Octet(h, 3), Octet(h, 2), Octet(h, 1), Octet(h, 0))
  }

  function ProcId(pid: nat): string { "proc:" + Decimal(pid) }
  function LibId(path: string): string { "lib:" + path }
  function NetId(ip: string, port: nat): string { "net:" + (ip + ":" + Decimal(port)) }
  function VulnId(cveId: string): string { "vuln:" + cveId }
  function TechId(name: string): string { "tech:" + name }

  function NodeId(node: RuntimeNode): string {
    match node
    case Process(pid, _, _) => ProcId(pid)
    case Library(path, _) => LibId(path)
    case Network(ip, port, _) => NetId(ip, port)
    case Vulnerability(cveId, _, _, _, _) => VulnId(cveId)
    case Technique(name, _) => TechId(name)
  }

  /** The same entity, whatever the remaining attributes say. */
  predicate SameEntity(a: RuntimeNode, b: RuntimeNode) {
    match (a, b)
    case (Process(p, _, _), Process(q, _, _)) => p == q
    case (Library(p, _), Library(q, _)) => p == q
    case (Network(i, p, _), Network(j, q, _)) => i == j && p == q
    case (Vulnerability(c, _, _, _, _), Vulnerability(d, _, _, _, _)) => c == d
    case (Technique(n, _), Technique(m, _)) => n == m
    case _ => false
  }

  lemma SplitAtFirst(a: string, r: string, a': string, r': string, sep: char)
    requires sep !in a && sep !in a'
    requires a + [sep] + r == a' + [sep] + r'
    ensures a == a' && r == r'
  {
    var s := a + [sep] + r;
    assert s[|a|] == sep && s[|a'|] == sep;
    assert forall i | 0 <= i < |a| :: s[i] == a[i];
    assert forall i | 0 <= i < |a'| :: s[i] == a'[i];
    assert a == s[..|a|] && a' == s[..|a'|];
    assert r == s[|a| + 1..] && r' == s[|a'| + 1..];
  }

  lemma SplitAtLast(a: string, r: string, a': string, r': string, sep: char)
    requires sep !in r && sep !in r'
    requires a + [sep] + r == a' + [sep] + r'
    ensures a == a' && r == r'
  {
    var s := a + [sep] + r;
    assert s[|a|] == sep && s[|a'|] == sep;
    assert forall i | |a| < i < |s| :: s[i] == r[i - |a| - 1];
    assert forall i | |a'| < i < |s| :: s[i] == r'[i - |a'| - 1];
    assert a == s[..|a|] && a' == s[..|a'|];
    assert r == s[|a| + 1..] && r' == s[|a'| + 1..];
  }

  lemma OctetOfSum(high: nat, low: nat, k: nat)
    requires low < 256
    ensures Octet(high * 256 + low, k) == if k == 0 then low else Octet(high, k - 1)
  {
    assert (high * 256 + low) / 256 == high && (high * 256 + low) % 256 == low;
  }

  lemma OctetsOfFromOctets(a: nat, b: nat, c: nat, d: nat, k: nat)
    requires a < 256 && b < 256 && c < 256 && d < 256 && k < 4
    ensures Octet(FromOctets(a, b, c, d), k) == if k == 0 then d else if k == 1 then c else if k == 2 then b else a
  {
    OctetOfSum((a * 256 + b) * 256 + c, d, k);
    if k > 0 { OctetOfSum(a * 256 + b, c, k - 1); }
    if k > 1 { OctetOfSum(a, b, k - 2); }
    if k > 2 { OctetOfSum(0, a, k - 3); }
  }

  /** The rendering reads the stored bytes in order, lowest address first. */
  lemma DottedReadsBytesInOrder(n: u32)
    ensures Dotted(n) == Quad(Octet(n, 0), Octet(n, 1), Octet(n, 2), Octet(n, 3))
  {
    forall k: nat | k < 4 {
      OctetsOfFromOctets(Octet(n, 0), Octet(n, 1), Octet(n, 2), Octet(n, 3), k);
    }
  }

  lemma OctetOfQuotient(n: nat, k: nat)
    ensures Octet(n, k + 1) == Octet(n / 256, k)
  {
  }

  lemma QuotientsJoin(n: nat)
    ensures n / 256 / 256 == n / 65536 && n / 65536 / 256 == n / 16777216
  {
  }

  lemma OctetsAreBytes(n: u32)
    ensures Octet(n, 0) == n % 256 && Octet(n, 1) == n / 256 % 256
    ensures Octet(n, 2) == n / 65536 % 256 && Octet(n, 3) == n / 16777216
  {
    QuotientsJoin(n);
    OctetOfQuotient(n, 0);
    OctetOfQuotient(n, 1);
    OctetOfQuotient(n / 256, 0);
    OctetOfQuotient(n, 2);
    OctetOfQuotient(n / 256, 1);
    OctetOfQuotient(n / 65536, 0);
    assert n / 16777216 < 256;
  }

  lemma JoinedByDots(a: string, b: string, c: string, d: string)
    ensures a + "." + (b + "." + (c + "." + d)) == a + "." + b + "." + c + "." + d
  {
  }

  /** An address in network order reads as its four bytes in decimal, the least significant of the integer first. */
  lemma DottedSpellsBytes(n: u32)
    ensures Dotted(n) ==
      Decimal(n % 256) + "." + Decimal(n / 256 % 256) + "." + Decimal(n / 65536 % 256) + "." + Decimal(n / 16777216)
  {
    DottedReadsBytesInOrder(n);
    OctetsAreBytes(n);
    JoinedByDots(Decimal(n % 256), Decimal(n / 256 % 256), Decimal(n / 65536 % 256), Decimal(n / 16777216));
  }

  lemma {:induction false} SameOctets(a: nat, b: nat, k: nat)
    requires forall i | 0 <= i < k :: Octet(a, i) == Octet(b, i)
    requires a < Power256(k) && b < Power256(k)
    ensures a == b
  {
    if k > 0 {
      assert Octet(a, 0) == Octet(b, 0);
      forall i | 0 <= i < k - 1 ensures Octet(a / 256, i) == Octet(b / 256, i) {
        assert Octet(a, i + 1) == Octet(b, i + 1);
      }
      SameOctets(a / 256, b / 256, k - 1);
    }
  }

  function Power256(k: nat): nat { if k == 0 then 1 else 256 * Power256(k - 1) }

  lemma QuadInjective(a: nat, b: nat, c: nat, d: nat, a': nat, b': nat, c': nat, d': nat)
    requires Quad(a, b, c, d) == Quad(a', b', c', d')
    ensures a == a' && b == b' && c == c' && d == d'
  {
    var p, q, r, s := Decimal(a), Decimal(b), Decimal(c), Decimal(d);
    var p', q', r', s' := Decimal(a'), Decimal(b'), Decimal(c'), Decimal(d');
    SplitAtFirst(p, q + "." + (r + "." + s), p', q' + "." + (r' + "." + s'), '.');
    SplitAtFirst(q, r + "." + s, q', r' + "." + s', '.');
    SplitAtFirst(r, s, r', s', '.');
    DecimalInjective(a, a');
    DecimalInjective(b, b');
    DecimalInjective(c, c');
    DecimalInjective(d, d');
  }

  lemma DottedInjective(a: u32, b: u32)
    requires Dotted(a) == Dotted(b)
    ensures a == b
  {
    DottedReadsBytesInOrder(a);
    DottedReadsBytesInOrder(b);
    QuadInjective(Octet(a, 0), Octet(a, 1), Octet(a, 2), Octet(a, 3), Octet(b, 0), Octet(b, 1), Octet(b, 2),
      Octet(b, 3));
    SameFourOctets(a, b);
  }

  lemma SameFourOctets(a: u32, b: u32)
    requires Octet(a, 0) == Octet(b, 0) && Octet(a, 1) == Octet(b, 1) && Octet(a, 2) == Octet(b, 2) &&
      Octet(a, 3) == Octet(b, 3)
    ensures a == b
  {
    FourOctetsFit(a);
    FourOctetsFit(b);
    SameOctets(a, b, 4);
  }

  lemma FourOctetsFit(n: u32)
    ensures n < Power256(4)
  {
    assert Power256(4) == 256 * (256 * (256 * (256 * Power256(0))));
  }

  lemma NetIdInjective(ip: string, port: nat, ip': string, port': nat)
    requires NetId(ip, port) == NetId(ip', port')
    ensures ip == ip' && port == port'
  {
    assert NetId(ip, port)[4..] == ip + ":" + Decimal(port);
    assert NetId(ip', port')[4..] == ip' + ":" + Decimal(port');
    SplitAtLast(ip, Decimal(port), ip', Decimal(port'), ':');
    DecimalInjective(port, port');
  }

  /** One identifier, one entity: across all variants and whatever the attributes hold. */
  lemma NodeIdInjective(a: RuntimeNode, b: RuntimeNode)
    ensures NodeId(a) == NodeId(b) <==> SameEntity(a, b)
  {
    if NodeId(a) == NodeId(b) {
      assert NodeId(a)[0] == NodeId(b)[0];
      match (a, b)
      case (Process(p, _, _), Process(q, _, _)) =>
        assert Decimal(p) == ProcId(p)[5..] && Decimal(q) == ProcId(q)[5..];
        DecimalInjective(p, q);
      case (Library(p, _), Library(q, _)) =>
        assert p == LibId(p)[4..] && q == LibId(q)[4..];
      case (Network(i, p, _), Network(j, q, _)) =>
        NetIdInjective(i, p, j, q);
      case (Vulnerability(c, _, _, _, _), Vulnerability(d, _, _, _, _)) =>
        assert c == VulnId(c)[5..] && d == VulnId(d)[5..];
      case (Technique(n, _), Technique(m, _)) =>
        assert n == TechId(n)[5..] && m == TechId(m)[5..];
      case _ =>
    }
  }
}
