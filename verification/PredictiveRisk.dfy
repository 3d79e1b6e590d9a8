/**
 Exponentially weighted risk scores over a sliding history, against their closed form and the whole
 record of scores. Arithmetic is over the reals; only the score of a snapshot is modelled.
 */
module PredictiveRisk {
  import opened Wrappers

  datatype EwmaConfig = EwmaConfig(alpha: real, minDataPoints: nat, maxHistory: nat)

  function Mix(alpha: real, x: real, previous: real): real { alpha * x + (1.0 - alpha) * previous }

  /** The last value of the averaging loop over a non-empty sequence of scores. */
  function Ewma(scores: seq<real>, alpha: real): real
    requires scores != []
  {
    if |scores| == 1 then scores[0]
    else Mix(alpha, scores[|scores| - 1], Ewma(scores[..|scores| - 1], alpha))
  }

  method CalculateEwma(values: seq<real>, alpha: real) returns (ewma: seq<real>)
    ensures |ewma| == |values|
    ensures forall i | 0 <= i < |values| :: ewma[i] == Ewma(values[..i + 1], alpha)
  {
    if values == [] { return []; }
    ewma := [values[0]];
    for i := 1 to |values|
      invariant |ewma| == i
      invariant forall k | 0 <= k < i :: ewma[k] == Ewma(values[..k + 1], alpha)
    {
      assert values[..i + 1][..i] == values[..i];
      ewma := ewma + [Mix(alpha, values[i], ewma[i - 1])];
    }
  }

  datatype Op = Record(cve: string, score: real) | Clear(cve: string) | ClearAll

  function Step(config: EwmaConfig, history: map<string, seq<real>>, op: Op): map<string, seq<real>> {
    match op
    case Record(cve, score) =>
      history[cve := LastOf((if cve in history then history[cve] else []) + [score], config.maxHistory)]
    case Clear(cve) => history - {cve}
    case ClearAll => map[]
  }

  function After(config: EwmaConfig, ops: seq<Op>): map<string, seq<real>> {
    if ops == [] then map[] else Step(config, After(config, ops[..|ops| - 1]), ops[|ops| - 1])
  }

  /** The current score a prediction starts from, if there is one. */
  function CurrentScore(config: EwmaConfig, history: map<string, seq<real>>, cve: string): Option<real> {
    if cve in history && |history[cve]| >= config.minDataPoints && history[cve] != [] then
      Some(Ewma(history[cve], config.alpha))
    else None
  }

  class PredictiveRiskEngine {
    const config: EwmaConfig
    var history: map<string, seq<real>>

    constructor (config: EwmaConfig)
      ensures this.config == config && history == map[]
    {
      this.config, history := config, map[];
    }

    method RecordScore(cve: string, score: real)
      modifies this
      ensures history == Step(config, old(history), Record(cve, score))
    {
      var h := if cve in history then history[cve] else [];
      h := h + [score];
      if |h| > config.maxHistory {
        var drainCount := |h| - config.maxHistory;
        h := h[drainCount..];
      }
      history := history[cve := h];
    }

    method ClearOne(cve: string)
      modifies this
      ensures history == Step(config, old(history), Clear(cve))
    {
      history := history - {cve};
    }

    method ClearEverything()
      modifies this
      ensures history == Step(config, old(history), ClearAll)
    {
      history := map[];
    }

    method PredictCurrent(cve: string) returns (current: Option<real>)
      ensures current == CurrentScore(config, history, cve)
    {
      if cve !in history { return None; }
      var scores := history[cve];
      if |scores| < config.minDataPoints { return None; }
      var ewma := CalculateEwma(scores, config.alpha);
      if ewma == [] { return None; }
      assert scores[..|scores| - 1 + 1] == scores;
      return Some(ewma[|ewma| - 1]);
    }
  }

  // ---- the closed form ---------------------------------------------------------------------

  function Pow(b: real, e: nat): real { if e == 0 then 1.0 else Scale(b, Pow(b, e - 1)) }

  function Scale(b: real, x: real): real { b * x }

  /** alpha * (1 - alpha)^e * x */
  function Term(alpha: real, e: nat, x: real): real { Scale(alpha, Scale(Pow(1.0 - alpha, e), x)) }

  /** The terms of scores 1 to `k`, where score `n` is the newest. */
  function Tail(scores: seq<real>, alpha: real, n: nat, k: nat): real
    requires k <= n && k < |scores|
  {
    if k == 0 then 0.0 else Tail(scores, alpha, n, k - 1) + Term(alpha, n - k, scores[k])
  }

  /** (1 - alpha)^n * x0 plus the terms of the later scores. */
  function ClosedForm(scores: seq<real>, alpha: real): real
    requires scores != []
  {
    var n := |scores| - 1;
    Scale(Pow(1.0 - alpha, n), scores[0]) + Tail(scores, alpha, n, n)
  }

  lemma ScaleAdds(b: real, x: real, y: real)
    ensures Scale(b, x + y) == Scale(b, x) + Scale(b, y)
  {
  }

  lemma ScaleSwaps(a: real, b: real, x: real)
    ensures Scale(a, Scale(b, x)) == Scale(b, Scale(a, x)) == Scale(Scale(a, b), x)
  {
    assert a * (b * x) == (a * b) * x == b * (a * x);
  }

  lemma TermAges(alpha: real, e: nat, x: real)
    ensures Term(alpha, e + 1, x) == Scale(1.0 - alpha, Term(alpha, e, x))
  {
    var b, p := 1.0 - alpha, Pow(1.0 - alpha, e);
    ScaleSwaps(b, p, x);
    ScaleSwaps(alpha, b, Scale(p, x));
  }

  lemma {:induction false} TailAges(scores: seq<real>, alpha: real, n: nat, k: nat)
    requires k <= n && k < |scores|
    ensures Tail(scores, alpha, n + 1, k) == Scale(1.0 - alpha, Tail(scores, alpha, n, k))
  {
    if k == 0 {
      assert Scale(1.0 - alpha, 0.0) == 0.0;
    } else {
      TailAges(scores, alpha, n, k - 1);
      TermAges(alpha, n - k, scores[k]);
      ScaleAdds(1.0 - alpha, Tail(scores, alpha, n, k - 1), Term(alpha, n - k, scores[k]));
    }
  }

  lemma {:induction false} TailOfPrefix(scores: seq<real>, m: nat, alpha: real, n: nat, k: nat)
    requires k <= n && k < m <= |scores|
    ensures Tail(scores[..m], alpha, n, k) == Tail(scores, alpha, n, k)
  {
    if k > 0 { TailOfPrefix(scores, m, alpha, n, k - 1); }
  }

  lemma {:induction false} NewestTerm(alpha: real, x: real)
    ensures Term(alpha, 0, x) == Scale(alpha, x)
  {
    assert Pow(1.0 - alpha, 0) == 1.0;
    assert Scale(1.0, x) == x;
  }

  /** The loop's last value is the weighted sum of all scores, the oldest keeping the residual weight. */
  lemma {:induction false} EwmaIsClosedForm(scores: seq<real>, alpha: real)
    requires scores != []
    ensures Ewma(scores, alpha) == ClosedForm(scores, alpha)
  {
    var n, b := |scores| - 1, 1.0 - alpha;
    if n == 0 {
      assert Scale(Pow(b, 0), scores[0]) == Scale(1.0, scores[0]) == scores[0];
    } else {
      EwmaIsClosedForm(scores[..n], alpha);
      TailOfPrefix(scores, n, alpha, n - 1, n - 1);
      TailAges(scores, alpha, n - 1, n - 1);
      NewestTerm(alpha, scores[n]);
      ScaleSwaps(b, Pow(b, n - 1), scores[0]);
      ScaleAdds(b, Scale(Pow(b, n - 1), scores[0]), Tail(scores, alpha, n - 1, n - 1));
      MixScales(alpha, scores[n], Ewma(scores[..n], alpha));
    }
  }

  lemma MixScales(alpha: real, x: real, y: real)
    ensures Mix(alpha, x, y) == Scale(alpha, x) + Scale(1.0 - alpha, y)
  {
  }

  lemma MixBetween(alpha: real, x: real, y: real, lo: real, hi: real)
    requires 0.0 <= alpha <= 1.0 && lo <= x <= hi && lo <= y <= hi
    ensures lo <= Mix(alpha, x, y) <= hi
  {
    assert alpha * (x - lo) >= 0.0 && (1.0 - alpha) * (y - lo) >= 0.0;
    assert alpha * (hi - x) >= 0.0 && (1.0 - alpha) * (hi - y) >= 0.0;
  }

  /** With a smoothing factor between zero and one the average never leaves the range of the scores. */
  lemma {:induction false} EwmaStaysInRange(scores: seq<real>, alpha: real, lo: real, hi: real)
    requires scores != [] && 0.0 < alpha <= 1.0
    requires forall i | 0 <= i < |scores| :: lo <= scores[i] <= hi
    ensures lo <= Ewma(scores, alpha) <= hi
  {
    if |scores| > 1 {
      var n := |scores| - 1;
      EwmaStaysInRange(scores[..n], alpha, lo, hi);
      MixBetween(alpha, scores[n], Ewma(scores[..n], alpha), lo, hi);
    }
  }

  // ---- the sliding history -----------------------------------------------------------------

  /** All scores recorded for a CVE since it was last cleared. */
  function Scores(ops: seq<Op>, cve: string): seq<real> {
    if ops == [] then []
    else
      var before := Scores(ops[..|ops| - 1], cve);
      match ops[|ops| - 1]
      case Record(c, score) => if c == cve then before + [score] else before
      case Clear(c) => if c == cve then [] else before
      case ClearAll => []
  }

  lemma SlideKeepsLast(log: seq<real>, score: real, n: nat)
    ensures LastOf(LastOf(log, n) + [score], n) == LastOf(log + [score], n)
  {
  }

  /** The history of a CVE is exactly the last `maxHistory` scores recorded since it was cleared. */
  lemma {:induction false} HistoryIsLastScores(config: EwmaConfig, ops: seq<Op>, cve: string)
    ensures cve in After(config, ops) <==> Scores(ops, cve) != []
    ensures cve in After(config, ops) ==> After(config, ops)[cve] == LastOf(Scores(ops, cve), config.maxHistory)
  {
    if ops != [] {
      HistoryIsLastScores(config, ops[..|ops| - 1], cve);
      if ops[|ops| - 1].Record? {
        SlideKeepsLast(Scores(ops[..|ops| - 1], cve), ops[|ops| - 1].score, config.maxHistory);
      }
    }
  }

  /**
   After any run a prediction exists exactly when enough scores are retained, and then starts from
   the closed form over the retained scores.
   */
  lemma PredictionIsClosedForm(config: EwmaConfig, ops: seq<Op>, cve: string)
    ensures var kept := LastOf(Scores(ops, cve), config.maxHistory);
      CurrentScore(config, After(config, ops), cve) ==
        if kept != [] && |kept| >= config.minDataPoints then Some(ClosedForm(kept, config.alpha)) else None
  {
    HistoryIsLastScores(config, ops, cve);
    var kept := LastOf(Scores(ops, cve), config.maxHistory);
    if kept != [] { EwmaIsClosedForm(kept, config.alpha); }
  }
}
