/** The UDP destination's error back-off: when failures are reported, and when
    the destination turns itself off. */
module UdpBackoff {
  datatype State = State(successes: nat, errors: nat, next: int)

  const FRESH := State(0, 0, 1)

  /** error_report_backoff_factor and error_turnoff_threshold. */
  datatype Config = Config(factor: int, max: int)

  predicate Sends(s: State, c: Config)
  {
    s.errors < c.max || c.max == 0
  }

  /** The outcome of one routed message. */
  datatype Outcome = Outcome(state: State, sent: bool, reported: bool)

  /** routePayload, given whether sendto succeeds if it is called. */
  function Step(s: State, c: Config, ok: bool): Outcome
  {
    if !Sends(s, c) then Outcome(s, false, false)
    else if ok then
      var t := s.(successes := s.successes + 1);
      Outcome(if t.successes >= 5 then t.(errors := 0, next := 1) else t, true, false)
    else
      var t := State(0, s.errors + 1, s.next);
      Outcome(if t.errors == t.next then t.(next := t.next * c.factor) else t, true, t.errors == t.next)
  }

  class Destination {
    const factor: int
    const max: int
    var successes: nat
    var errors: nat
    var next: int

    function Value(): State
      reads this
    {
      State(successes, errors, next)
    }

    constructor (factor: int, max: int)
      ensures Value() == FRESH && this.factor == factor && this.max == max
    {
      this.factor, this.max := factor, max;
      successes, errors, next := 0, 0, 1;
    }

    method RoutePayload(ok: bool) returns (sent: bool, reported: bool)
      modifies this
      ensures Outcome(Value(), sent, reported) == Step(old(Value()), Config(factor, max), ok)
    {
      sent, reported := false, false;
      if errors < max || max == 0 {
        sent := true;
        if !ok {
          successes := 0;
          errors := errors + 1;
          if errors == next {
            reported := true;
            next := next * factor;
          }
        } else {
          successes := successes + 1;
          if successes >= 5 {
            errors := 0;
            next := 1;
          }
        }
      }
    }
  }

  // -------------------------------------------------------------------- runs

  function Run(c: Config, oks: seq<bool>): State
  {
    if oks == [] then FRESH else Step(Run(c, oks[..|oks| - 1]), c, oks[|oks| - 1]).state
  }

  /** The reports since the counters were last cleared. */
  function Reports(c: Config, oks: seq<bool>): nat
  {
    if oks == [] then 0
    else
      var before := Run(c, oks[..|oks| - 1]);
      var r := Step(before, c, oks[|oks| - 1]);
      if r.state.errors == 0 then 0 else Reports(c, oks[..|oks| - 1]) + if r.reported then 1 else 0
  }

  function Power(f: int, k: nat): int
  {
    if k == 0 then 1 else f * Power(f, k - 1)
  }

  /** The floor of the logarithm of n to the base f. */
  function FloorLog(f: int, n: nat): nat
    requires f >= 2
  {
    if n < f then 0 else
      DivideSmaller(f, n);
      1 + FloorLog(f, n / f)
  }

  lemma DivideSmaller(f: int, n: nat)
    requires f >= 2 && n >= f
    ensures 0 <= n / f < n
  {
    var q := n / f;
    assert f * q <= n < f * (q + 1);
    if q < 0 { Times(f, q + 1, 0); }
    if q >= n { Times(q, 2, f); }
  }

  lemma {:induction false} FloorLogMeaning(f: int, n: nat, k: nat)
    requires f >= 2 && n >= 1 && Power(f, k) <= n < Power(f, k + 1)
    ensures FloorLog(f, n) == k
  {
    assert Power(f, k + 1) == f * Power(f, k);
    if k == 0 {
      assert Power(f, 1) == f;
    } else {
      assert Power(f, k) == f * Power(f, k - 1);
      PowerPositive(f, k - 1);
      AtLeastBase(f, Power(f, k - 1), n);
      DivideBounds(f, n, Power(f, k - 1), Power(f, k));
      FloorLogMeaning(f, n / f, k - 1);
    }
  }

  lemma AtLeastBase(f: int, p: int, n: int)
    requires f >= 2 && p >= 1 && f * p <= n
    ensures n >= f
  {
  }

  lemma DivideBounds(f: int, n: nat, lo: int, hi: int)
    requires f >= 2 && f * lo <= n < f * hi
    ensures lo <= n / f < hi
  {
    var q := n / f;
    assert f * q <= n < f * (q + 1);
    if q < lo { Times(f, q + 1, lo); }
    if q >= hi { Times(f, hi, q); }
  }

  lemma Times(f: int, a: int, b: int)
    requires f >= 0 && a <= b
    ensures f * a <= f * b
  {
  }

  lemma {:induction false} PowerPositive(f: int, k: nat)
    requires f >= 1
    ensures Power(f, k) >= 1
  {
    if k > 0 {
      PowerPositive(f, k - 1);
      Times(f, 1, Power(f, k - 1));
    }
  }

  lemma PowerGrows(f: int, k: nat)
    requires f >= 2
    ensures Power(f, k + 1) > Power(f, k)
  {
    PowerPositive(f, k);
    assert f * Power(f, k) >= 2 * Power(f, k) by { Times(Power(f, k), 2, f); }
  }

  /** The next report is due at the power of the factor given by the number of
      reports so far, which the error count has not reached. */
  lemma {:induction false} NextReport(c: Config, oks: seq<bool>)
    requires c.factor >= 2
    ensures var s, k := Run(c, oks), Reports(c, oks);
            && s.next == Power(c.factor, k) && s.errors < s.next
            && (k == 0 <==> s.errors == 0) && (k > 0 ==> Power(c.factor, k - 1) <= s.errors)
  {
    if oks != [] {
      var before := oks[..|oks| - 1];
      NextReport(c, before);
      PowerGrows(c.factor, Reports(c, before));
      assert Power(c.factor, Reports(c, before) + 1) == Power(c.factor, Reports(c, before)) * c.factor;
    }
  }

  /** n errors since the last clear have been reported floor(log n) + 1 times. */
  lemma ReportCount(c: Config, oks: seq<bool>)
    requires c.factor >= 2
    ensures var n := Run(c, oks).errors; Reports(c, oks) == if n == 0 then 0 else FloorLog(c.factor, n) + 1
  {
    NextReport(c, oks);
    var n, k := Run(c, oks).errors, Reports(c, oks);
    if n > 0 {
      FloorLogMeaning(c.factor, n, k - 1);
    }
  }

  /** With a factor below 2 only the first error since a clear is reported. */
  lemma {:induction false} ReportCountSmallFactor(c: Config, oks: seq<bool>)
    requires c.factor <= 1
    ensures var s := Run(c, oks);
            && Reports(c, oks) == (if s.errors == 0 then 0 else 1)
            && (if s.errors == 0 then s.next == 1 else s.next == c.factor)
  {
    if oks != [] { ReportCountSmallFactor(c, oks[..|oks| - 1]); }
  }

  // -------------------------------------------------------------------- turn-off

  /** Once off, off: nothing is sent or reported, and no counter moves. */
  lemma {:induction false} StaysOff(c: Config, oks: seq<bool>, more: seq<bool>)
    requires !Sends(Run(c, oks), c)
    ensures Run(c, oks + more) == Run(c, oks) && Reports(c, oks + more) == Reports(c, oks)
    ensures forall ok :: !Step(Run(c, oks + more), c, ok).sent && !Step(Run(c, oks + more), c, ok).reported
  {
    if more == [] {
      assert oks + more == oks;
    } else {
      var n := |more| - 1;
      StaysOff(c, oks, more[..n]);
      assert (oks + more)[..|oks + more| - 1] == oks + more[..n];
    }
  }

  function Failures(oks: seq<bool>): nat
  {
    if oks == [] then 0 else Failures(oks[..|oks| - 1]) + if oks[|oks| - 1] then 0 else 1
  }

  /** The successes since the last failure. */
  function Trailing(oks: seq<bool>): nat
  {
    if oks == [] || !oks[|oks| - 1] then 0 else Trailing(oks[..|oks| - 1]) + 1
  }

  /** While the destination is on, five successes in a row clear the errors. */
  lemma {:induction false} ClearAfterFive(c: Config, oks: seq<bool>)
    requires Sends(Run(c, oks), c)
    ensures Run(c, oks).successes == Trailing(oks)
    ensures Trailing(oks) >= 5 ==> Run(c, oks).errors == 0 && Run(c, oks).next == 1
  {
    if oks != [] { ClearAfterFive(c, oks[..|oks| - 1]); }
  }

  /** Never five successes in a row. */
  predicate NoClear(oks: seq<bool>)
  {
    forall i | 0 <= i <= |oks| :: Trailing(oks[..i]) < 5
  }

  /** Without five successes in a row the destination is off exactly when the
      failures have reached a positive threshold. (A negative one sends nothing.) */
  lemma {:induction false} OffAfter(c: Config, oks: seq<bool>)
    requires NoClear(oks)
    ensures var s := Run(c, oks);
            && s.errors == (if c.max == 0 then Failures(oks) else if c.max < 0 then 0 else Least(Failures(oks), c.max))
            && (Sends(s, c) ==> s.successes == Trailing(oks))
  {
    if oks != [] {
      var n := |oks| - 1;
      forall i | 0 <= i <= n ensures Trailing(oks[..n][..i]) < 5 {
        assert oks[..n][..i] == oks[..i];
      }
      OffAfter(c, oks[..n]);
      assert oks[..|oks|] == oks;
    }
  }

  function Least(a: int, b: int): int { if a < b then a else b }

  // --------------------------------------------------- what is sent and reported

  /** The failures since there last were five successes in a row. */
  function SinceClear(oks: seq<bool>): nat
  {
    if oks == [] || Trailing(oks) >= 5 then 0
    else SinceClear(oks[..|oks| - 1]) + if oks[|oks| - 1] then 0 else 1
  }

  /** The failures since a clear have never yet been as many as a positive threshold;
      0 is no threshold, and a negative one is always reached. */
  predicate BelowThreshold(c: Config, oks: seq<bool>)
  {
    c.max == 0 || (c.max > 0 && forall i | 0 <= i <= |oks| :: SinceClear(oks[..i]) < c.max)
  }

  lemma {:induction false} OnMeaning(c: Config, oks: seq<bool>)
    ensures Sends(Run(c, oks), c) <==> BelowThreshold(c, oks)
    ensures Sends(Run(c, oks), c) ==> Run(c, oks).errors == SinceClear(oks) && Run(c, oks).successes == Trailing(oks)
    ensures c.max > 0 && !Sends(Run(c, oks), c) ==> Run(c, oks).errors == c.max
  {
    assert oks[..|oks|] == oks;
    if oks != [] {
      var n := |oks| - 1;
      OnMeaning(c, oks[..n]);
      forall i | 0 <= i <= n ensures oks[..n][..i] == oks[..i] {
      }
      assert BelowThreshold(c, oks) <==> BelowThreshold(c, oks[..n]) && (c.max == 0 || SinceClear(oks) < c.max);
    }
  }

  /** A message is sent exactly while the threshold has not been reached. */
  lemma SentExact(c: Config, oks: seq<bool>, ok: bool)
    ensures Step(Run(c, oks), c, ok).sent <==> BelowThreshold(c, oks)
  {
    OnMeaning(c, oks);
  }

  predicate IsPower(f: int, n: int)
  {
    exists k | 0 <= k <= n :: Power(f, k) == n
  }

  /** A failure is reported exactly when it is sent and, with those since the last
      clear, makes a power of the factor. */
  lemma ReportedExact(c: Config, oks: seq<bool>, ok: bool)
    requires c.factor >= 2
    ensures Step(Run(c, oks), c, ok).reported <==>
            BelowThreshold(c, oks) && !ok && IsPower(c.factor, SinceClear(oks) + 1)
  {
    OnMeaning(c, oks);
    NextReport(c, oks);
    var s, k := Run(c, oks), Reports(c, oks);
    PowerAbove(c.factor, k);
    if s.errors + 1 == s.next { assert Power(c.factor, k) == s.errors + 1 && k <= s.errors + 1; }
    if j :| 0 <= j <= s.errors + 1 && Power(c.factor, j) == s.errors + 1 {
      if j < k { PowerMonotone(c.factor, j, k - 1); }
      if j > k { PowerMonotone(c.factor, k + 1, j); PowerGrows(c.factor, k); }
    }
  }

  lemma {:induction false} PowerMonotone(f: int, j: nat, k: nat)
    requires f >= 2 && j <= k
    ensures Power(f, j) <= Power(f, k)
  {
    if j < k {
      PowerMonotone(f, j, k - 1);
      PowerGrows(f, k - 1);
    }
  }

  lemma {:induction false} PowerAbove(f: int, k: nat)
    requires f >= 2
    ensures Power(f, k) >= k
  {
    if k > 0 {
      PowerAbove(f, k - 1);
      PowerGrows(f, k - 1);
    }
  }
}
