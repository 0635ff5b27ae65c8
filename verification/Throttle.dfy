/** The viewer's message throttle. A matching message passes while the count of
    its window is within the limit; a window is restarted by the first message
    more than `timespan` seconds after it began. */
module Throttle {
  datatype State = State(limit: int, timespan: int, windowStart: int, count: int, inUse: bool)

  function FreshThrottle(limit: int, timespan: int): State
  {
    State(limit, timespan, 0, 0, true)
  }

  /** What happens to a throttle: a message (does its name match the pattern,
      and its second), or the switch of the menu entry. */
  datatype Event = Arrive(matches: bool, sec: int) | Use(flag: bool)

  /** The throttle looks at the message. */
  predicate Counts(t: State, e: Event)
  {
    e.Arrive? && e.matches && t.inUse
  }

  function WindowStep(t: State, sec: int): State
  {
    if sec - t.windowStart > t.timespan then t.(windowStart := sec, count := 1) else t.(count := t.count + 1)
  }

  /** reach_limit and use: the new state and whether the message is held back. */
  function Step(t: State, e: Event): (State, bool)
  {
    if e.Use? then (t.(inUse := e.flag), false)
    else if !Counts(t, e) then (t, false)
    else if t.limit == 0 then (t, true)
    else if t.limit < 0 then (t, false)
    else
      var next := if t.timespan <= 0 then t.(count := t.count + 1) else WindowStep(t, e.sec);
      (next, next.count > t.limit)
  }

  class Limiter {
    const limit: int
    const timespan: int
    var windowStart: int
    var count: int
    var inUse: bool

    function Value(): State
      reads this
    {
      State(limit, timespan, windowStart, count, inUse)
    }

    constructor (limit: int, timespan: int)
      ensures Value() == FreshThrottle(limit, timespan)
    {
      this.limit, this.timespan := limit, timespan;
      windowStart, count, inUse := 0, 0, true;
    }

    method SetUse(flag: bool)
      modifies this`inUse
      ensures Value() == Step(old(Value()), Use(flag)).0
    {
      inUse := flag;
    }

    method ReachLimit(matches: bool, sec: int) returns (held: bool)
      modifies this`windowStart, this`count
      ensures (Value(), held) == Step(old(Value()), Arrive(matches, sec))
    {
      if !inUse { return false; }
      if !matches { return false; }
      if limit == 0 { return true; }
      if limit < 0 { return false; }
      if timespan <= 0 {
        count := count + 1;
        return count > limit;
      }
      if sec - windowStart > timespan {
        windowStart := sec;
        count := 1;
      } else {
        count := count + 1;
      }
      return count > limit;
    }
  }

  // -------------------------------------------------------------------- runs

  function Run(t: State, es: seq<Event>): State
  {
    if es == [] then t else Step(Run(t, es[..|es| - 1]), es[|es| - 1]).0
  }

  /** The i-th event is a counted message that passes. */
  predicate PassesAt(t: State, es: seq<Event>, i: nat)
    requires i < |es|
  {
    var u := Run(t, es[..i]);
    Counts(u, es[i]) && !Step(u, es[i]).1
  }

  /** How many counted messages of seconds [a, b] pass. */
  function Passed(t: State, es: seq<Event>, a: int, b: int): nat
  {
    if es == [] then 0
    else
      var n := |es| - 1;
      Passed(t, es[..n], a, b) +
      if PassesAt(t, es, n) && a <= es[n].sec <= b then 1 else 0
  }

  /** One more event. */
  lemma RunSnoc(t: State, es: seq<Event>, e: Event, a: int, b: int)
    ensures Run(t, es + [e]) == Step(Run(t, es), e).0
    ensures Passed(t, es + [e], a, b) == Passed(t, es, a, b) +
            if Counts(Run(t, es), e) && !Step(Run(t, es), e).1 && a <= e.sec <= b then 1 else 0
  {
    assert (es + [e])[..|es|] == es;
  }

  predicate InOrder(es: seq<Event>)
  {
    forall i, j | 0 <= i < j < |es| && es[i].Arrive? && es[j].Arrive? :: es[i].sec <= es[j].sec
  }

  lemma {:induction false} RunKeeps(t: State, es: seq<Event>)
    ensures Run(t, es).limit == t.limit && Run(t, es).timespan == t.timespan
    ensures t.count >= 0 ==> Run(t, es).count >= 0
  {
    if es != [] { RunKeeps(t, es[..|es| - 1]); }
  }

  function Min(a: int, b: int): int { if a < b then a else b }

  /** Nothing passes before its time. */
  lemma {:induction false} NonePassed(t: State, es: seq<Event>, a: int, b: int)
    requires forall i | 0 <= i < |es| && es[i].Arrive? :: es[i].sec < a
    ensures Passed(t, es, a, b) == 0
  {
    if es != [] { NonePassed(t, es[..|es| - 1], a, b); }
  }

  /** Some message of the run came in the second `sec`. */
  predicate Seen(es: seq<Event>, sec: int)
  {
    exists i | 0 <= i < |es| :: es[i].Arrive? && es[i].sec == sec
  }

  lemma SeenSnoc(es: seq<Event>, sec: int)
    requires es != []
    ensures Seen(es, sec) <==> Seen(es[..|es| - 1], sec) || (es[|es| - 1].Arrive? && es[|es| - 1].sec == sec)
  {
    var before := es[..|es| - 1];
    assert forall i | 0 <= i < |before| :: before[i] == es[i];
  }

  /** `p` messages passed in [a, a + timespan]. While the current window began
      before `a`, or with no message of the run, all of them are its own; when it
      began within, the window before it may have used up the limit too. */
  ghost predicate Spent(t: State, p: int, a: int, started: bool)
  {
    && t.count >= 0 && p <= 2 * t.limit
    && (t.windowStart < a || !started ==> p <= Min(t.count, t.limit))
    && (a <= t.windowStart <= a + t.timespan ==> p <= t.limit + Min(t.count, t.limit))
  }

  lemma SpendStep(t: State, sec: int, p: int, a: int, started: bool, started': bool)
    requires t.limit >= 1 && t.timespan >= 1 && Spent(t, p, a, started)
    requires (started ==> t.windowStart <= sec) && (sec < a ==> p == 0)
    requires started' <==> WindowStep(t, sec).windowStart == sec || started
    ensures var u := WindowStep(t, sec);
            Spent(u, p + if u.count <= u.limit && a <= sec <= a + t.timespan then 1 else 0, a, started')
  {
  }

  /** Of any timespan + 1 consecutive seconds at most one starts a window: the
      passes of the window before it and of its own add up. */
  lemma {:induction false} WindowBudget(t: State, es: seq<Event>, a: int)
    requires t.limit >= 1 && t.timespan >= 1 && t.count >= 0 && InOrder(es)
    ensures Spent(Run(t, es), Passed(t, es, a, a + t.timespan), a, Seen(es, Run(t, es).windowStart))
  {
    if es != [] {
      var n := |es| - 1;
      var before, e := es[..n], es[n];
      WindowBudget(t, before, a);
      RunKeeps(t, before);
      var u := Run(t, before);
      SeenSnoc(es, u.windowStart);
      SeenSnoc(es, Run(t, es).windowStart);
      if e.Arrive? && e.sec < a { NonePassed(t, before, a, a + t.timespan); }
      if Counts(u, e) {
        SpendStep(u, e.sec, Passed(t, before, a, a + t.timespan), a, Seen(before, u.windowStart),
                  Seen(es, Run(t, es).windowStart));
      }
    }
  }

  /** At most twice the limit passes in any timespan + 1 consecutive seconds,
      however the throttle is switched on and off in between. */
  lemma AnyWindow(t: State, es: seq<Event>, a: int)
    requires t.limit >= 1 && t.timespan >= 1 && t.count >= 0 && InOrder(es)
    ensures Passed(t, es, a, a + t.timespan) <= 2 * t.limit
  {
    WindowBudget(t, es, a);
    RunKeeps(t, es);
  }

  /** Twice the limit does pass. */
  lemma AnyWindowTight()
    ensures var t := FreshThrottle(1, 1);
            Passed(t, [Arrive(true, 1), Arrive(true, 2)], 1, 2) == 2 * t.limit
  {
    var t := FreshThrottle(1, 1);
    var es := [Arrive(true, 1), Arrive(true, 2)];
    assert es[..1] == [Arrive(true, 1)] && es[..1][..0] == [];
    assert Run(t, es[..1]) == Step(Run(t, []), Arrive(true, 1)).0;
    assert Passed(t, es[..1], 1, 2) == 1;
  }

  // -------------------------------------------------------------- long spans

  predicate Within(es: seq<Event>, lo: int, hi: int)
  {
    forall i | 0 <= i < |es| && es[i].Arrive? :: lo <= es[i].sec <= hi
  }

  /** After `k` windows the newest began at least (k - 1) * (timespan + 1)
      seconds after `lo`, and the older ones let at most the limit pass each. */
  ghost predicate Budget(t: State, u: State, passed: int, lo: int, k: nat)
  {
    if k == 0 then u.windowStart == t.windowStart && passed == 0
    else u.windowStart >= lo + (k - 1) * (t.timespan + 1) && passed <= (k - 1) * t.limit + Min(u.count, t.limit)
  }

  lemma {:induction false} SpanBudget(t: State, es: seq<Event>, lo: int, hi: int) returns (k: nat)
    requires t.limit >= 1 && t.timespan >= 1 && t.count >= 0 && lo - t.windowStart > t.timespan
    requires InOrder(es) && Within(es, lo, hi)
    ensures Budget(t, Run(t, es), Passed(t, es, lo, hi), lo, k)
    ensures k > 0 ==> Run(t, es).windowStart <= hi
  {
    k := 0;
    if es != [] {
      var n := |es| - 1;
      k := SpanBudget(t, es[..n], lo, hi);
      RunKeeps(t, es[..n]);
      var u := Run(t, es[..n]);
      if Counts(u, es[n]) && es[n].sec - u.windowStart > t.timespan {
        NewWindow(t, u, Passed(t, es[..n], lo, hi), lo, k, es[n].sec);
        k := k + 1;
      }
    }
  }

  lemma NewWindow(t: State, u: State, passed: int, lo: int, k: nat, sec: int)
    requires t.limit >= 1 && t.timespan >= 1 && u.count >= 0 && Budget(t, u, passed, lo, k)
    requires sec >= lo && sec - u.windowStart > t.timespan
    ensures sec >= lo + k * (t.timespan + 1) && passed + 1 <= k * t.limit + 1
  {
    if k > 0 {
      assert lo + (k - 1) * (t.timespan + 1) + t.timespan + 1 == lo + k * (t.timespan + 1);
      assert (k - 1) * t.limit + t.limit == k * t.limit;
    }
  }

  /** From a throttle whose window is over at `lo` (a new one, say), over
      [lo, hi] the limit passes at most once per started timespan + 1 seconds. */
  lemma LongSpan(t: State, es: seq<Event>, lo: int, hi: int)
    requires t.limit >= 1 && t.timespan >= 1 && t.count >= 0 && lo - t.windowStart > t.timespan && lo <= hi
    requires InOrder(es) && Within(es, lo, hi)
    ensures Passed(t, es, lo, hi) <= t.limit * ((hi - lo) / (t.timespan + 1) + 1)
  {
    var k := SpanBudget(t, es, lo, hi);
    if k > 0 {
      Quotient(k - 1, hi - lo, t.timespan + 1);
      Product(t.limit, k, (hi - lo) / (t.timespan + 1) + 1);
      assert (k - 1) * t.limit + t.limit == t.limit * k;
    } else {
      Product(t.limit, 0, (hi - lo) / (t.timespan + 1) + 1);
    }
  }

  lemma Quotient(k: int, n: int, d: int)
    requires d > 0 && k * d <= n
    ensures k <= n / d
  {
    assert n < (n / d + 1) * d;
    if n / d < k { Product(d, n / d + 1, k); }
  }

  lemma Product(a: int, b: int, c: int)
    requires a >= 0 && b <= c
    ensures a * b <= a * c
  {
  }

  // --------------------------------------------------------- the other limits

  function Counted(t: State, es: seq<Event>): nat
  {
    if es == [] then 0
    else Counted(t, es[..|es| - 1]) + if Counts(Run(t, es[..|es| - 1]), es[|es| - 1]) then 1 else 0
  }

  function PassedEver(t: State, es: seq<Event>): nat
  {
    if es == [] then 0
    else PassedEver(t, es[..|es| - 1]) + if PassesAt(t, es, |es| - 1) then 1 else 0
  }

  /** The events without the messages whose name does not match. */
  function Matching(es: seq<Event>): seq<Event>
  {
    if es == [] then []
    else
      var e := es[|es| - 1];
      Matching(es[..|es| - 1]) + if e.Arrive? && !e.matches then [] else [e]
  }

  /** No message comes more than a timespan after second a. */
  predicate NoneAfter(es: seq<Event>, a: int, timespan: int)
  {
    forall i | 0 <= i < |es| && es[i].Arrive? :: es[i].sec - a <= timespan
  }

  /** A counted message more than a timespan after the start of the last window starts
      a new one, and until the timespan from it is over, exactly the first `limit`
      counted messages pass, however the throttle is switched in between. */
  lemma {:induction false} WindowExact(t: State, before: seq<Event>, e: Event, more: seq<Event>)
    requires t.limit >= 1 && t.timespan >= 1
    requires Counts(Run(t, before), e) && e.sec - Run(t, before).windowStart > t.timespan
    requires NoneAfter(more, e.sec, t.timespan)
    ensures var u, es := Run(t, before), [e] + more;
            && PassedEver(u, es) == Min(t.limit, Counted(u, es))
            && Run(u, es).windowStart == e.sec && Run(u, es).count == Counted(u, es)
  {
    var u, es := Run(t, before), [e] + more;
    RunKeeps(t, before);
    if more == [] {
      assert es == [e] && es[..0] == [];
      assert Run(u, []) == u && Counted(u, []) == 0 && PassedEver(u, []) == 0;
    } else {
      var n := |more| - 1;
      WindowExact(t, before, e, more[..n]);
      assert es[..|es| - 1] == [e] + more[..n] && es[|es| - 1] == more[n];
      RunKeeps(u, [e] + more[..n]);
    }
  }

  /** Within a window that has begun, the rest of the limit passes. */
  lemma {:induction false} RestOfWindow(t: State, more: seq<Event>)
    requires t.limit >= 1 && t.timespan >= 1 && 0 <= t.count && NoneAfter(more, t.windowStart, t.timespan)
    ensures PassedEver(t, more) == Min(if t.count < t.limit then t.limit - t.count else 0, Counted(t, more))
    ensures Run(t, more).windowStart == t.windowStart && Run(t, more).count == t.count + Counted(t, more)
  {
    if more != [] {
      RestOfWindow(t, more[..|more| - 1]);
      RunKeeps(t, more[..|more| - 1]);
    }
  }

  /** Messages that do not match might as well not have come. */
  lemma {:induction false} Ignored(t: State, es: seq<Event>)
    ensures Run(t, es) == Run(t, Matching(es))
    ensures Counted(t, es) == Counted(t, Matching(es)) && PassedEver(t, es) == PassedEver(t, Matching(es))
  {
    if es != [] {
      var front, e := es[..|es| - 1], es[|es| - 1];
      Ignored(t, front);
      if e.Arrive? && !e.matches {
        assert Matching(es) == Matching(front);
      } else {
        assert (Matching(front) + [e])[..|Matching(front)|] == Matching(front);
      }
    }
  }

  /** Until it is switched on again, nothing reaches a throttle that is off. */
  lemma {:induction false} OffIgnores(t: State, es: seq<Event>)
    requires !t.inUse && forall i | 0 <= i < |es| :: es[i] != Use(true)
    ensures Run(t, es) == t && Counted(t, es) == 0
  {
    if es != [] { OffIgnores(t, es[..|es| - 1]); }
  }

  /** Limit 0 lets no counted message pass, a negative limit all of them, and a
      timespan of 0 or less the first `limit` ones ever. */
  lemma {:induction false} OtherLimits(t: State, es: seq<Event>)
    requires t.count == 0
    ensures t.limit == 0 ==> PassedEver(t, es) == 0
    ensures t.limit < 0 ==> PassedEver(t, es) == Counted(t, es)
    ensures t.limit > 0 && t.timespan <= 0 ==>
              Run(t, es).count == Counted(t, es) && PassedEver(t, es) == Min(t.limit, Counted(t, es))
  {
    if es != [] {
      OtherLimits(t, es[..|es| - 1]);
      RunKeeps(t, es[..|es| - 1]);
    }
  }
}
