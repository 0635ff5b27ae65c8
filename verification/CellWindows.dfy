/** The cell state machine, together with its queued timing events, counts the
    hits in a sliding window. */
module CellWindows {
  import opened Options
  import opened Cells

  // ----------------------------------------------------------------- windows

  ghost predicate Sorted(hist: seq<int>)
  {
    forall i, j | 0 <= i <= j < |hist| :: hist[i] <= hist[j]
  }

  function Last(hist: seq<int>): int
    requires hist != []
  {
    hist[|hist| - 1]
  }

  /** The number of hits with lo <= time <= hi. */
  function HitsIn(hist: seq<int>, lo: int, hi: int): nat
  {
    if hist == [] then 0
    else (if lo <= Last(hist) <= hi then 1 else 0) + HitsIn(hist[..|hist| - 1], lo, hi)
  }

  lemma {:induction false} CountBelow(hist: seq<int>, lo: int, hi: int)
    requires Sorted(hist) && (hist != [] ==> Last(hist) < lo)
    ensures HitsIn(hist, lo, hi) == 0
  {
    if hist != [] { CountBelow(hist[..|hist| - 1], lo, hi); }
  }

  /** At least m hits fall in [lo, hi] exactly when the m-th most recent one is
      not before lo. */
  lemma {:induction false} CountSuffix(hist: seq<int>, lo: int, hi: int, m: nat)
    requires Sorted(hist) && (hist != [] ==> Last(hist) <= hi)
    ensures HitsIn(hist, lo, hi) >= m <==> m == 0 || (|hist| >= m && hist[|hist| - m] >= lo)
  {
    if hist != [] && m > 0 {
      var rest := hist[..|hist| - 1];
      CountSuffix(rest, lo, hi, m - 1);
      if Last(hist) < lo { CountBelow(rest, lo, hi); }
    }
  }

  // --------------------------------------------------------------- invariant

  /** What an event batch found: the hits so far, and its second. */
  datatype Check = Check(hits: seq<int>, now: int)

  /** The hit times and the event batches since the last reset. */
  datatype Past = Past(hits: seq<int>, checks: seq<Check>)

  /** A cell with its past, the stamps queued for it, and the stamps delivered to
      it since the last reset. */
  datatype Track = Track(cell: CellState, past: Past, queued: iset<int>, delivered: iset<int>)

  /** The buffer holds the most recent hits of the window ending at the last
      hit, cut to the trigger count. */
  ghost predicate Tail(msgs: seq<int>, hist: seq<int>, cfg: Config)
  {
    var k := |msgs|;
    && k <= |hist| && msgs == hist[|hist| - k..]
    && (hist != [] ==>
          && 1 <= k <= cfg.tc && msgs[0] >= Last(hist) - cfg.ts
          && (k == cfg.tc || k == |hist| || hist[|hist| - k - 1] < Last(hist) - cfg.ts))
  }

  /** A cell waiting for the clock has its timing event in the queue. */
  ghost predicate NotStuck(cfg: Config, c: CellState, queued: iset<int>)
  {
    && (cfg.atLeast && !cfg.persistent && c.on ==> c.tEvent in queued)
    && (!cfg.atLeast && !c.on && c.msgs != [] ==> c.tEvent in queued)
  }

  /** The window ending at the last hit holds the required number. */
  predicate Full(cfg: Config, hist: seq<int>)
  {
    hist != [] && HitsIn(hist, Last(hist) - cfg.ts, Last(hist)) >= cfg.tc
  }

  /** At some hit so far, the window ending there held the required number. */
  predicate Reached(cfg: Config, hist: seq<int>)
  {
    hist != [] && (Full(cfg, hist) || Reached(cfg, hist[..|hist| - 1]))
  }

  /** The window ending at T has lost a hit that it held when the last one came
      in, and holds at most the allowed number. */
  predicate LostHit(cfg: Config, hits: seq<int>, T: int)
  {
    hits != [] && Last(hits) <= T &&
    var n := HitsIn(hits, T - cfg.ts, T);
    n < cfg.tc && n < HitsIn(hits, Last(hits) - cfg.ts, Last(hits))
  }

  /** Some batch so far found that a hit had been lost by the second before it. */
  predicate Latched(cfg: Config, past: Past)
  {
    exists i | 0 <= i < |past.checks| :: LostHit(cfg, past.checks[i].hits, past.checks[i].now - 1)
  }

  /** Some batch since the last hit found that a hit had been lost by the second
      before it. */
  predicate LostSince(cfg: Config, past: Past)
  {
    exists i | 0 <= i < |past.checks| ::
      past.checks[i].hits == past.hits && LostHit(cfg, past.hits, past.checks[i].now - 1)
  }

  /** When a cell is on, by its past alone. A persistent cell: by any hit so far
      that completed the required number, or by any batch so far that found its
      window below the allowed number. Any other: by the last hit and the batches
      since. */
  predicate ReadsNow(cfg: Config, past: Past)
  {
    if cfg.persistent then
      if cfg.atLeast then Reached(cfg, past.hits) else Latched(cfg, past)
    else
      if cfg.atLeast then Full(cfg, past.hits) && !LostSince(cfg, past) else LostSince(cfg, past)
  }

  /** No batch saw a hit that is not among the hits so far. */
  ghost predicate ChecksOk(past: Past)
  {
    forall i | 0 <= i < |past.checks| :: |past.checks[i].hits| <= |past.hits|
  }

  /** The number of hits in the window of the last one, capped at the trigger
      count. */
  function Capped(cfg: Config, hits: seq<int>): nat
    requires cfg.Ok()
  {
    if hits == [] then 0
    else
      var n := HitsIn(hits, Last(hits) - cfg.ts, Last(hits));
      if n < cfg.tc then n else cfg.tc
  }

  /** The hits seen by the first batch that found one lost. */
  function LatchedHits(cfg: Config, checks: seq<Check>): seq<int>
  {
    if checks == [] then []
    else
      var front := checks[..|checks| - 1];
      if Latched(cfg, Past([], front)) then LatchedHits(cfg, front) else checks[|checks| - 1].hits
  }

  /** How many messages a cell holds, by its past. While a persistent cell is on,
      their number does not change. */
  function Held(cfg: Config, past: Past): nat
    requires cfg.Ok()
  {
    if !cfg.persistent || !ReadsNow(cfg, past) then Capped(cfg, past.hits)
    else if cfg.atLeast then cfg.tc else Capped(cfg, LatchedHits(cfg, past.checks))
  }

  ghost predicate Inv(cfg: Config, tr: Track)
  {
    && Core(cfg, tr) && ChecksOk(tr.past) && (tr.cell.on <==> ReadsNow(cfg, tr.past))
    && (cfg.persistent && tr.cell.on ==> |tr.cell.msgs| == Held(cfg, tr.past))
  }

  /** The newest message held is the last hit. */
  predicate Newest(msgs: seq<int>, hits: seq<int>)
  {
    hits != [] ==> msgs != [] && Last(msgs) == Last(hits)
  }

  ghost predicate Core(cfg: Config, tr: Track)
  {
    var c := tr.cell;
    var full := |c.msgs| == cfg.tc;
    && cfg.Ok() && Sorted(tr.past.hits)
    && (tr.past.hits == [] <==> c.msgs == []) && (c.msgs == [] ==> c == FRESH)
    && Newest(c.msgs, tr.past.hits)
    && (forall q | q in tr.queued :: q >= 1)
    && NotStuck(cfg, c, tr.queued)
    && (!(c.on && cfg.persistent) ==>
          && Tail(c.msgs, tr.past.hits, cfg)
          && (c.msgs != [] && (full || !cfg.atLeast) ==> c.tEvent == c.msgs[0] + cfg.ts + 1))
    && (cfg.atLeast && !cfg.persistent && full && !c.on ==> c.tEvent in tr.delivered)
    && (cfg.atLeast && !cfg.persistent && c.on ==> full)
    && (!cfg.atLeast && !cfg.persistent && c.on ==> c.tEvent in tr.delivered)
    && (cfg.atLeast && cfg.persistent && !c.on ==> !full && c.tEvent == 0)
  }

  function WithHit(past: Past, t: int): Past
  {
    past.(hits := past.hits + [t])
  }

  function WithCheck(past: Past, now: int): Past
  {
    past.(checks := past.checks + [Check(past.hits, now)])
  }

  /** The track after a hit at `t` with result `h`. */
  function AfterHit(tr: Track, h: HitResult, t: int): Track
  {
    Track(h.state, WithHit(tr.past, t),
          if h.stamp.Some? then tr.queued + iset{h.stamp.value} else tr.queued, tr.delivered)
  }

  /** Delivering a collection of queued stamps. */
  function FireAny(c: CellState, cfg: Config, due: iset<int>): CellState
  {
    if c.tEvent in due then FireStep(c, cfg, c.tEvent).0 else c
  }

  /** The queued stamps a batch delivers. */
  ghost function DueBefore(queued: iset<int>, now: int): iset<int>
  {
    iset q | q in queued && q < now
  }

  /** The track after a batch that leaves the stamps `left` in the queue. */
  ghost function AfterBatch(cfg: Config, tr: Track, now: int, left: iset<int>): Track
  {
    var due := DueBefore(tr.queued, now);
    Track(FireAny(tr.cell, cfg, due), WithCheck(tr.past, now), left, tr.delivered + due)
  }

  lemma {:induction false} DropExpiredSuffix(msgs: seq<int>, latest: int, ts: int)
    requires Sorted(msgs) && msgs != [] && Last(msgs) == latest && ts >= 0
    ensures var r := DropExpired(msgs, latest, ts);
            && r != [] && r[0] >= latest - ts
            && (|r| < |msgs| ==> msgs[|msgs| - |r| - 1] < latest - ts)
  {
    if latest - msgs[0] > ts {
      DropExpiredSuffix(msgs[1..], latest, ts);
    }
  }

  ghost predicate Suffix(x: seq<int>, all: seq<int>)
  {
    |x| <= |all| && x == all[|all| - |x|..]
  }

  lemma SuffixTransitive(x: seq<int>, y: seq<int>, z: seq<int>)
    requires Suffix(x, y) && Suffix(y, z)
    ensures Suffix(x, z)
    ensures |x| < |y| ==> z[|z| - |x| - 1] == y[|y| - |x| - 1]
  {
  }

  /** What remains of the buffer once expired messages are dropped. */
  lemma DropFacts(cfg: Config, msgs: seq<int>, hist: seq<int>, t: int, d: seq<int>)
    requires cfg.Ok() && Sorted(hist) && Tail(msgs, hist, cfg) && (hist == [] ==> msgs == [])
    requires hist != [] ==> Last(hist) <= t
    requires d == DropExpired(msgs + [t], t, cfg.ts)
    ensures Sorted(hist + [t]) && Suffix(d, hist + [t]) && d != [] && d[0] >= t - cfg.ts
    ensures |d| < |msgs| + 1 ==> (msgs + [t])[|msgs| - |d|] < t - cfg.ts
  {
    var all := hist + [t];
    var ext := msgs + [t];
    SortedSnoc(hist, t);
    SuffixSnoc(msgs, hist, t);
    SuffixSorted(ext, all);
    DropExpiredSuffix(ext, t, cfg.ts);
    SuffixTransitive(d, ext, all);
  }

  lemma SortedSnoc(hist: seq<int>, t: int)
    requires Sorted(hist) && (hist != [] ==> Last(hist) <= t)
    ensures Sorted(hist + [t])
  {
  }

  lemma SuffixSnoc(x: seq<int>, all: seq<int>, t: int)
    requires Suffix(x, all)
    ensures Suffix(x + [t], all + [t])
  {
  }

  /** The buffer after a hit, before any status is decided. */
  lemma HitTail(cfg: Config, msgs: seq<int>, hist: seq<int>, t: int)
    requires cfg.Ok() && Sorted(hist) && Tail(msgs, hist, cfg) && (hist == [] ==> msgs == [])
    requires hist != [] ==> Last(hist) <= t
    ensures Sorted(hist + [t]) && Tail(Kept(msgs, t, cfg), hist + [t], cfg)
  {
    var d := DropExpired(msgs + [t], t, cfg.ts);
    DropFacts(cfg, msgs, hist, t, d);
    SuffixSorted(d, hist + [t]);
    ExpiredEdge(cfg, msgs, hist, t, d);
    CutTail(cfg, d, hist + [t]);
  }

  lemma SuffixSorted(x: seq<int>, all: seq<int>)
    requires Suffix(x, all) && Sorted(all)
    ensures Sorted(x)
  {
  }

  /** Cutting a window's buffer to the trigger count. */
  lemma CutTail(cfg: Config, d: seq<int>, all: seq<int>)
    requires cfg.Ok() && Sorted(d) && Suffix(d, all) && d != [] && d[0] >= Last(all) - cfg.ts
    requires |d| >= cfg.tc || |d| == |all| || all[|all| - |d| - 1] < Last(all) - cfg.ts
    ensures Tail(LastN(d, cfg.tc), all, cfg)
  {
    if |d| > cfg.tc {
      var r := LastN(d, cfg.tc);
      assert r[0] == d[|d| - cfg.tc];
      assert Suffix(r, d);
      SuffixTransitive(r, d, all);
    }
  }

  /** Nothing older than the kept buffer is still in the window. */
  lemma ExpiredEdge(cfg: Config, msgs: seq<int>, hist: seq<int>, t: int, d: seq<int>)
    requires cfg.Ok() && Sorted(hist) && Tail(msgs, hist, cfg) && (hist == [] ==> msgs == [])
    requires hist != [] ==> Last(hist) <= t
    requires d == DropExpired(msgs + [t], t, cfg.ts) && d != [] && Suffix(d, hist + [t])
    requires |d| < |msgs| + 1 ==> (msgs + [t])[|msgs| - |d|] < t - cfg.ts
    ensures |d| >= cfg.tc || |d| == |hist| + 1 || (hist + [t])[|hist| - |d|] < t - cfg.ts
  {
    var all := hist + [t];
    if |d| < |msgs| + 1 {
      assert all[|hist| - |d|] == (msgs + [t])[|msgs| - |d|];
    } else if |msgs| < |hist| && |d| < cfg.tc {
      assert all[|hist| - |d|] == hist[|hist| - |msgs| - 1];
    }
  }

  lemma SettleKeeps(cfg: Config, tr: Track, t: int, msgs: seq<int>)
    requires Core(cfg, tr) && !(tr.cell.on && cfg.persistent) && t >= 0
    requires Sorted(tr.past.hits + [t]) && Tail(msgs, tr.past.hits + [t], cfg)
    ensures Core(cfg, AfterHit(tr, Settle(msgs, tr.cell.on, tr.cell.tEvent, cfg), t))
  {
    assert msgs[0] >= t - cfg.ts;
  }

  lemma HitKeepsCore(cfg: Config, tr: Track, t: int)
    requires Core(cfg, tr) && t >= 0 && (tr.past.hits != [] ==> Last(tr.past.hits) <= t)
    ensures Core(cfg, AfterHit(tr, HitStep(tr.cell, cfg, t), t))
  {
    var c := tr.cell;
    if tr.past.hits != [] { assert Last(tr.past.hits) <= t; }
    SortedSnoc(tr.past.hits, t);
    if !(c.on && cfg.persistent) {
      HitTail(cfg, c.msgs, tr.past.hits, t);
      SettleKeeps(cfg, tr, t, Kept(c.msgs, t, cfg));
    }
  }

  /** A hit never schedules an event for its own second or before. */
  lemma StampAfter(cfg: Config, tr: Track, t: int)
    requires Core(cfg, tr) && t >= 0 && (tr.past.hits != [] ==> Last(tr.past.hits) <= t)
    ensures var stamp := HitStep(tr.cell, cfg, t).stamp; stamp.Some? ==> stamp.value > t
  {
    if !(tr.cell.on && cfg.persistent) {
      HitTail(cfg, tr.cell.msgs, tr.past.hits, t);
      assert Last(tr.past.hits + [t]) == t;
    }
  }

  /** A hit keeps the invariant. */
  lemma HitKeeps(cfg: Config, tr: Track, t: int)
    requires Inv(cfg, tr) && t >= 0 && (tr.past.hits != [] ==> Last(tr.past.hits) <= t)
    ensures Inv(cfg, AfterHit(tr, HitStep(tr.cell, cfg, t), t))
  {
    HitKeepsCore(cfg, tr, t);
    var on' := HitStep(tr.cell, cfg, t).state.on;
    if cfg.persistent && tr.cell.on {
      PersistentStaysOn(cfg, tr.cell, t, iset{});
    } else if cfg.atLeast {
      TurnsOn(cfg, tr.cell, tr.past.hits, t);
    } else {
      StaysOff(cfg, tr.cell, t);
    }
    HitReads(cfg, tr.cell.on, on', tr.past, t);
    HitHeld(cfg, tr, t);
  }

  /** A hit on a persistent cell that is on drops one message for the new one; one
      that turns it on fills the buffer. */
  lemma HitHeld(cfg: Config, tr: Track, t: int)
    requires Inv(cfg, tr) && ReadsNow(cfg, WithHit(tr.past, t)) == HitStep(tr.cell, cfg, t).state.on
    ensures cfg.persistent && HitStep(tr.cell, cfg, t).state.on ==>
              |HitStep(tr.cell, cfg, t).state.msgs| == Held(cfg, WithHit(tr.past, t))
  {
  }

  lemma HitReads(cfg: Config, on: bool, on': bool, past: Past, t: int)
    requires ChecksOk(past) && (on <==> ReadsNow(cfg, past))
    requires if cfg.persistent && on then on' else on' == (cfg.atLeast && Full(cfg, past.hits + [t]))
    ensures ChecksOk(WithHit(past, t)) && (on' <==> ReadsNow(cfg, WithHit(past, t)))
  {
    ReachedSnoc(cfg, past.hits, t);
    assert !LostSince(cfg, WithHit(past, t));
  }

  lemma StaysOff(cfg: Config, c: CellState, t: int)
    requires cfg.Ok() && !cfg.atLeast && !(c.on && cfg.persistent)
    ensures !HitStep(c, cfg, t).state.on
  {
  }

  lemma ReachedSnoc(cfg: Config, hist: seq<int>, t: int)
    ensures Reached(cfg, hist + [t]) <==> Full(cfg, hist + [t]) || Reached(cfg, hist)
  {
    assert (hist + [t])[..|hist|] == hist;
  }

  /** An at-least cell turns on exactly when the window of the hit holds the
      required number. */
  lemma TurnsOn(cfg: Config, c: CellState, hist: seq<int>, t: int)
    requires cfg.Ok() && cfg.atLeast && !(c.on && cfg.persistent)
    requires Sorted(hist) && Tail(c.msgs, hist, cfg) && (hist == [] ==> c.msgs == [])
    requires hist != [] ==> Last(hist) <= t
    ensures HitStep(c, cfg, t).state.on <==> Full(cfg, hist + [t])
  {
    HitTail(cfg, c.msgs, hist, t);
    KeptDecides(cfg, c, Kept(c.msgs, t, cfg), hist + [t], t);
  }

  lemma KeptDecides(cfg: Config, c: CellState, kept: seq<int>, all: seq<int>, t: int)
    requires cfg.Ok() && cfg.atLeast && !(c.on && cfg.persistent) && kept == Kept(c.msgs, t, cfg)
    requires Sorted(all) && Tail(kept, all, cfg) && all != [] && Last(all) == t
    ensures HitStep(c, cfg, t).state.on <==> Full(cfg, all)
  {
    TailCount(cfg, kept, all);
  }

  /** The buffer size is the window count at the last hit, capped. */
  lemma TailCount(cfg: Config, msgs: seq<int>, hist: seq<int>)
    requires cfg.Ok() && Sorted(hist) && Tail(msgs, hist, cfg) && hist != []
    ensures var n := HitsIn(hist, Last(hist) - cfg.ts, Last(hist));
            |msgs| == if n < cfg.tc then n else cfg.tc
  {
    var L := Last(hist);
    CountSuffix(hist, L - cfg.ts, L, |msgs|);
    CountSuffix(hist, L - cfg.ts, L, |msgs| + 1);
  }

  /** A batch keeps the invariant, whatever copies of equal stamps stay queued. */
  lemma BatchKeeps(cfg: Config, tr: Track, now: int, left: iset<int>)
    requires Inv(cfg, tr) && tr.queued - DueBefore(tr.queued, now) <= left <= tr.queued
    ensures Inv(cfg, AfterBatch(cfg, tr, now, left))
  {
    BatchKeepsCore(cfg, tr, now, left);
    LatchedSnoc(cfg, tr.past, now);
    if cfg.atLeast && !cfg.persistent {
      if tr.cell.on { TurnsOff(cfg, tr, now); }
    } else if !cfg.atLeast {
      if !tr.cell.on { LatchesOn(cfg, tr, now); }
    }
    if cfg.persistent { BatchHeld(cfg, tr, now); }
  }

  lemma BatchHeld(cfg: Config, tr: Track, now: int)
    requires Inv(cfg, tr) && cfg.persistent
    requires FireAny(tr.cell, cfg, DueBefore(tr.queued, now)).on ==> ReadsNow(cfg, WithCheck(tr.past, now))
    ensures FireAny(tr.cell, cfg, DueBefore(tr.queued, now)).on && (cfg.atLeast ==> tr.cell.on) ==>
              |tr.cell.msgs| == Held(cfg, WithCheck(tr.past, now))
  {
    var checks := tr.past.checks;
    assert (checks + [Check(tr.past.hits, now)])[..|checks|] == checks;
    assert Latched(cfg, Past([], checks)) <==> Latched(cfg, tr.past);
    if !cfg.atLeast && !tr.cell.on && tr.past.hits != [] { TailCount(cfg, tr.cell.msgs, tr.past.hits); }
  }

  lemma BatchKeepsCore(cfg: Config, tr: Track, now: int, left: iset<int>)
    requires Core(cfg, tr) && tr.queued - DueBefore(tr.queued, now) <= left <= tr.queued
    ensures Core(cfg, AfterBatch(cfg, tr, now, left))
  {
  }

  lemma LatchedSnoc(cfg: Config, past: Past, now: int)
    ensures Latched(cfg, WithCheck(past, now)) <==> Latched(cfg, past) || LostHit(cfg, past.hits, now - 1)
    ensures LostSince(cfg, WithCheck(past, now)) <==> LostSince(cfg, past) || LostHit(cfg, past.hits, now - 1)
  {
    var all := past.checks + [Check(past.hits, now)];
    assert all[|past.checks|] == Check(past.hits, now);
    assert forall i | 0 <= i < |past.checks| :: all[i] == past.checks[i];
  }

  /** An at-most cell that is off is turned on by a batch exactly when its window
      has lost a hit by the second before. */
  lemma LatchesOn(cfg: Config, tr: Track, now: int)
    requires Core(cfg, tr) && !cfg.atLeast && !tr.cell.on
    ensures FireAny(tr.cell, cfg, DueBefore(tr.queued, now)).on <==> LostHit(cfg, tr.past.hits, now - 1)
  {
    var hits, msgs := tr.past.hits, tr.cell.msgs;
    if hits != [] {
      assert msgs[0] == hits[|hits| - |msgs|] && tr.cell.tEvent in tr.queued;
      TailCount(cfg, msgs, hits);
      if Last(hits) <= now - 1 { CountSuffix(hits, now - 1 - cfg.ts, now - 1, |msgs|); }
    }
  }

  /** An at-least cell that is on and not persistent is turned off by a batch
      exactly when its window has lost a hit by the second before. */
  lemma TurnsOff(cfg: Config, tr: Track, now: int)
    requires Core(cfg, tr) && cfg.atLeast && !cfg.persistent && tr.cell.on
    ensures FireAny(tr.cell, cfg, DueBefore(tr.queued, now)).on <==> !LostHit(cfg, tr.past.hits, now - 1)
  {
    var hits, msgs := tr.past.hits, tr.cell.msgs;
    assert msgs[0] == hits[|hits| - |msgs|] && tr.cell.tEvent in tr.queued;
    TailCount(cfg, msgs, hits);
    if Last(hits) <= now - 1 { CountSuffix(hits, now - 1 - cfg.ts, now - 1, |msgs|); }
  }

  lemma ResetKeeps(cfg: Config, tr: Track)
    requires Inv(cfg, tr)
    ensures Inv(cfg, Track(FRESH, Past([], []), tr.queued, iset{}))
  {
  }

  // ---------------------------------------------------------------- theorems

  /** At time T, every queued stamp up to T has been delivered and no other. */
  ghost predicate Settled(tr: Track, T: int)
  {
    && (tr.past.hits != [] ==> Last(tr.past.hits) <= T)
    && (forall q | q in tr.queued :: q > T)
    && (forall d | d in tr.delivered :: d <= T)
  }

  /** "At least n in T seconds": on exactly when the window holds n hits. */
  lemma AtLeastWindow(cfg: Config, tr: Track, T: int)
    requires Inv(cfg, tr) && cfg.atLeast && !cfg.persistent && Settled(tr, T)
    ensures tr.cell.on <==> HitsIn(tr.past.hits, T - cfg.ts, T) >= cfg.tc
  {
    CountSuffix(tr.past.hits, T - cfg.ts, T, cfg.tc);
    if tr.past.hits != [] && |tr.cell.msgs| < cfg.tc && |tr.past.hits| >= cfg.tc {
      assert tr.past.hits[|tr.past.hits| - cfg.tc] <= tr.past.hits[|tr.past.hits| - |tr.cell.msgs| - 1];
    }
  }

  /** "At most n in T seconds": on exactly when the cell was hit and the window
      has lost a hit it held when the last one came in; then it holds at most n. */
  lemma AtMostWindow(cfg: Config, tr: Track, T: int)
    requires Inv(cfg, tr) && !cfg.atLeast && !cfg.persistent && Settled(tr, T)
    ensures tr.cell.on <==> LostHit(cfg, tr.past.hits, T)
    ensures tr.cell.on ==> HitsIn(tr.past.hits, T - cfg.ts, T) <= cfg.tc - 1
  {
    if tr.past.hits != [] {
      TailCount(cfg, tr.cell.msgs, tr.past.hits);
      CountSuffix(tr.past.hits, T - cfg.ts, T, |tr.cell.msgs|);
    }
  }

  /** When a cell is on at the close of second T: as before if it is persistent,
      else by the window ending at T. */
  predicate ReadsOn(cfg: Config, past: Past, T: int)
  {
    if cfg.persistent then ReadsNow(cfg, past)
    else if cfg.atLeast then HitsIn(past.hits, T - cfg.ts, T) >= cfg.tc else LostHit(cfg, past.hits, T)
  }

  /** The status of every cell: at any moment by its past, and at the close of
      second T by the window ending there. */
  lemma CellReading(cfg: Config, tr: Track, T: int)
    requires Inv(cfg, tr)
    ensures tr.cell.on <==> ReadsNow(cfg, tr.past)
    ensures Settled(tr, T) ==> (tr.cell.on <==> ReadsOn(cfg, tr.past, T))
  {
    if Settled(tr, T) && !cfg.persistent {
      if cfg.atLeast { AtLeastWindow(cfg, tr, T); } else { AtMostWindow(cfg, tr, T); }
    }
  }

  /** The size of a cell's buffer and its newest message, at any moment, by its past. */
  lemma CellHolds(cfg: Config, tr: Track)
    requires Inv(cfg, tr)
    ensures |tr.cell.msgs| == Held(cfg, tr.past) && Newest(tr.cell.msgs, tr.past.hits)
  {
    if !(cfg.persistent && tr.cell.on) && tr.past.hits != [] { TailCount(cfg, tr.cell.msgs, tr.past.hits); }
  }

  // ------------------------------------------- the configured number of messages

  /** Up to the k-th hit, at least n came within ts seconds. */
  predicate CompletedAt(hits: seq<int>, ts: int, n: int, k: nat)
  {
    1 <= k <= |hits| && HitsIn(hits[..k], hits[k - 1] - ts, hits[k - 1]) >= n
  }

  predicate Completed(hits: seq<int>, ts: int, n: int)
  {
    exists k | 0 <= k <= |hits| :: CompletedAt(hits, ts, n, k)
  }

  /** The ts seconds up to T hold at most n hits, and fewer than those up to the last
      hit did. */
  predicate Thinned(hits: seq<int>, ts: int, n: int, T: int)
  {
    && hits != [] && Last(hits) <= T && HitsIn(hits, T - ts, T) <= n
    && HitsIn(hits, T - ts, T) < HitsIn(hits, Last(hits) - ts, Last(hits))
  }

  /** When a cell of a condition "at least (at most) n messages in ts seconds" is on at
      the close of second T, in terms of that n. */
  predicate ConfiguredOn(n: int, atLeast: bool, ts: int, persistent: bool, past: Past, T: int)
  {
    if persistent then
      if atLeast then Completed(past.hits, ts, n)
      else exists i | 0 <= i < |past.checks| :: Thinned(past.checks[i].hits, ts, n, past.checks[i].now - 1)
    else
      if atLeast then HitsIn(past.hits, T - ts, T) >= n else Thinned(past.hits, ts, n, T)
  }

  lemma CompletedFront(hits: seq<int>, ts: int, n: int, k: nat)
    requires k < |hits|
    ensures CompletedAt(hits[..|hits| - 1], ts, n, k) <==> CompletedAt(hits, ts, n, k)
  {
    assert hits[..|hits| - 1][..k] == hits[..k];
  }

  lemma CompletedLast(hits: seq<int>, ts: int, n: int)
    requires hits != []
    ensures Completed(hits, ts, n) <==> Completed(hits[..|hits| - 1], ts, n) || CompletedAt(hits, ts, n, |hits|)
  {
    var front := hits[..|hits| - 1];
    if k: nat :| k <= |front| && CompletedAt(front, ts, n, k) { CompletedFront(hits, ts, n, k); }
    if k: nat :| k < |hits| && CompletedAt(hits, ts, n, k) { CompletedFront(hits, ts, n, k); }
  }

  lemma {:induction false} ReachedMeaning(cfg: Config, hits: seq<int>)
    ensures Reached(cfg, hits) <==> Completed(hits, cfg.ts, cfg.tc)
  {
    if hits != [] {
      ReachedMeaning(cfg, hits[..|hits| - 1]);
      CompletedLast(hits, cfg.ts, cfg.tc);
      assert hits[..|hits|] == hits;
    }
  }

  lemma ReadsConfigured(n: int, atLeast: bool, ts: int, perSource: bool, perTarget: bool, persistent: bool,
                        past: Past, T: int)
    ensures ReadsOn(MakeConfig(n, atLeast, ts, perSource, perTarget, persistent), past, T) <==>
            ConfiguredOn(n, atLeast, ts, persistent, past, T)
  {
    var cfg := MakeConfig(n, atLeast, ts, perSource, perTarget, persistent);
    ReachedMeaning(cfg, past.hits);
    if !atLeast {
      forall hits, t ensures LostHit(cfg, hits, t) <==> Thinned(hits, ts, n, t) {
      }
    }
  }

  /** "At least n in ts seconds". */
  lemma AtLeastN(n: int, ts: int, perSource: bool, perTarget: bool, persistent: bool, tr: Track, T: int)
    requires Inv(MakeConfig(n, true, ts, perSource, perTarget, persistent), tr) && Settled(tr, T)
    ensures !persistent ==> (tr.cell.on <==> HitsIn(tr.past.hits, T - ts, T) >= n)
    ensures persistent ==> (tr.cell.on <==> Completed(tr.past.hits, ts, n))
  {
    var cfg := MakeConfig(n, true, ts, perSource, perTarget, persistent);
    CellReading(cfg, tr, T);
    ReadsConfigured(n, true, ts, perSource, perTarget, persistent, tr.past, T);
  }

  /** "At most n in ts seconds": a window left with exactly n hits is within the
      limit. */
  lemma AtMostN(n: int, ts: int, perSource: bool, perTarget: bool, persistent: bool, tr: Track, T: int)
    requires Inv(MakeConfig(n, false, ts, perSource, perTarget, persistent), tr) && Settled(tr, T)
    ensures !persistent ==>
              (tr.cell.on <==>
                 && tr.past.hits != [] && HitsIn(tr.past.hits, T - ts, T) <= n
                 && HitsIn(tr.past.hits, T - ts, T)
                    < HitsIn(tr.past.hits, Last(tr.past.hits) - ts, Last(tr.past.hits)))
    ensures persistent ==>
              (tr.cell.on <==>
                 exists i | 0 <= i < |tr.past.checks| ::
                   Thinned(tr.past.checks[i].hits, ts, n, tr.past.checks[i].now - 1))
  {
    var cfg := MakeConfig(n, false, ts, perSource, perTarget, persistent);
    CellReading(cfg, tr, T);
    ReadsConfigured(n, false, ts, perSource, perTarget, persistent, tr.past, T);
  }

  /** A fresh cell after a row of hits. */
  function AfterHits(cfg: Config, hits: seq<int>): CellState
    requires cfg.Ok()
  {
    if hits == [] then FRESH else HitStep(AfterHits(cfg, hits[..|hits| - 1]), cfg, Last(hits)).state
  }

  lemma NothingDropped(cfg: Config, msgs: seq<int>, t: int)
    requires cfg.Ok() && |msgs| < cfg.tc && (msgs != [] ==> t - msgs[0] <= cfg.ts)
    ensures Kept(msgs, t, cfg) == msgs + [t]
  {
    assert (msgs + [t])[0] == if msgs == [] then t else msgs[0];
  }

  /** A hit on an at-most cell that is off and stays so. */
  lemma HitJoins(cfg: Config, c: CellState, t: int, msgs: seq<int>)
    requires cfg.Ok() && !cfg.atLeast && !c.on && Kept(c.msgs, t, cfg) == msgs
    ensures HitStep(c, cfg, t).state == CellState(msgs, false, msgs[0] + cfg.ts + 1)
  {
  }

  lemma {:induction false} FillsUp(cfg: Config, hits: seq<int>)
    requires cfg.Ok() && !cfg.atLeast && 1 <= |hits| <= cfg.tc && Sorted(hits) && Last(hits) - hits[0] <= cfg.ts
    ensures AfterHits(cfg, hits) == CellState(hits, false, hits[0] + cfg.ts + 1)
    decreases |hits|
  {
    var front, t := hits[..|hits| - 1], Last(hits);
    assert hits == front + [t];
    if front != [] { FillsUp(cfg, front); }
    NothingDropped(cfg, front, t);
    HitJoins(cfg, AfterHits(cfg, front), t, hits);
  }

  /** From just after the oldest hit on, all other hits are in the window. */
  lemma {:induction false} AllButFirst(hits: seq<int>, hi: int)
    requires hits != [] && Sorted(hits) && Last(hits) <= hi && (|hits| > 1 ==> hits[0] < hits[1])
    ensures HitsIn(hits, hits[0] + 1, hi) == |hits| - 1
    decreases |hits|
  {
    var front := hits[..|hits| - 1];
    if front != [] { AllButFirst(front, hi); }
  }

  /** An "at most n" cell, hit up to n + 1 times within ts seconds, is off; the event
      of the moment when the oldest hit expires turns it on, though exactly n may be
      left (AllButFirst). */
  lemma AtMostFills(n: nat, ts: nat, perSource: bool, perTarget: bool, hits: seq<int>)
    requires 1 <= |hits| <= n + 1 && Sorted(hits) && Last(hits) - hits[0] <= ts
    ensures var cfg := MakeConfig(n, false, ts, perSource, perTarget, false);
            var c := AfterHits(cfg, hits);
            c.msgs == hits && !c.on && FireStep(c, cfg, hits[0] + ts + 1).0.on
  {
    FillsUp(MakeConfig(n, false, ts, perSource, perTarget, false), hits);
  }

  /** One hit in the window of an "at most 3" cell, yet the cell is off: the
      converse of the previous bound fails. */
  lemma AtMostOffExample()
    ensures var cfg := MakeConfig(3, false, 10, false, false, false);
            var h := HitStep(FRESH, cfg, 5);
            !h.state.on && HitsIn([5], 5 - cfg.ts, 5) <= cfg.tc - 1
  {
  }

  /** A persistent cell that is on stays on under hits and events. */
  lemma PersistentStaysOn(cfg: Config, c: CellState, t: int, due: iset<int>)
    requires cfg.Ok() && cfg.persistent && c.on
    ensures HitStep(c, cfg, t).state.on && FireAny(c, cfg, due).on
  {
  }

  /** No queued event turns on a persistent at-least cell that is off. */
  lemma PersistentStaysOff(cfg: Config, tr: Track, due: iset<int>)
    requires Inv(cfg, tr) && cfg.atLeast && cfg.persistent && !tr.cell.on && due <= tr.queued
    ensures FireAny(tr.cell, cfg, due) == tr.cell
  {
  }
}
