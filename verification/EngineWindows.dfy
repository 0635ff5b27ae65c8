/** The engine's cells against the history of hits and batches: no cell gets stuck,
    and every status is what the history says. */
module EngineWindows {
  import opened Options
  import opened Domains
  import opened Where
  import opened WhereFacts
  import opened Hitmaps
  import opened Rules
  import opened RuleEval
  import opened RuleFacts
  import opened Engine
  import opened EngineFacts
  import opened CellWindows
  import C = Cells

  // ------------------------------------------------------------------ history

  datatype CellId = CellId(cond: string, s: nat, t: nat)

  /** What happened so far: the hits and batches of each cell since its last reset,
      the stamps delivered to it since then, and the latest message time. */
  datatype History = History(past: CellId -> Past, delivered: CellId -> iset<int>, clock: int)

  ghost function NoHistory(): History
  {
    History((id: CellId) => Past([], []), (id: CellId) => iset{}, 0)
  }

  function EventFor(id: CellId, q: int): C.TimingEvent
  {
    C.TimingEvent(q, id.cond, id.s, id.t)
  }

  /** The stamps queued for one cell. */
  ghost function Stamps(queue: multiset<C.TimingEvent>, id: CellId): iset<int>
  {
    iset q: int | EventFor(id, q) in queue
  }

  function CellOf(conds: map<string, CondState>, id: CellId): C.CellState
    requires id.cond in conds
  {
    CellAt(conds[id.cond].hm, id.s, id.t)
  }

  ghost function TrackOf(e: EngineState, h: History, id: CellId): Track
    requires id.cond in e.conds
  {
    Track(CellOf(e.conds, id), h.past(id), Stamps(e.queue, id), h.delivered(id))
  }

  /** The message hits this cell. */
  predicate Captures(cfg: C.Config, cs: CondState, msg: Message, id: CellId)
    requires cfg.Ok()
  {
    id.cond in msg.accepts &&
    var r := CaptureStep(cs.hm, cfg, msg.accepts[id.cond].0, msg.accepts[id.cond].1, msg.time);
    r.s == id.s && r.t == id.t
  }

  predicate Hit(su: Setup, conds: map<string, CondState>, msg: Message, id: CellId)
    requires SetupOk(su) && conds.Keys == su.conds.Keys
  {
    id.cond in conds && Captures(su.conds[id.cond], conds[id.cond], msg, id)
  }

  ghost function NextHistory(su: Setup, e: EngineState, h: History, a: Action): History
    requires EngineOk(su, e)
  {
    match a
    case Feed(msg, _) =>
      h.(past := (id: CellId) => if Hit(su, e.conds, msg, id) then WithHit(h.past(id), msg.time) else h.past(id),
         clock := msg.time)
    case Batch(now) =>
      h.(past := (id: CellId) => WithCheck(h.past(id), now),
         delivered := (id: CellId) => h.delivered(id) + DueBefore(Stamps(e.queue, id), now))
    case EnableRule(_, _) => h
    case ResetRuleOf(r) => if r in e.rules then Forget(h, set c | c in su.rules[r].conds) else h
    case ResetCond(c) => Forget(h, {c})
  }

  ghost function Forget(h: History, names: set<string>): History
  {
    h.(past := (id: CellId) => if id.cond in names then Past([], []) else h.past(id),
       delivered := (id: CellId) => if id.cond in names then iset{} else h.delivered(id))
  }

  ghost predicate HistoryOk(su: Setup, e: EngineState, h: History)
  {
    && h.clock >= 0 && e.conds.Keys == su.conds.Keys
    && (forall id: CellId | id.cond in e.conds :: Inv(su.conds[id.cond], TrackOf(e, h, id)))
    && (forall id: CellId :: h.past(id).hits != [] ==> Last(h.past(id).hits) <= h.clock)
  }

  /** Messages arrive in time order. */
  predicate InOrder(h: History, a: Action)
  {
    a.Feed? ==> a.msg.time >= h.clock
  }

  // --------------------------------------------------------------- invariance

  lemma PushedStamps(su: Setup, conds: map<string, CondState>, queue: multiset<C.TimingEvent>, msg: Message,
                     id: CellId, q: int)
    requires SetupOk(su) && conds.Keys == su.conds.Keys && id.cond in conds
    ensures EventFor(id, q) in queue + multiset(PushSet(su, conds, msg, conds.Keys))
            <==> EventFor(id, q) in queue
                 || EventFor(id, q) in React(su.conds[id.cond], conds[id.cond], id.cond, msg).pushed
  {
    var ev := EventFor(id, q);
    if ev in PushSet(su, conds, msg, conds.Keys) {
      var d :| d in conds.Keys && ev in React(su.conds[d], conds[d], d, msg).pushed;
      assert ev.cond == d;
    }
  }

  /** One cell of one condition under a message. */
  lemma ReactCell(cfg: C.Config, cs: CondState, msg: Message, id: CellId)
    requires cfg.Ok()
    ensures var r := React(cfg, cs, id.cond, msg);
            var h := C.HitStep(CellAt(cs.hm, id.s, id.t), cfg, msg.time);
            && CellAt(r.state.hm, id.s, id.t)
               == (if Captures(cfg, cs, msg, id) then h.state else CellAt(cs.hm, id.s, id.t))
            && forall q :: EventFor(id, q) in r.pushed <==> Captures(cfg, cs, msg, id) && h.stamp == Some(q)
  {
    if id.cond in msg.accepts {
      CaptureCells(cs.hm, cfg, msg.accepts[id.cond].0, msg.accepts[id.cond].1, msg.time);
    }
  }

  lemma FedStamps(su: Setup, conds: map<string, CondState>, queue: multiset<C.TimingEvent>, msg: Message, id: CellId)
    requires SetupOk(su) && conds.Keys == su.conds.Keys && id.cond in conds
    ensures var hit := C.HitStep(CellOf(conds, id), su.conds[id.cond], msg.time);
            Stamps(queue + multiset(PushSet(su, conds, msg, conds.Keys)), id) ==
            if Hit(su, conds, msg, id) && hit.stamp.Some? then Stamps(queue, id) + iset{hit.stamp.value}
            else Stamps(queue, id)
  {
    ReactCell(su.conds[id.cond], conds[id.cond], msg, id);
    forall q: int { PushedStamps(su, conds, queue, msg, id, q); }
  }

  lemma FeedTrack(su: Setup, e: EngineState, h: History, msg: Message, now: int, id: CellId)
    requires EngineOk(su, e) && id.cond in e.conds
    ensures var tr := TrackOf(e, h, id);
            TrackOf(FeedStep(su, e, msg, now), NextHistory(su, e, h, Feed(msg, now)), id) ==
            if Hit(su, e.conds, msg, id) then AfterHit(tr, C.HitStep(tr.cell, su.conds[id.cond], msg.time), msg.time)
            else tr
  {
    FedStamps(su, e.conds, e.queue, msg, id);
    ReactCell(su.conds[id.cond], e.conds[id.cond], msg, id);
  }

  lemma FeedKeepsHistory(su: Setup, e: EngineState, h: History, msg: Message, now: int)
    requires EngineOk(su, e) && HistoryOk(su, e, h) && msg.time >= h.clock
    ensures HistoryOk(su, FeedStep(su, e, msg, now), NextHistory(su, e, h, Feed(msg, now)))
  {
    var e', h' := FeedStep(su, e, msg, now), NextHistory(su, e, h, Feed(msg, now));
    forall id: CellId | id.cond in e'.conds ensures Inv(su.conds[id.cond], TrackOf(e', h', id)) {
      FedInv(su, e, h, msg, now, id);
    }
    forall id: CellId ensures h'.past(id).hits != [] ==> Last(h'.past(id).hits) <= h'.clock {
      assert h.past(id).hits != [] ==> Last(h.past(id).hits) <= h.clock;
    }
  }

  lemma FedInv(su: Setup, e: EngineState, h: History, msg: Message, now: int, id: CellId)
    requires EngineOk(su, e) && HistoryOk(su, e, h) && msg.time >= h.clock && id.cond in e.conds
    ensures Inv(su.conds[id.cond], TrackOf(FeedStep(su, e, msg, now), NextHistory(su, e, h, Feed(msg, now)), id))
  {
    FeedTrack(su, e, h, msg, now, id);
    assert Inv(su.conds[id.cond], TrackOf(e, h, id));
    HitKeeps(su.conds[id.cond], TrackOf(e, h, id), msg.time);
  }

  lemma LaterStamps(queue: multiset<C.TimingEvent>, now: int, id: CellId)
    ensures Stamps(Later(queue, now), id) == Stamps(queue, id) - DueBefore(Stamps(queue, id), now)
  {
    var later := Later(queue, now);
    forall q: int ensures q in Stamps(later, id) <==> q in Stamps(queue, id) - DueBefore(Stamps(queue, id), now) {
      assert later[EventFor(id, q)] == if q < now then 0 else queue[EventFor(id, q)];
    }
  }

  lemma BatchedCell(cfg: C.Config, cs: CondState, queue: multiset<C.TimingEvent>, now: int, id: CellId)
    requires EventFor(id, 0) !in queue
    ensures CellAt(BatchCond(cfg, cs, queue, now, id.cond).hm, id.s, id.t)
            == FireAny(CellAt(cs.hm, id.s, id.t), cfg, DueBefore(Stamps(queue, id), now))
  {
  }

  lemma BatchTrack(su: Setup, e: EngineState, h: History, now: int, id: CellId)
    requires EngineOk(su, e) && id.cond in e.conds
    ensures var tr := TrackOf(e, h, id);
            TrackOf(BatchStep(su, e, now), NextHistory(su, e, h, Batch(now)), id)
            == AfterBatch(su.conds[id.cond], tr, now, tr.queued - DueBefore(tr.queued, now))
  {
    LaterStamps(e.queue, now, id);
    assert EventFor(id, 0) !in e.queue;
    BatchedCell(su.conds[id.cond], e.conds[id.cond], e.queue, now, id);
  }

  lemma BatchKeepsHistory(su: Setup, e: EngineState, h: History, now: int)
    requires EngineOk(su, e) && HistoryOk(su, e, h)
    ensures HistoryOk(su, BatchStep(su, e, now), NextHistory(su, e, h, Batch(now)))
  {
    var e', h' := BatchStep(su, e, now), NextHistory(su, e, h, Batch(now));
    forall id: CellId | id.cond in e'.conds ensures Inv(su.conds[id.cond], TrackOf(e', h', id)) {
      BatchTrack(su, e, h, now, id);
      var tr := TrackOf(e, h, id);
      BatchKeeps(su.conds[id.cond], tr, now, tr.queued - DueBefore(tr.queued, now));
    }
  }

  lemma ResetKeepsHistory(su: Setup, e: EngineState, h: History, e': EngineState, names: set<string>)
    requires HistoryOk(su, e, h)
    requires e'.conds == ResetConds(e.conds, names) && e'.queue == e.queue
    ensures HistoryOk(su, e', Forget(h, names))
  {
    var h' := Forget(h, names);
    forall id: CellId | id.cond in e'.conds ensures Inv(su.conds[id.cond], TrackOf(e', h', id)) {
      assert id.cond in e.conds && Inv(su.conds[id.cond], TrackOf(e, h, id));
      if id.cond in names {
        ResetKeeps(su.conds[id.cond], TrackOf(e, h, id));
        assert TrackOf(e', h', id) == Track(C.FRESH, Past([], []), Stamps(e.queue, id), iset{});
      } else {
        assert TrackOf(e', h', id) == TrackOf(e, h, id);
      }
    }
  }

  lemma EnableKeepsHistory(su: Setup, e: EngineState, h: History, e': EngineState)
    requires HistoryOk(su, e, h) && e'.conds == e.conds && e'.queue == e.queue
    ensures HistoryOk(su, e', h)
  {
    forall id: CellId | id.cond in e'.conds ensures Inv(su.conds[id.cond], TrackOf(e', h, id)) {
      assert TrackOf(e', h, id) == TrackOf(e, h, id);
    }
  }

  /** Every step keeps every cell consistent with its history. */
  lemma NextKeepsHistory(su: Setup, e: EngineState, h: History, a: Action)
    requires EngineOk(su, e) && HistoryOk(su, e, h) && InOrder(h, a)
    ensures HistoryOk(su, NextState(su, e, a), NextHistory(su, e, h, a))
  {
    match a
    case Feed(msg, now) => FeedKeepsHistory(su, e, h, msg, now);
    case Batch(now) => BatchKeepsHistory(su, e, h, now);
    case EnableRule(r, flag) => EnableKeepsHistory(su, e, h, NextState(su, e, a));
    case ResetRuleOf(r) =>
      if r in e.rules {
        ResetKeepsHistory(su, e, h, NextState(su, e, a), set c | c in su.rules[r].conds);
      }
    case ResetCond(c) => ResetKeepsHistory(su, e, h, NextState(su, e, a), {c});
  }

  // --------------------------------------------------------------------- runs

  ghost function RunHistory(su: Setup, acts: seq<Action>): History
    requires SetupOk(su) && ActionsOk(acts)
  {
    if acts == [] then NoHistory()
    else NextHistory(su, Run(su, acts[..|acts| - 1]), RunHistory(su, acts[..|acts| - 1]), acts[|acts| - 1])
  }

  /** Messages come with nondecreasing times; resets and batches at will. */
  ghost predicate Ordered(su: Setup, acts: seq<Action>)
    requires SetupOk(su) && ActionsOk(acts)
  {
    acts != [] ==>
      var front := acts[..|acts| - 1];
      Ordered(su, front) && InOrder(RunHistory(su, front), acts[|acts| - 1])
  }

  lemma {:induction false} RunHistoryOk(su: Setup, acts: seq<Action>)
    requires SetupOk(su) && ActionsOk(acts) && Ordered(su, acts)
    ensures HistoryOk(su, Run(su, acts), RunHistory(su, acts))
    decreases |acts|
  {
    if acts == [] {
      InitialHistoryOk(su);
    } else {
      var front := acts[..|acts| - 1];
      RunHistoryOk(su, front);
      NextKeepsHistory(su, Run(su, front), RunHistory(su, front), acts[|acts| - 1]);
    }
  }

  lemma InitialHistoryOk(su: Setup)
    requires SetupOk(su)
    ensures HistoryOk(su, InitialEngine(su), NoHistory())
  {
    var e, h := InitialEngine(su), NoHistory();
    forall id: CellId | id.cond in e.conds ensures Inv(su.conds[id.cond], TrackOf(e, h, id)) {
      assert su.conds[id.cond].Ok();
      assert TrackOf(e, h, id).cell == C.FRESH;
    }
  }

  /** A cell that waits for the clock has its timing event, with its own indices
      and current stamp, in the queue. */
  predicate Awaited(cfg: C.Config, e: EngineState, id: CellId)
  {
    id.cond in e.conds &&
    var cell := CellOf(e.conds, id);
    && (cfg.atLeast && !cfg.persistent && cell.on ==> EventFor(id, cell.tEvent) in e.queue)
    && (!cfg.atLeast && !cell.on && cell.msgs != [] ==> EventFor(id, cell.tEvent) in e.queue)
  }

  /** In every run, no cell is stuck. */
  lemma NoStuckCell(su: Setup, acts: seq<Action>)
    requires SetupOk(su) && ActionsOk(acts) && Ordered(su, acts)
    ensures forall id: CellId | id.cond in su.conds :: Awaited(su.conds[id.cond], Run(su, acts), id)
  {
    RunHistoryOk(su, acts);
    forall id: CellId | id.cond in su.conds ensures Awaited(su.conds[id.cond], Run(su, acts), id) {
      AwaitedAt(su, Run(su, acts), RunHistory(su, acts), id);
    }
  }

  lemma AwaitedAt(su: Setup, e: EngineState, h: History, id: CellId)
    requires HistoryOk(su, e, h) && id.cond in su.conds
    ensures Awaited(su.conds[id.cond], e, id)
  {
    assert Inv(su.conds[id.cond], TrackOf(e, h, id));
  }

  /** No message was later than T, and no batch ran ahead of T + 1. */
  ghost predicate UpTo(acts: seq<Action>, T: int)
  {
    forall i | 0 <= i < |acts| ::
      && (acts[i].Feed? ==> acts[i].msg.time <= T)
      && (acts[i].Batch? ==> acts[i].now <= T + 1)
  }

  /** The batch that delivers everything up to T has run, and no earlier message
      came after it. */
  ghost predicate Closed(acts: seq<Action>, T: int)
  {
    acts != [] &&
    var a := acts[|acts| - 1];
    a == Batch(T + 1) || (Closed(acts[..|acts| - 1], T) && (a.Feed? ==> a.msg.time >= T))
  }

  /** The run has reached the end of second T: it went no further, and everything
      due by T is delivered. */
  ghost predicate Reaches(acts: seq<Action>, T: int)
  {
    T >= 0 && UpTo(acts, T) && Closed(acts, T)
  }

  /** Nothing delivered, and no message, after T. */
  ghost predicate PastOk(h: History, T: int)
  {
    h.clock <= T && forall id: CellId :: AllUpTo(h.delivered(id), T)
  }

  ghost predicate AllUpTo(stamps: iset<int>, T: int)
  {
    forall d | d in stamps :: d <= T
  }

  lemma PastNext(su: Setup, e: EngineState, h: History, a: Action, T: int)
    requires EngineOk(su, e) && PastOk(h, T) && UpTo([a], T)
    ensures PastOk(NextHistory(su, e, h, a), T)
  {
    assert [a][0] == a;
    var h' := NextHistory(su, e, h, a);
    forall id: CellId ensures AllUpTo(h'.delivered(id), T) {
      assert AllUpTo(h.delivered(id), T);
    }
  }

  lemma {:induction false} RunPast(su: Setup, acts: seq<Action>, T: int)
    requires SetupOk(su) && ActionsOk(acts) && T >= 0 && UpTo(acts, T)
    ensures PastOk(RunHistory(su, acts), T)
    decreases |acts|
  {
    if acts != [] {
      var front, a := acts[..|acts| - 1], acts[|acts| - 1];
      RunPast(su, front, T);
      PastNext(su, Run(su, front), RunHistory(su, front), a, T);
    }
  }

  ghost predicate QueueAfter(queue: multiset<C.TimingEvent>, T: int)
  {
    forall ev | ev in queue :: ev.ts > T
  }

  lemma LaterAfter(queue: multiset<C.TimingEvent>, T: int)
    ensures QueueAfter(Later(queue, T + 1), T)
  {
    var later := Later(queue, T + 1);
    forall ev | ev in later ensures ev.ts > T {
      assert later[ev] > 0;
    }
  }

  lemma SettledAt(su: Setup, e: EngineState, h: History, T: int, id: CellId)
    requires HistoryOk(su, e, h) && PastOk(h, T) && QueueAfter(e.queue, T) && id.cond in e.conds
    ensures Settled(TrackOf(e, h, id), T)
  {
    forall q | q in Stamps(e.queue, id) ensures q > T {
      assert EventFor(id, q) in e.queue;
    }
  }

  /** What a condition pushes for a message at T or later comes due after T. */
  lemma ReactPushes(su: Setup, e: EngineState, h: History, msg: Message, T: int, c: string, ev: C.TimingEvent)
    requires EngineOk(su, e) && HistoryOk(su, e, h) && msg.time >= h.clock && msg.time >= T
    requires c in e.conds && ev in React(su.conds[c], e.conds[c], c, msg).pushed
    ensures ev.ts > T
  {
    var r := CaptureStep(e.conds[c].hm, su.conds[c], msg.accepts[c].0, msg.accepts[c].1, msg.time);
    var id := CellId(c, r.s, r.t);
    assert Inv(su.conds[c], TrackOf(e, h, id));
    StampAfter(su.conds[c], TrackOf(e, h, id), msg.time);
  }

  lemma PushedAfter(su: Setup, e: EngineState, h: History, msg: Message, T: int)
    requires EngineOk(su, e) && HistoryOk(su, e, h) && msg.time >= h.clock && msg.time >= T
    requires QueueAfter(e.queue, T)
    ensures QueueAfter(e.queue + multiset(PushSet(su, e.conds, msg, e.conds.Keys)), T)
  {
    forall ev | ev in PushSet(su, e.conds, msg, e.conds.Keys) ensures ev.ts > T {
      var c :| c in e.conds && ev in React(su.conds[c], e.conds[c], c, msg).pushed;
      ReactPushes(su, e, h, msg, T, c, ev);
    }
  }

  lemma LaterKeepsAfter(queue: multiset<C.TimingEvent>, now: int, T: int)
    requires QueueAfter(queue, T)
    ensures QueueAfter(Later(queue, now), T)
  {
    var later := Later(queue, now);
    forall ev | ev in later ensures ev.ts > T {
      assert later[ev] > 0;
    }
  }

  lemma NextKeepsAfter(su: Setup, e: EngineState, h: History, a: Action, T: int)
    requires EngineOk(su, e) && HistoryOk(su, e, h) && InOrder(h, a) && QueueAfter(e.queue, T)
    requires a.Feed? ==> a.msg.time >= T
    ensures QueueAfter(NextState(su, e, a).queue, T)
  {
    match a
    case Feed(msg, _) => PushedAfter(su, e, h, msg, T);
    case Batch(now) => LaterKeepsAfter(e.queue, now, T);
    case _ =>
  }

  lemma BatchCloses(su: Setup, e: EngineState, T: int)
    requires EngineOk(su, e)
    ensures QueueAfter(NextState(su, e, Batch(T + 1)).queue, T)
  {
    LaterAfter(e.queue, T);
  }

  lemma OrderedFront(su: Setup, acts: seq<Action>)
    requires SetupOk(su) && ActionsOk(acts) && acts != [] && Ordered(su, acts)
    ensures ActionsOk(acts[..|acts| - 1]) && Ordered(su, acts[..|acts| - 1])
    ensures InOrder(RunHistory(su, acts[..|acts| - 1]), acts[|acts| - 1])
    ensures Run(su, acts) == NextState(su, Run(su, acts[..|acts| - 1]), acts[|acts| - 1])
  {
  }

  lemma {:induction false} RunQueue(su: Setup, acts: seq<Action>, T: int)
    requires SetupOk(su) && ActionsOk(acts) && Ordered(su, acts) && Closed(acts, T)
    ensures QueueAfter(Run(su, acts).queue, T)
    decreases |acts|
  {
    OrderedFront(su, acts);
    var front, a := acts[..|acts| - 1], acts[|acts| - 1];
    if a == Batch(T + 1) {
      BatchCloses(su, Run(su, front), T);
    } else {
      RunQueue(su, front, T);
      RunHistoryOk(su, front);
      NextKeepsAfter(su, Run(su, front), RunHistory(su, front), a, T);
    }
  }

  /** The state of a run that has reached the end of second T. */
  lemma RunSettled(su: Setup, acts: seq<Action>, T: int)
    requires SetupOk(su) && ActionsOk(acts) && Ordered(su, acts) && Reaches(acts, T)
    ensures HistoryOk(su, Run(su, acts), RunHistory(su, acts))
    ensures PastOk(RunHistory(su, acts), T) && QueueAfter(Run(su, acts).queue, T)
  {
    RunHistoryOk(su, acts);
    RunPast(su, acts, T);
    RunQueue(su, acts, T);
  }

  // ----------------------------------------------------------------- theorems

  /** The status, the size and the newest message of the cell are what its past says. */
  predicate ReadsPast(cfg: C.Config, e: EngineState, h: History, id: CellId)
    requires cfg.Ok()
  {
    id.cond in e.conds &&
    (CellOf(e.conds, id).on <==> ReadsNow(cfg, h.past(id))) && |CellOf(e.conds, id).msgs| == Held(cfg, h.past(id))
    && Newest(CellOf(e.conds, id).msgs, h.past(id).hits)
  }

  /** The status of the cell is what its past says at the close of second T. */
  predicate Reads(cfg: C.Config, e: EngineState, h: History, T: int, id: CellId)
  {
    id.cond in e.conds && (CellOf(e.conds, id).on <==> ReadsOn(cfg, h.past(id), T))
  }

  lemma ReadingAt(su: Setup, e: EngineState, h: History, T: int, id: CellId)
    requires HistoryOk(su, e, h) && id.cond in e.conds
    ensures ReadsPast(su.conds[id.cond], e, h, id)
    ensures PastOk(h, T) && QueueAfter(e.queue, T) ==> Reads(su.conds[id.cond], e, h, T, id)
  {
    if PastOk(h, T) && QueueAfter(e.queue, T) { SettledAt(su, e, h, T, id); }
    CellReading(su.conds[id.cond], TrackOf(e, h, id), T);
    CellHolds(su.conds[id.cond], TrackOf(e, h, id));
  }

  /** The status and the size of every cell, at any moment of every run. */
  lemma RunNow(su: Setup, acts: seq<Action>)
    requires SetupOk(su) && ActionsOk(acts) && Ordered(su, acts)
    ensures forall id: CellId | id.cond in su.conds ::
              ReadsPast(su.conds[id.cond], Run(su, acts), RunHistory(su, acts), id)
  {
    RunHistoryOk(su, acts);
    var e, h := Run(su, acts), RunHistory(su, acts);
    forall id: CellId | id.cond in su.conds ensures ReadsPast(su.conds[id.cond], e, h, id) {
      ReadingAt(su, e, h, 0, id);
    }
  }

  /** The status of every cell, in every run that has reached the end of second T. */
  lemma RunWindow(su: Setup, acts: seq<Action>, T: int)
    requires SetupOk(su) && ActionsOk(acts) && Ordered(su, acts) && Reaches(acts, T)
    ensures forall id: CellId | id.cond in su.conds ::
              Reads(su.conds[id.cond], Run(su, acts), RunHistory(su, acts), T, id)
  {
    RunSettled(su, acts, T);
    var e, h := Run(su, acts), RunHistory(su, acts);
    forall id: CellId | id.cond in su.conds ensures Reads(su.conds[id.cond], e, h, T, id) {
      ReadingAt(su, e, h, T, id);
    }
  }

  // ------------------------------------------------------------- on until reset

  /** The action resets the condition. */
  predicate ResetsCond(su: Setup, a: Action, c: string)
  {
    c in ResetNames(su, a)
  }

  /** The cell is on. */
  predicate IsOn(e: EngineState, id: CellId)
  {
    id.cond in e.conds && CellOf(e.conds, id).on
  }

  lemma FeedKeepsOn(su: Setup, e: EngineState, msg: Message, now: int, id: CellId)
    requires EngineOk(su, e) && IsOn(e, id) && su.conds[id.cond].persistent
    ensures IsOn(FeedStep(su, e, msg, now), id)
  {
    ReactCell(su.conds[id.cond], e.conds[id.cond], msg, id);
  }

  lemma BatchKeepsOn(su: Setup, e: EngineState, now: int, id: CellId)
    requires EngineOk(su, e) && IsOn(e, id) && su.conds[id.cond].persistent
    ensures IsOn(BatchStep(su, e, now), id)
  {
    assert EventFor(id, 0) !in e.queue;
    BatchedCell(su.conds[id.cond], e.conds[id.cond], e.queue, now, id);
  }

  lemma NextKeepsOn(su: Setup, e: EngineState, a: Action, id: CellId)
    requires EngineOk(su, e) && IsOn(e, id) && su.conds[id.cond].persistent && !ResetsCond(su, a, id.cond)
    ensures IsOn(NextState(su, e, a), id)
  {
    match a
    case Feed(msg, now) => FeedKeepsOn(su, e, msg, now, id);
    case Batch(now) => BatchKeepsOn(su, e, now, id);
    case _ =>
  }

  /** The cell is on after the run. */
  ghost predicate OnAfter(su: Setup, acts: seq<Action>, id: CellId)
    requires SetupOk(su) && ActionsOk(acts)
  {
    IsOn(Run(su, acts), id)
  }

  lemma OnAfterStep(su: Setup, acts: seq<Action>, a: Action, id: CellId)
    requires SetupOk(su) && ActionsOk(acts) && ActionOk(a) && ActionsOk(acts + [a])
    requires id.cond in su.conds && su.conds[id.cond].persistent && !ResetsCond(su, a, id.cond)
    requires OnAfter(su, acts, id)
    ensures OnAfter(su, acts + [a], id)
  {
    RunSnoc(su, acts, a);
    NextKeepsOn(su, Run(su, acts), a, id);
  }

  ghost predicate SparesCond(su: Setup, acts: seq<Action>, c: string)
  {
    forall k | 0 <= k < |acts| :: !ResetsCond(su, acts[k], c)
  }

  /** A persistent cell that is on stays on, whatever follows, until its condition
      is reset. */
  lemma {:induction false} OnUntilReset(su: Setup, acts: seq<Action>, more: seq<Action>, id: CellId)
    requires SetupOk(su) && ActionsOk(acts) && ActionsOk(acts + more)
    requires id.cond in su.conds && su.conds[id.cond].persistent && OnAfter(su, acts, id)
    requires SparesCond(su, more, id.cond)
    ensures OnAfter(su, acts + more, id)
    decreases |more|
  {
    if more == [] {
      assert acts + more == acts;
    } else {
      FirstSplit(su, acts, more, id.cond);
      OnAfterStep(su, acts, more[0], id);
      OnUntilReset(su, acts + [more[0]], more[1..], id);
    }
  }

  lemma FirstSplit(su: Setup, acts: seq<Action>, more: seq<Action>, c: string)
    requires more != [] && ActionsOk(acts + more) && SparesCond(su, more, c)
    ensures (acts + [more[0]]) + more[1..] == acts + more
    ensures ActionOk(more[0]) && ActionsOk(acts + [more[0]])
    ensures !ResetsCond(su, more[0], c) && SparesCond(su, more[1..], c)
  {
    assert (acts + more)[|acts|] == more[0];
    forall i | 0 <= i < |acts| + 1 ensures ActionOk((acts + [more[0]])[i]) {
      assert (acts + more)[i] == (acts + [more[0]])[i];
    }
  }
}
