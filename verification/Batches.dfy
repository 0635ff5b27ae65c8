/** Delivering due events one at a time, in whatever order ties come, has the
    effect of the one-shot batch. */
module Batches {
  import opened Hitmaps
  import opened Engine
  import C = Cells

  /** One delivered event on top of a batch of already delivered ones, for the
      condition it belongs to. */
  lemma DeliverCond(cfg: C.Config, cs: CondState, done: multiset<C.TimingEvent>, now: int, e: C.TimingEvent)
    requires 1 <= e.ts < now
    ensures EventStep(BatchCond(cfg, cs, done, now, e.cond).hm, cfg, e.s, e.t, e.ts).0
            == BatchCond(cfg, cs, done + multiset{e}, now, e.cond).hm
  {
    var one := BatchCond(cfg, cs, done, now, e.cond).hm;
    var two := BatchCond(cfg, cs, done + multiset{e}, now, e.cond).hm;
    var k := (e.s, e.t);
    forall j | j in cs.hm.cells && j != k ensures one.cells[j] == two.cells[j] {
      var c := cs.hm.cells[j];
      assert C.TimingEvent(c.tEvent, e.cond, j.0, j.1) != e;
    }
    if k in cs.hm.cells {
      DeliverCell(cfg, cs.hm.cells[k], done, now, e);
    }
    assert EventStep(one, cfg, e.s, e.t, e.ts).0.cells == two.cells;
  }

  lemma DeliverCell(cfg: C.Config, c: C.CellState, done: multiset<C.TimingEvent>, now: int, e: C.TimingEvent)
    requires e.ts < now
    ensures C.FireStep(BatchCell(cfg, c, done, now, e.cond, e.s, e.t), cfg, e.ts).0
            == BatchCell(cfg, c, done + multiset{e}, now, e.cond, e.s, e.t)
  {
    if c.tEvent == e.ts {
      assert C.TimingEvent(c.tEvent, e.cond, e.s, e.t) == e;
    }
  }

  /** Events of one condition leave the others alone. */
  lemma DeliverOther(cfg: C.Config, cs: CondState, done: multiset<C.TimingEvent>, now: int, e: C.TimingEvent, c: string)
    requires c != e.cond
    ensures BatchCond(cfg, cs, done + multiset{e}, now, c) == BatchCond(cfg, cs, done, now, c)
  {
    forall k | k in cs.hm.cells
      ensures BatchCell(cfg, cs.hm.cells[k], done + multiset{e}, now, c, k.0, k.1)
              == BatchCell(cfg, cs.hm.cells[k], done, now, c, k.0, k.1)
    {
      assert C.TimingEvent(cs.hm.cells[k].tEvent, c, k.0, k.1) != e;
    }
    assert BatchCond(cfg, cs, done + multiset{e}, now, c).hm.cells == BatchCond(cfg, cs, done, now, c).hm.cells;
  }

  predicate CondFlipped(cfg: C.Config, cs: CondState, queue: multiset<C.TimingEvent>, now: int, c: string)
  {
    exists k | k in cs.hm.cells :: BatchCell(cfg, cs.hm.cells[k], queue, now, c, k.0, k.1) != cs.hm.cells[k]
  }

  /** A condition has flipped once the new event flips a cell, or one had
      flipped before. */
  lemma DeliverFlips(cfg: C.Config, cs: CondState, done: multiset<C.TimingEvent>, now: int, e: C.TimingEvent)
    requires 1 <= e.ts < now
    ensures CondFlipped(cfg, cs, done + multiset{e}, now, e.cond) <==>
            CondFlipped(cfg, cs, done, now, e.cond)
            || EventStep(BatchCond(cfg, cs, done, now, e.cond).hm, cfg, e.s, e.t, e.ts).1
  {
    var k := (e.s, e.t);
    forall j | j in cs.hm.cells && j != k
      ensures BatchCell(cfg, cs.hm.cells[j], done + multiset{e}, now, e.cond, j.0, j.1)
              == BatchCell(cfg, cs.hm.cells[j], done, now, e.cond, j.0, j.1)
    {
      assert C.TimingEvent(cs.hm.cells[j].tEvent, e.cond, j.0, j.1) != e;
    }
    if k in cs.hm.cells {
      FlipCell(cfg, cs.hm.cells[k], done, now, e);
    }
  }

  lemma FlipCell(cfg: C.Config, c: C.CellState, done: multiset<C.TimingEvent>, now: int, e: C.TimingEvent)
    requires e.ts < now
    ensures BatchCell(cfg, c, done + multiset{e}, now, e.cond, e.s, e.t) != c <==>
            BatchCell(cfg, c, done, now, e.cond, e.s, e.t) != c
            || C.FireStep(BatchCell(cfg, c, done, now, e.cond, e.s, e.t), cfg, e.ts).1
  {
    if c.tEvent == e.ts {
      assert C.TimingEvent(c.tEvent, e.cond, e.s, e.t) == e;
    }
  }

  /** Only due events matter to a batch. */
  lemma DueOnly(cfg: C.Config, cs: CondState, done: multiset<C.TimingEvent>, queue: multiset<C.TimingEvent>, now: int,
                c: string)
    requires forall e: C.TimingEvent | e.ts < now :: e in done <==> e in queue
    ensures BatchCond(cfg, cs, done, now, c) == BatchCond(cfg, cs, queue, now, c)
    ensures CondFlipped(cfg, cs, done, now, c) <==> CondFlipped(cfg, cs, queue, now, c)
  {
    assert BatchCond(cfg, cs, done, now, c).hm.cells == BatchCond(cfg, cs, queue, now, c).hm.cells;
  }

  // -------------------------------------------------------------- the queue

  predicate IsTop(e: C.TimingEvent, queue: multiset<C.TimingEvent>)
  {
    e in queue && forall x | x in queue :: e.ts <= x.ts
  }

  lemma TopExists(queue: multiset<C.TimingEvent>)
    requires queue != multiset{}
    ensures exists e :: IsTop(e, queue)
    decreases |queue|
  {
    var x :| x in queue;
    var rest := queue - multiset{x};
    if rest == multiset{} {
      assert queue == multiset{x};
      assert IsTop(x, queue);
    } else {
      TopExists(rest);
      var m :| IsTop(m, rest);
      var top := if x.ts < m.ts then x else m;
      forall y | y in queue ensures top.ts <= y.ts {
        if y != x { assert y in rest; }
      }
      assert IsTop(top, queue);
    }
  }

  /** The head of the priority queue: some event with the least stamp. */
  method Top(queue: multiset<C.TimingEvent>) returns (e: C.TimingEvent)
    requires queue != multiset{}
    ensures IsTop(e, queue)
  {
    TopExists(queue);
    e :| IsTop(e, queue);
  }

  /** What is left once every due event has been taken out. */
  lemma LaterUnique(queue: multiset<C.TimingEvent>, done: multiset<C.TimingEvent>, left: multiset<C.TimingEvent>,
                    now: int)
    requires queue == left + done
    requires (forall e | e in done :: e.ts < now) && (forall e | e in left :: e.ts >= now)
    ensures left == Later(queue, now)
    ensures forall e: C.TimingEvent | e.ts < now :: e in done <==> e in queue
  {
    var later := Later(queue, now);
    forall e ensures left[e] == later[e] {
      assert queue[e] == left[e] + done[e];
      if e.ts < now { assert e !in left; } else { assert e !in done; }
    }
  }
}
