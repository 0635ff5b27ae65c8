/** Theorems about every run of the engine. */
module EngineFacts {
  import opened Options
  import opened Domains
  import opened Where
  import opened WhereMeaning
  import opened WhereFacts
  import opened Hitmaps
  import opened Rules
  import opened RuleEval
  import opened RuleFacts
  import opened Engine
  import opened CellWindows
  import C = Cells

  // ------------------------------------------------------------------- runs

  ghost predicate ActionsOk(acts: seq<Action>)
  {
    forall i | 0 <= i < |acts| :: ActionOk(acts[i])
  }

  /** The state after a list of actions from the initial state. */
  ghost function Run(su: Setup, acts: seq<Action>): (e: EngineState)
    requires SetupOk(su) && ActionsOk(acts)
    ensures EngineOk(su, e)
  {
    if acts == [] then
      InitialOk(su);
      InitialEngine(su)
    else
      var e := Run(su, acts[..|acts| - 1]);
      NextOk(su, e, acts[|acts| - 1]);
      NextState(su, e, acts[|acts| - 1])
  }

  predicate IsReset(a: Action)
  {
    a.ResetRuleOf? || a.ResetCond?
  }

  predicate ResetFree(acts: seq<Action>)
  {
    forall i | 0 <= i < |acts| :: !IsReset(acts[i])
  }

  // --------------------------------------------------------- cached box lists

  ghost function TablesFor(su: Setup, e: EngineState, r: nat): (T: seq<Tables>)
    requires EngineOk(su, e) && r in e.rules
    ensures |T| == |su.rules[r].conds|
  {
    TablesOf(ViewOf(e.conds, su.rules[r]))
  }

  /** Each rule's cached boxes are what compiling its WHERE clause against the
      current tables would give. */
  ghost predicate Fresh(su: Setup, e: EngineState)
    requires EngineOk(su, e)
  {
    forall r | r in e.rules :: e.rules[r].domains == ExpectedBoxes(su.rules[r], TablesFor(su, e, r))
  }

  lemma InitialFresh(su: Setup)
    requires SetupOk(su) && EngineOk(su, InitialEngine(su))
    ensures Fresh(su, InitialEngine(su))
  {
    var e := InitialEngine(su);
    forall r | r in e.rules ensures e.rules[r].domains == ExpectedBoxes(su.rules[r], TablesFor(su, e, r)) {
      var cfg := su.rules[r];
      if cfg.where.Some? { CompileEmpty(cfg.where.value, TablesFor(su, e, r)); }
    }
  }

  /** A rule none of whose watched tables grew would recompile to the same list. */
  lemma UnwatchedKept(su: Setup, e: EngineState, msg: Message, r: nat)
    requires EngineOk(su, e) && msg.time >= 0 && r in e.rules
    requires r !in Watching(su, Extended(su, e.conds, msg, Source), Source)
    requires r !in Watching(su, Extended(su, e.conds, msg, Target), Target)
    requires HasConds(FeedConds(su, e.conds, msg), su.rules[r])
    ensures ExpectedBoxes(su.rules[r], TablesOf(ViewOf(FeedConds(su, e.conds, msg), su.rules[r])))
            == ExpectedBoxes(su.rules[r], TablesFor(su, e, r))
  {
    var cfg := su.rules[r];
    var T, U := TablesFor(su, e, r), TablesOf(ViewOf(FeedConds(su, e.conds, msg), cfg));
    if cfg.where.Some? {
      forall sl: Slot | sl.idx < |T| && Mentions(cfg.where.value, sl) ensures TableOf(T, sl) == TableOf(U, sl) {
        SlotKept(su, e, msg, r, sl);
      }
      CompileFrame(cfg.where.value, T, U);
    }
  }

  lemma SlotKept(su: Setup, e: EngineState, msg: Message, r: nat, sl: Slot)
    requires EngineOk(su, e) && r in e.rules && sl.idx < |su.rules[r].conds|
    requires su.rules[r].where.Some? && Mentions(su.rules[r].where.value, sl)
    requires r !in Watching(su, Extended(su, e.conds, msg, sl.arg), sl.arg)
    requires HasConds(FeedConds(su, e.conds, msg), su.rules[r])
    ensures ViewOf(FeedConds(su, e.conds, msg), su.rules[r])[sl.idx].tables.Of(sl.arg)
            == ViewOf(e.conds, su.rules[r])[sl.idx].tables.Of(sl.arg)
  {
    var c := su.rules[r].conds[sl.idx];
    assert c in su.rules[r].conds;
    assert Slot(sl.idx, sl.arg) == sl;
    assert Watches(su.rules[r], c, sl.arg);
    assert r in DomainSubscribers(su, c, sl.arg);
    assert c !in Extended(su, e.conds, msg, sl.arg);
  }

  lemma EvalKeepsDomains(cfg: RuleConfig, rs: RuleState, view: seq<Hitmap>, now: int)
    requires |cfg.prim| == |view| && BoxesOk(rs.domains, |view|)
    ensures EvalStep(cfg, rs, view, now).0.domains == rs.domains
  {
  }

  lemma FeedKeepsFresh(su: Setup, e: EngineState, msg: Message, now: int)
    requires EngineOk(su, e) && Fresh(su, e) && msg.time >= 0
    requires EngineOk(su, FeedStep(su, e, msg, now))
    ensures Fresh(su, FeedStep(su, e, msg, now))
    // the evaluations of this very step already see fresh boxes
    ensures forall r | r in e.rules ::
      Refreshed(su, e, msg)[r].domains == ExpectedBoxes(su.rules[r], TablesFor(su, FeedStep(su, e, msg, now), r))
  {
    var conds := FeedConds(su, e.conds, msg);
    var e' := FeedStep(su, e, msg, now);
    var mid := Refreshed(su, e, msg);
    forall r | r in e.rules
      ensures mid[r].domains == ExpectedBoxes(su.rules[r], TablesFor(su, e', r))
      ensures e'.rules[r].domains == mid[r].domains
    {
      assert HasConds(conds, su.rules[r]);
      if && r !in Watching(su, Extended(su, e.conds, msg, Source), Source)
         && r !in Watching(su, Extended(su, e.conds, msg, Target), Target)
      {
        UnwatchedKept(su, e, msg, r);
      }
      EvalKeepsDomains(su.rules[r], mid[r], ViewOf(conds, su.rules[r]), now);
    }
  }

  lemma BatchKeepsTables(su: Setup, e: EngineState, now: int, r: nat)
    requires EngineOk(su, e) && r in e.rules
    requires HasConds(BatchConds(su, e.conds, e.queue, now), su.rules[r])
    ensures TablesOf(ViewOf(BatchConds(su, e.conds, e.queue, now), su.rules[r])) == TablesFor(su, e, r)
  {
    var cfg := su.rules[r];
    forall i | 0 <= i < |cfg.conds| ensures cfg.conds[i] in e.conds {
      assert cfg.conds[i] in cfg.conds;
    }
  }

  lemma BatchKeepsFresh(su: Setup, e: EngineState, now: int)
    requires EngineOk(su, e) && Fresh(su, e) && EngineOk(su, BatchStep(su, e, now))
    ensures Fresh(su, BatchStep(su, e, now))
  {
    var conds := BatchConds(su, e.conds, e.queue, now);
    var e' := BatchStep(su, e, now);
    forall r | r in e.rules ensures e'.rules[r].domains == ExpectedBoxes(su.rules[r], TablesFor(su, e', r)) {
      assert HasConds(conds, su.rules[r]);
      BatchKeepsTables(su, e, now, r);
      EvalKeepsDomains(su.rules[r], e.rules[r], ViewOf(conds, su.rules[r]), now);
    }
  }

  /** In every reset-free run, each rule's cached boxes are up to date. */
  lemma {:induction false} RunFresh(su: Setup, acts: seq<Action>)
    requires SetupOk(su) && ActionsOk(acts) && ResetFree(acts)
    ensures Fresh(su, Run(su, acts))
    decreases |acts|
  {
    if acts == [] {
      InitialOk(su);
      InitialFresh(su);
    } else {
      var front, a := acts[..|acts| - 1], acts[|acts| - 1];
      RunFresh(su, front);
      var e := Run(su, front);
      NextOk(su, e, a);
      assert !IsReset(a);
      if a.Feed? {
        FeedKeepsFresh(su, e, a.msg, a.now);
      } else if a.Batch? {
        BatchKeepsFresh(su, e, a.now);
      } else {
        EnableKeepsFresh(su, e, a.rule, a.flag);
      }
    }
  }

  lemma EnableKeepsFresh(su: Setup, e: EngineState, r: nat, flag: bool)
    requires EngineOk(su, e) && Fresh(su, e) && EngineOk(su, NextState(su, e, EnableRule(r, flag)))
    ensures Fresh(su, NextState(su, e, EnableRule(r, flag)))
  {
    EnableKeepsBoxes(su, e, r, flag);
    SameBoxesFresh(su, e, NextState(su, e, EnableRule(r, flag)));
  }

  lemma EnableKeepsBoxes(su: Setup, e: EngineState, r: nat, flag: bool)
    requires EngineOk(su, e)
    ensures var e' := NextState(su, e, EnableRule(r, flag));
            && e'.conds == e.conds
            && forall q | q in e'.rules :: q in e.rules && e'.rules[q].domains == e.rules[q].domains
  {
  }

  lemma SameBoxesFresh(su: Setup, e: EngineState, e': EngineState)
    requires EngineOk(su, e) && EngineOk(su, e') && Fresh(su, e) && e'.conds == e.conds
    requires forall q | q in e'.rules :: q in e.rules && e'.rules[q].domains == e.rules[q].domains
    ensures Fresh(su, e')
  {
    forall q | q in e'.rules ensures e'.rules[q].domains == ExpectedBoxes(su.rules[q], TablesFor(su, e', q)) {
      assert TablesFor(su, e', q) == TablesFor(su, e, q);
    }
  }

  /** The box is one pattern per condition, not null, with concrete indices
      inside the tables. */
  predicate BoxSafe(box: Domain, view: seq<Hitmap>)
  {
    && |box| == |view| && !IsNull(box)
    && forall i | 0 <= i < |box| ::
         ANY <= box[i].first < |view[i].tables.src| && ANY <= box[i].second < |view[i].tables.tgt|
  }

  /** In reset-free runs every box that reaches evaluation is safe to use. */
  lemma RunBoxesSafe(su: Setup, acts: seq<Action>)
    requires SetupOk(su) && ActionsOk(acts) && ResetFree(acts)
    ensures var e := Run(su, acts);
            forall r, k | r in e.rules && 0 <= k < |e.rules[r].domains| ::
                BoxSafe(e.rules[r].domains[k], ViewOf(e.conds, su.rules[r]))
  {
    RunFresh(su, acts);
    var e := Run(su, acts);
    forall r, k | r in e.rules && 0 <= k < |e.rules[r].domains|
      ensures BoxSafe(e.rules[r].domains[k], ViewOf(e.conds, su.rules[r]))
    {
      FreshBoxSafe(su, e, r, k);
    }
  }

  lemma FreshBoxSafe(su: Setup, e: EngineState, r: nat, k: nat)
    requires EngineOk(su, e) && r in e.rules && k < |e.rules[r].domains|
    requires e.rules[r].domains == ExpectedBoxes(su.rules[r], TablesFor(su, e, r))
    ensures BoxSafe(e.rules[r].domains[k], ViewOf(e.conds, su.rules[r]))
  {
    var T := TablesFor(su, e, r);
    ExpectedSound(su.rules[r], T);
    var box := e.rules[r].domains[k];
    assert Sound(box, T);
    forall i | 0 <= i < |box| ensures ANY <= box[i].first < |T[i].src| && ANY <= box[i].second < |T[i].tgt| {
      ViewOk(su, e, r, i);
      assert Known(box[i].first, T[i].src) && Known(box[i].second, T[i].tgt);
    }
  }

  lemma ViewOk(su: Setup, e: EngineState, r: nat, i: nat)
    requires EngineOk(su, e) && r in e.rules && i < |su.rules[r].conds|
    ensures HitmapOk(ViewOf(e.conds, su.rules[r])[i], su.conds[su.rules[r].conds[i]])
  {
    assert su.rules[r].conds[i] in su.rules[r].conds;
    assert CondStateOk(su.conds[su.rules[r].conds[i]], e.conds[su.rules[r].conds[i]]);
  }

  lemma ViewTablesOk(su: Setup, e: EngineState, r: nat)
    requires EngineOk(su, e) && r in e.rules
    ensures TablesOk(TablesFor(su, e, r))
  {
    forall i | 0 <= i < |su.rules[r].conds| { ViewOk(su, e, r, i); }
  }

  lemma NoneReset(conds: map<string, CondState>)
    ensures ResetConds(conds, {}) == conds
  {
  }

  lemma CommandConds(su: Setup, e: EngineState, a: Action)
    requires EngineOk(su, e) && !a.Feed? && !a.Batch?
    ensures NextState(su, e, a).conds == ResetConds(e.conds, ResetNames(su, a))
  {
    NoneReset(e.conds);
  }

  lemma RunFront(su: Setup, acts: seq<Action>)
    requires SetupOk(su) && ActionsOk(acts) && acts != []
    ensures Run(su, acts) == NextState(su, Run(su, acts[..|acts| - 1]), acts[|acts| - 1])
  {
  }

  lemma RunSnoc(su: Setup, acts: seq<Action>, a: Action)
    requires SetupOk(su) && ActionsOk(acts) && ActionOk(a)
    ensures ActionsOk(acts + [a]) && Run(su, acts + [a]) == NextState(su, Run(su, acts), a)
  {
    assert (acts + [a])[..|acts|] == acts;
  }
}
