/** Which rules raise an alarm at a step of the engine. */
module EngineFirings {
  import opened Options
  import opened Domains
  import opened Where
  import opened WhereMeaning
  import opened WhereFacts
  import opened Hitmaps
  import opened Rules
  import opened RuleSearch
  import opened RuleEval
  import opened RuleFacts
  import opened Engine
  import opened EngineFacts
  import C = Cells

  /** The conditions whose status the action flips. */
  ghost function Flips(su: Setup, e: EngineState, a: Action): set<string>
    requires EngineOk(su, e)
  {
    match a
    case Feed(msg, _) => Engine.Flipped(su, e.conds, msg)
    case Batch(now) => BatchFlipped(su, e.conds, e.queue, now)
    case _ => {}
  }

  /** The rules the action makes raise an alarm. */
  ghost function Fires(su: Setup, e: EngineState, a: Action): set<nat>
    requires EngineOk(su, e)
  {
    match a
    case Feed(msg, now) => FedFired(su, e, msg, now)
    case Batch(now) => BatchFired(su, e, now)
    case _ => {}
  }

  predicate Evaluates(a: Action)
  {
    a.Feed? || a.Batch?
  }

  ghost function View(su: Setup, e: EngineState, r: nat): (view: seq<Hitmap>)
    requires EngineOk(su, e) && r in e.rules
    ensures |view| == |su.rules[r].conds|
  {
    ViewOf(e.conds, su.rules[r])
  }

  // -------------------------------------------------------------------- flips

  predicate CellFlips(before: Hitmap, after: Hitmap, s: nat, t: nat)
  {
    CellAt(before, s, t).on != CellAt(after, s, t).on
  }

  lemma FedFlip(cfg: C.Config, cs: CondState, c: string, msg: Message)
    requires cfg.Ok()
    ensures React(cfg, cs, c, msg).status <==>
            exists s: nat, t: nat :: CellFlips(cs.hm, React(cfg, cs, c, msg).state.hm, s, t)
  {
    if c in msg.accepts {
      var r := CaptureStep(cs.hm, cfg, msg.accepts[c].0, msg.accepts[c].1, msg.time);
      CaptureCells(cs.hm, cfg, msg.accepts[c].0, msg.accepts[c].1, msg.time);
      assert r.status <==> CellFlips(cs.hm, r.hm, r.s, r.t);
    }
  }

  lemma BatchFlip(cfg: C.Config, cs: CondState, queue: multiset<C.TimingEvent>, now: int, c: string)
    ensures (exists k | k in cs.hm.cells :: BatchCell(cfg, cs.hm.cells[k], queue, now, c, k.0, k.1) != cs.hm.cells[k])
            <==> exists s: nat, t: nat :: CellFlips(cs.hm, BatchCond(cfg, cs, queue, now, c).hm, s, t)
  {
    var hm' := BatchCond(cfg, cs, queue, now, c).hm;
    forall k | k in cs.hm.cells
      ensures BatchCell(cfg, cs.hm.cells[k], queue, now, c, k.0, k.1) != cs.hm.cells[k] <==>
              CellFlips(cs.hm, hm', k.0, k.1)
    {
    }
    if s: nat, t: nat :| CellFlips(cs.hm, hm', s, t) {
      assert (s, t) in cs.hm.cells;
    }
  }

  /** A condition counts as flipped exactly when one of its cells is on after the
      step and was not before, or the other way round. */
  lemma FlipsMeaning(su: Setup, e: EngineState, a: Action, c: string)
    requires EngineOk(su, e) && ActionOk(a) && Evaluates(a) && c in su.conds
    ensures c in NextState(su, e, a).conds
    ensures c in Flips(su, e, a) <==>
            exists s: nat, t: nat :: CellFlips(e.conds[c].hm, NextState(su, e, a).conds[c].hm, s, t)
  {
    match a
    case Feed(msg, _) => FedFlip(su.conds[c], e.conds[c], c, msg);
    case Batch(now) => BatchFlip(su.conds[c], e.conds[c], e.queue, now, c);
  }

  // ------------------------------------------------------------- one evaluation

  /** Some assignment of some box the rule's clause compiles to raises an alarm. */
  ghost predicate SomeRaises(cfg: RuleConfig, rs: RuleState, view: seq<Hitmap>, now: int)
    requires cfg.Ok() && |view| == |cfg.conds|
  {
    var seen := RecompiledRule(cfg, rs, view);
    exists k: nat, v | k < |seen.domains| :: Raises(cfg, seen, k, v, view, now)
  }

  /** Some in-range choice of sources and targets satisfies the WHERE clause, makes
      the expression true, and has an alarm key that is new or past the holdoff. */
  ghost predicate Fireable(cfg: RuleConfig, rs: RuleState, view: seq<Hitmap>, now: int)
    requires cfg.Ok() && |view| == |cfg.conds|
  {
    exists a | InRange(a, TablesOf(view)) ::
        Selected(cfg, TablesOf(view), a) && CanFire(cfg, rs, Scene(a, a, view), now)
  }

  /** No counts, every condition mentioned by its status, and no literal list
      that names a condition twice. */
  ghost predicate PlainRule(cfg: RuleConfig)
  {
    Plain(cfg.expr) && AllPrimitive(cfg) && (cfg.where.Some? ==> ExprUnclashing(cfg.where.value))
  }

  lemma EvaluatedFires(cfg: RuleConfig, rs: RuleState, view: seq<Hitmap>, now: int)
    requires cfg.Ok() && |view| == |cfg.conds|
    ensures EvalStep(cfg, RecompiledRule(cfg, rs, view), view, now).1 <==> rs.enabled && SomeRaises(cfg, rs, view, now)
  {
    EvaluateMeaning(cfg, RecompiledRule(cfg, rs, view), view, now);
  }

  lemma PlainEvaluated(cfg: RuleConfig, rs: RuleState, view: seq<Hitmap>, now: int)
    requires cfg.Ok() && |view| == |cfg.conds| && PlainRule(cfg) && TablesOk(TablesOf(view))
    requires rs.enabled && rs.domains == ExpectedBoxes(cfg, TablesOf(view)) && BoxesOk(rs.domains, |view|)
    ensures EvalStep(cfg, rs, view, now).1 <==> Fireable(cfg, rs, view, now)
  {
    PlainRuleMeaning(cfg, rs, view, now);
  }

  /** For a plain rule the boxes can be left out. */
  lemma PlainRaises(cfg: RuleConfig, rs: RuleState, view: seq<Hitmap>, now: int)
    requires cfg.Ok() && |view| == |cfg.conds| && PlainRule(cfg) && TablesOk(TablesOf(view))
    ensures SomeRaises(cfg, rs, view, now) <==> Fireable(cfg, rs, view, now)
  {
    var live := rs.(enabled := true);
    EvaluatedFires(cfg, live, view, now);
    PlainEvaluated(cfg, RecompiledRule(cfg, live, view), view, now);
    SameAlarms(cfg, rs, live, view, now);
    SameAlarms(cfg, rs, RecompiledRule(cfg, live, view), view, now);
  }

  /** Whether an alarm is due depends on the alarm table alone. */
  lemma SameAlarms(cfg: RuleConfig, rs: RuleState, rs': RuleState, view: seq<Hitmap>, now: int)
    requires cfg.Ok() && |view| == |cfg.conds| && rs.alarms == rs'.alarms
    ensures Fireable(cfg, rs, view, now) <==> Fireable(cfg, rs', view, now)
    ensures SomeRaises(cfg, rs, view, now) <==> SomeRaises(cfg, rs', view, now)
  {
    var a, b := RecompiledRule(cfg, rs, view), RecompiledRule(cfg, rs', view);
    forall k: nat, v | k < |a.domains| ensures Raises(cfg, a, k, v, view, now) <==> Raises(cfg, b, k, v, view, now) {
    }
  }

  // ------------------------------------------------------------------ one step

  lemma FedRule(su: Setup, e: EngineState, msg: Message, now: int, r: nat)
    requires EngineOk(su, e) && Fresh(su, e) && msg.time >= 0 && r in e.rules
    requires EngineOk(su, FeedStep(su, e, msg, now))
    ensures Refreshed(su, e, msg)[r] == RecompiledRule(su.rules[r], e.rules[r], View(su, FeedStep(su, e, msg, now), r))
  {
    FeedKeepsFresh(su, e, msg, now);
  }

  lemma BatchRule(su: Setup, e: EngineState, now: int, r: nat)
    requires EngineOk(su, e) && Fresh(su, e) && r in e.rules && EngineOk(su, BatchStep(su, e, now))
    ensures e.rules[r] == RecompiledRule(su.rules[r], e.rules[r], View(su, BatchStep(su, e, now), r))
  {
    BatchKeepsTables(su, e, now, r);
  }

  /** The rule as the step's evaluations find it: its boxes compiled against the
      tables after the step. */
  ghost function Seen(su: Setup, e: EngineState, a: Action, r: nat): RuleState
    requires EngineOk(su, e) && ActionOk(a) && r in e.rules
  {
    NextOk(su, e, a);
    RecompiledRule(su.rules[r], e.rules[r], View(su, NextState(su, e, a), r))
  }

  lemma StepRule(su: Setup, e: EngineState, a: Action, r: nat)
    requires EngineOk(su, e) && Fresh(su, e) && ActionOk(a) && Evaluates(a) && r in e.rules
    requires EngineOk(su, NextState(su, e, a))
    ensures var view' := View(su, NextState(su, e, a), r);
            var outcome := EvalStep(su.rules[r], Seen(su, e, a, r), view', a.now);
            var listed := r in Subscribed(su, Flips(su, e, a));
            && (r in Fires(su, e, a) <==> listed && outcome.1)
            && NextState(su, e, a).rules[r] == if listed then outcome.0 else Seen(su, e, a, r)
  {
    match a
    case Feed(msg, now) => FedRule(su, e, msg, now, r);
    case Batch(now) => BatchRule(su, e, now, r);
  }

  /** A rule fires at a step exactly when it is subscribed to a condition the
      step flips, it is enabled, and some assignment raises an alarm on the hit
      maps after the step. */
  lemma StepFiring(su: Setup, e: EngineState, a: Action, r: nat)
    requires EngineOk(su, e) && Fresh(su, e) && ActionOk(a) && Evaluates(a) && r in e.rules
    requires EngineOk(su, NextState(su, e, a))
    ensures r in Fires(su, e, a) <==>
            && r in Subscribed(su, Flips(su, e, a)) && e.rules[r].enabled
            && SomeRaises(su.rules[r], e.rules[r], View(su, NextState(su, e, a), r), a.now)
  {
    StepRule(su, e, a, r);
    EvaluatedFires(su.rules[r], e.rules[r], View(su, NextState(su, e, a), r), a.now);
  }

  lemma StepFiringPlain(su: Setup, e: EngineState, a: Action, r: nat)
    requires EngineOk(su, e) && Fresh(su, e) && ActionOk(a) && Evaluates(a) && r in e.rules
    requires EngineOk(su, NextState(su, e, a)) && PlainRule(su.rules[r])
    ensures r in Fires(su, e, a) <==>
            && r in Subscribed(su, Flips(su, e, a)) && e.rules[r].enabled
            && Fireable(su.rules[r], e.rules[r], View(su, NextState(su, e, a), r), a.now)
  {
    StepFiring(su, e, a, r);
    ViewTablesOk(su, NextState(su, e, a), r);
    PlainRaises(su.rules[r], e.rules[r], View(su, NextState(su, e, a), r), a.now);
  }

  // ---------------------------------------------------------------------- runs

  /** The run ends with every rule's boxes up to date, as every run without resets
      does. */
  ghost predicate UpToDateRun(su: Setup, acts: seq<Action>)
    requires SetupOk(su) && ActionsOk(acts)
  {
    ResetFree(acts) || Fresh(su, Run(su, acts))
  }

  /** The alarms of every message and batch. */
  lemma RunFiring(su: Setup, acts: seq<Action>, a: Action, r: nat)
    requires SetupOk(su) && ActionsOk(acts) && UpToDateRun(su, acts) && ActionOk(a) && Evaluates(a) && r in su.rules
    ensures var e := Run(su, acts);
            && EngineOk(su, NextState(su, e, a))
            && (r in Fires(su, e, a) <==>
                  && r in Subscribed(su, Flips(su, e, a)) && e.rules[r].enabled
                  && SomeRaises(su.rules[r], e.rules[r], View(su, NextState(su, e, a), r), a.now))
            && (PlainRule(su.rules[r]) ==>
                  (r in Fires(su, e, a) <==>
                     && r in Subscribed(su, Flips(su, e, a)) && e.rules[r].enabled
                     && Fireable(su.rules[r], e.rules[r], View(su, NextState(su, e, a), r), a.now)))
  {
    var e := Run(su, acts);
    if ResetFree(acts) { RunFresh(su, acts); }
    NextOk(su, e, a);
    StepFiring(su, e, a, r);
    if PlainRule(su.rules[r]) { StepFiringPlain(su, e, a, r); }
  }
}
