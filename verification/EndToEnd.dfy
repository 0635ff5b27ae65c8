/** From messages to alarms: which rules fire at a step, in terms of the messages
    received, their sources and targets, and the times of the earlier firings. */
module EndToEnd {
  import opened Options
  import opened Domains
  import opened Where
  import opened WhereFacts
  import opened Hitmaps
  import opened Rules
  import opened RuleEval
  import opened RuleFacts
  import opened NamedRules
  import opened Engine
  import opened EngineFacts
  import opened CellWindows
  import opened EngineWindows
  import opened EngineMessages
  import opened EngineFirings
  import opened EngineAlarms
  import opened Leftovers
  import opened HeardMaps
  import C = Cells

  // -------------------------------------------------------- flips, by message

  /** The cell of a pair of names, registered or not. */
  lemma NamedHeard(su: Setup, acts: seq<Action>, c: string, x: string, y: string)
    requires SetupOk(su) && ActionsOk(acts) && Ordered(su, acts) && c in su.conds
    ensures c in Run(su, acts).conds
    ensures Named(Run(su, acts).conds[c].hm, x, y).on == ReadsNow(su.conds[c], Heard(su, acts, c, x, y))
  {
    RunHeard(su, acts, c);
    var tables := Run(su, acts).conds[c].hm.tables;
    if x in tables.src && y in tables.tgt {
      CellHeard(su, acts, c, x, y);
    } else {
      assert HeardBy(su, acts, c)(x, y) == Silent(su, acts, c);
      NothingHeard(su, acts, c);
    }
  }

  /** Without a hit no cell is on. */
  lemma {:induction false} NothingHeard(su: Setup, acts: seq<Action>, c: string)
    requires c in su.conds && su.conds[c].Ok()
    ensures forall i | 0 <= i < |Silent(su, acts, c).checks| :: Silent(su, acts, c).checks[i].hits == []
    ensures !ReadsNow(su.conds[c], Silent(su, acts, c))
  {
    if acts != [] { NothingHeard(su, acts[..|acts| - 1], c); }
  }

  predicate Switches(hm: Hitmap, hm': Hitmap, x: string, y: string)
  {
    Named(hm, x, y).on != Named(hm', x, y).on
  }

  ghost predicate AnySwitch(hm: Hitmap, hm': Hitmap)
  {
    exists x, y :: Switches(hm, hm', x, y)
  }

  lemma FlipSwitches(cfg: C.Config, hm: Hitmap, hm': Hitmap, s: nat, t: nat)
    requires HitmapOk(hm, cfg) && HitmapOk(hm', cfg)
    requires TableGrown(hm.tables.src, hm'.tables.src) && TableGrown(hm.tables.tgt, hm'.tables.tgt)
    requires CellFlips(hm, hm', s, t)
    ensures AnySwitch(hm, hm')
  {
    assert s < |hm'.tables.src| && t < |hm'.tables.tgt|;
    var x, y := NameOf(hm'.tables.src, s), NameOf(hm'.tables.tgt, t);
    assert Named(hm', x, y) == CellAt(hm', s, t);
    assert Named(hm, x, y) == CellAt(hm, s, t);
    assert Switches(hm, hm', x, y);
  }

  lemma SwitchFlips(hm: Hitmap, hm': Hitmap, x: string, y: string)
    requires TableGrown(hm.tables.src, hm'.tables.src) && TableGrown(hm.tables.tgt, hm'.tables.tgt)
    requires (forall k | k in hm.cells :: k.0 < |hm.tables.src| && k.1 < |hm.tables.tgt|) && Switches(hm, hm', x, y)
    ensures x in hm'.tables.src && y in hm'.tables.tgt
    ensures CellFlips(hm, hm', hm'.tables.src[x], hm'.tables.tgt[y])
  {
  }

  /** Some cell flips exactly when some pair of names does. */
  lemma NamedFlip(cfg: C.Config, hm: Hitmap, hm': Hitmap)
    requires HitmapOk(hm, cfg) && HitmapOk(hm', cfg)
    requires TableGrown(hm.tables.src, hm'.tables.src) && TableGrown(hm.tables.tgt, hm'.tables.tgt)
    ensures (exists s: nat, t: nat :: CellFlips(hm, hm', s, t)) <==> AnySwitch(hm, hm')
  {
    if s: nat, t: nat :| CellFlips(hm, hm', s, t) {
      FlipSwitches(cfg, hm, hm', s, t);
    }
    if AnySwitch(hm, hm') {
      var x, y :| Switches(hm, hm', x, y);
      SwitchFlips(hm, hm', x, y);
    }
  }

  lemma CondGrown(su: Setup, e: EngineState, a: Action, c: string)
    requires EngineOk(su, e) && ActionOk(a) && Evaluates(a) && c in su.conds
    ensures c in NextState(su, e, a).conds && HitmapOk(e.conds[c].hm, su.conds[c])
    ensures var before, after := e.conds[c].hm, NextState(su, e, a).conds[c].hm;
            && HitmapOk(after, su.conds[c])
            && TableGrown(before.tables.src, after.tables.src) && TableGrown(before.tables.tgt, after.tables.tgt)
  {
    NextOk(su, e, a);
    assert CondStateOk(su.conds[c], e.conds[c]) && CondStateOk(su.conds[c], NextState(su, e, a).conds[c]);
    if a.Feed? { ReactGrown(su.conds[c], e.conds[c], c, a.msg); }
  }

  lemma StepSwitches(su: Setup, e: EngineState, a: Action, c: string)
    requires EngineOk(su, e) && ActionOk(a) && Evaluates(a) && c in su.conds
    ensures c in NextState(su, e, a).conds
    ensures c in Flips(su, e, a) <==> AnySwitch(e.conds[c].hm, NextState(su, e, a).conds[c].hm)
  {
    FlipsMeaning(su, e, a, c);
    CondGrown(su, e, a, c);
    NamedFlip(su.conds[c], e.conds[c].hm, NextState(su, e, a).conds[c].hm);
  }

  /** By the messages heard, the action changes the status of condition c for the
      names x and y. */
  ghost predicate TurnedAt(su: Setup, acts: seq<Action>, a: Action, c: string, x: string, y: string)
    requires c in su.conds
  {
    ReadsNow(su.conds[c], Heard(su, acts, c, x, y)) != ReadsNow(su.conds[c], Heard(su, acts + [a], c, x, y))
  }

  ghost predicate Turned(su: Setup, acts: seq<Action>, a: Action, c: string)
    requires c in su.conds
  {
    exists x, y :: TurnedAt(su, acts, a, c, x, y)
  }

  lemma SwitchHeard(su: Setup, acts: seq<Action>, a: Action, c: string, x: string, y: string)
    requires SetupOk(su) && ActionsOk(acts) && ActionsOk(acts + [a])
    requires Ordered(su, acts) && Ordered(su, acts + [a]) && c in su.conds
    ensures c in Run(su, acts).conds && c in Run(su, acts + [a]).conds
    ensures Switches(Run(su, acts).conds[c].hm, Run(su, acts + [a]).conds[c].hm, x, y) <==>
            TurnedAt(su, acts, a, c, x, y)
  {
    NamedHeard(su, acts, c, x, y);
    NamedHeard(su, acts + [a], c, x, y);
  }

  lemma TurnedBy(su: Setup, acts: seq<Action>, a: Action, c: string, x: string, y: string)
    requires c in su.conds && TurnedAt(su, acts, a, c, x, y)
    ensures Turned(su, acts, a, c)
  {
  }

  lemma SwitchTurns(su: Setup, acts: seq<Action>, a: Action, c: string, hm: Hitmap, hm': Hitmap)
    requires SetupOk(su) && ActionsOk(acts) && ActionsOk(acts + [a])
    requires Ordered(su, acts) && Ordered(su, acts + [a]) && c in su.conds
    requires c in Run(su, acts).conds && hm == Run(su, acts).conds[c].hm
    requires c in Run(su, acts + [a]).conds && hm' == Run(su, acts + [a]).conds[c].hm
    requires AnySwitch(hm, hm')
    ensures Turned(su, acts, a, c)
  {
    var x, y :| Switches(hm, hm', x, y);
    SwitchHeard(su, acts, a, c, x, y);
    TurnedBy(su, acts, a, c, x, y);
  }

  lemma TurnSwitches(su: Setup, acts: seq<Action>, a: Action, c: string, hm: Hitmap, hm': Hitmap)
    requires SetupOk(su) && ActionsOk(acts) && ActionsOk(acts + [a])
    requires Ordered(su, acts) && Ordered(su, acts + [a]) && c in su.conds
    requires c in Run(su, acts).conds && hm == Run(su, acts).conds[c].hm
    requires c in Run(su, acts + [a]).conds && hm' == Run(su, acts + [a]).conds[c].hm
    requires Turned(su, acts, a, c)
    ensures AnySwitch(hm, hm')
  {
    var x, y :| TurnedAt(su, acts, a, c, x, y);
    SwitchHeard(su, acts, a, c, x, y);
  }

  /** A condition counts as flipped exactly when the messages heard change its
      status for some source and target. */
  lemma FlipHeard(su: Setup, acts: seq<Action>, a: Action, c: string)
    requires SetupOk(su) && ActionsOk(acts) && ActionOk(a) && ActionsOk(acts + [a])
    requires Ordered(su, acts) && Ordered(su, acts + [a]) && Evaluates(a) && c in su.conds
    ensures c in Flips(su, Run(su, acts), a) <==> Turned(su, acts, a, c)
  {
    RunSnoc(su, acts, a);
    StepSwitches(su, Run(su, acts), a, c);
    var hm, hm' := Run(su, acts).conds[c].hm, Run(su, acts + [a]).conds[c].hm;
    if Turned(su, acts, a, c) {
      TurnSwitches(su, acts, a, c, hm, hm');
    } else if AnySwitch(hm, hm') {
      SwitchTurns(su, acts, a, c, hm, hm');
    }
  }

  /** The last command for the rule, if any, enabled it. */
  predicate EnabledBy(acts: seq<Action>, r: nat)
  {
    acts == [] ||
    var a := acts[|acts| - 1];
    if a.EnableRule? && a.rule == r then a.flag else EnabledBy(acts[..|acts| - 1], r)
  }

  lemma FeedEnabled(su: Setup, e: EngineState, msg: Message, now: int, r: nat)
    requires EngineOk(su, e) && r in e.rules
    ensures r in FeedStep(su, e, msg, now).rules && FeedStep(su, e, msg, now).rules[r].enabled == e.rules[r].enabled
  {
  }

  lemma BatchEnabled(su: Setup, e: EngineState, now: int, r: nat)
    requires EngineOk(su, e) && r in e.rules
    ensures r in BatchStep(su, e, now).rules && BatchStep(su, e, now).rules[r].enabled == e.rules[r].enabled
  {
  }

  lemma NextEnabled(su: Setup, e: EngineState, a: Action, r: nat)
    requires EngineOk(su, e) && r in e.rules
    ensures r in NextState(su, e, a).rules
    ensures NextState(su, e, a).rules[r].enabled == if a.EnableRule? && a.rule == r then a.flag else e.rules[r].enabled
  {
    match a
    case Feed(msg, now) => FeedEnabled(su, e, msg, now, r);
    case Batch(now) => BatchEnabled(su, e, now, r);
    case _ =>
  }

  lemma {:induction false} RunEnabled(su: Setup, acts: seq<Action>, r: nat)
    requires SetupOk(su) && ActionsOk(acts) && r in su.rules
    ensures r in Run(su, acts).rules && Run(su, acts).rules[r].enabled == EnabledBy(acts, r)
    decreases |acts|
  {
    if acts != [] {
      RunEnabled(su, acts[..|acts| - 1], r);
      NextEnabled(su, Run(su, acts[..|acts| - 1]), acts[|acts| - 1], r);
    }
  }

  // ----------------------------------------------------- statuses, by message

  /** The source and target of each condition were heard since its last reset. */
  predicate AllHeard(su: Setup, acts: seq<Action>, cfg: RuleConfig, nm: Choice)
  {
    |nm| == |cfg.conds| && forall i | 0 <= i < |nm| ::
      && cfg.conds[i] in su.conds
      && nm[i].0 in NamesHeard(su, acts, cfg.conds[i], Source) && nm[i].1 in NamesHeard(su, acts, cfg.conds[i], Target)
  }

  /** By the messages heard for its source and target, condition i is on. */
  predicate HeardOn(su: Setup, acts: seq<Action>, cfg: RuleConfig, nm: Choice, i: nat)
  {
    i < |cfg.conds| && i < |nm| && cfg.conds[i] in su.conds &&
    ReadsNow(su.conds[cfg.conds[i]], Heard(su, acts, cfg.conds[i], nm[i].0, nm[i].1))
  }

  ghost function Statuses(su: Setup, acts: seq<Action>, cfg: RuleConfig, nm: Choice): nat -> bool
  {
    (i: nat) => HeardOn(su, acts, cfg, nm, i)
  }

  /** The places of a source and a target among the names heard. */
  function PlaceOf(su: Setup, acts: seq<Action>, c: string, name: (string, string)): CondDomain
    requires c in su.conds
    requires name.0 in NamesHeard(su, acts, c, Source) && name.1 in NamesHeard(su, acts, c, Target)
  {
    CondDomain(Position(NamesHeard(su, acts, c, Source), name.0), Position(NamesHeard(su, acts, c, Target), name.1))
  }

  /** The alarm key of a choice of names: the places of those conditions that a
      short-circuit reading of the expression looks at. */
  ghost function KeyHeard(su: Setup, acts: seq<Action>, cfg: RuleConfig, nm: Choice): Domain
    requires AllHeard(su, acts, cfg, nm)
  {
    seq(|nm|, i requires 0 <= i < |nm| =>
      if i in LookedOr(cfg.expr.ands, Statuses(su, acts, cfg, nm))
      then PlaceOf(su, acts, cfg.conds[i], nm[i]) else NULL_COND)
  }

  lemma KnownPlace(su: Setup, acts: seq<Action>, c: string, name: (string, string))
    requires c in su.conds && su.conds[c].Ok()
    requires name.0 in NamesHeard(su, acts, c, Source) && name.1 in NamesHeard(su, acts, c, Target)
    ensures var hm, p := HeardMap(su, acts, c), PlaceOf(su, acts, c, name);
            && name.0 in hm.tables.src && name.1 in hm.tables.tgt
            && p == CondDomain(hm.tables.src[name.0], hm.tables.tgt[name.1])
            && On(hm, p.first, p.second) == ReadsNow(su.conds[c], Heard(su, acts, c, name.0, name.1))
  {
    var p := PlaceOf(su, acts, c, name);
    HeardMapCell(su, acts, c, p.first, p.second);
  }

  /** The assignment that stands for names that were heard. */
  lemma HeardKnown(su: Setup, acts: seq<Action>, cfg: RuleConfig, nm: Choice)
    requires SetupOk(su) && forall c | c in cfg.conds :: c in su.conds
    ensures AllHeard(su, acts, cfg, nm) <==> AllKnown(nm, TablesOf(HeardView(su, acts, cfg)))
  {
    var T := TablesOf(HeardView(su, acts, cfg));
    if |nm| == |cfg.conds| {
      forall i | 0 <= i < |nm|
        ensures cfg.conds[i] in su.conds
        ensures nm[i].0 in NamesHeard(su, acts, cfg.conds[i], Source) <==> nm[i].0 in T[i].src
        ensures nm[i].1 in NamesHeard(su, acts, cfg.conds[i], Target) <==> nm[i].1 in T[i].tgt
      {
        assert cfg.conds[i] in cfg.conds;
      }
    }
  }

  lemma StatusesHeard(su: Setup, acts: seq<Action>, cfg: RuleConfig, nm: Choice)
    requires SetupOk(su) && (forall c | c in cfg.conds :: c in su.conds) && AllHeard(su, acts, cfg, nm)
    ensures AllKnown(nm, TablesOf(HeardView(su, acts, cfg)))
    ensures var view := HeardView(su, acts, cfg);
            var a := IndicesOf(nm, TablesOf(view));
            && GivesStatuses(Statuses(su, acts, cfg, nm), Scene(a, a, view))
            && forall i | 0 <= i < |nm| :: a[i] == PlaceOf(su, acts, cfg.conds[i], nm[i])
  {
    HeardKnown(su, acts, cfg, nm);
    var view := HeardView(su, acts, cfg);
    var a := IndicesOf(nm, TablesOf(view));
    forall i: nat | i < |a|
      ensures Statuses(su, acts, cfg, nm)(i) == On(view[i], a[i].first, a[i].second)
      ensures a[i] == PlaceOf(su, acts, cfg.conds[i], nm[i])
    {
      assert cfg.conds[i] in cfg.conds;
      KnownPlace(su, acts, cfg.conds[i], nm[i]);
    }
  }

  // ------------------------------------------------------------------- alarms

  /** The key is new, or a repeating rule first fired it more than holdoff ago. */
  predicate Due(cfg: RuleConfig, log: seq<Firing>, key: Domain, now: int)
  {
    key !in FirstTimes(log) || (cfg.repeat && now - FirstTimes(log)[key] > cfg.holdoff)
  }

  /** A rule as its firings left it, as far as alarms go. */
  function AfterFirings(log: seq<Firing>): RuleState
  {
    RuleState([], FirstTimes(log), 0, None, true)
  }

  /** The messages heard call for an alarm of rule r, given its earlier firings:
      some assignment of some box its clause compiles to raises one. */
  ghost predicate CalledFor(su: Setup, acts: seq<Action>, r: nat, log: seq<Firing>, now: int)
    requires SetupOk(su) && r in su.rules
  {
    SomeRaises(su.rules[r], AfterFirings(log), HeardView(su, acts, su.rules[r]), now)
  }

  /** The messages heard for these names call for an alarm. */
  ghost predicate Calls(su: Setup, acts: seq<Action>, cfg: RuleConfig, nm: Choice, log: seq<Firing>, now: int)
    requires cfg.Ok() && AllHeard(su, acts, cfg, nm)
  {
    && (cfg.where.Some? ==> WhereSays(cfg.where.value, nm))
    && Says(cfg.expr, Statuses(su, acts, cfg, nm))
    && Due(cfg, log, KeyHeard(su, acts, cfg, nm), now)
  }

  ghost predicate SomeNamesCall(su: Setup, acts: seq<Action>, cfg: RuleConfig, log: seq<Firing>, now: int)
    requires cfg.Ok()
  {
    exists nm: Choice | AllHeard(su, acts, cfg, nm) :: Calls(su, acts, cfg, nm, log, now)
  }

  lemma HeardTables(su: Setup, acts: seq<Action>, r: nat)
    requires SetupOk(su) && ActionsOk(acts) && r in su.rules
    ensures TablesOk(TablesOf(HeardView(su, acts, su.rules[r])))
  {
    var cfg := su.rules[r];
    forall i | 0 <= i < |cfg.conds|
      ensures HeardView(su, acts, cfg)[i].tables == View(su, Run(su, acts), r)[i].tables
    {
      assert cfg.conds[i] in cfg.conds;
      RunTables(su, acts, cfg.conds[i]);
    }
    ViewTablesOk(su, Run(su, acts), r);
    assert TablesOf(HeardView(su, acts, cfg)) == TablesFor(su, Run(su, acts), r);
  }

  lemma HeardFires(su: Setup, acts: seq<Action>, cfg: RuleConfig, nm: Choice, log: seq<Firing>, now: int)
    requires SetupOk(su) && cfg.Ok() && Plain(cfg.expr) && (forall c | c in cfg.conds :: c in su.conds)
    requires AllHeard(su, acts, cfg, nm) && AllKnown(nm, TablesOf(HeardView(su, acts, cfg)))
    ensures var view := HeardView(su, acts, cfg);
            var a := IndicesOf(nm, TablesOf(view));
            CanFire(cfg, AfterFirings(log), Scene(a, a, view), now) <==>
              Says(cfg.expr, Statuses(su, acts, cfg, nm)) && Due(cfg, log, KeyHeard(su, acts, cfg, nm), now)
  {
    var view, on := HeardView(su, acts, cfg), Statuses(su, acts, cfg, nm);
    var a := IndicesOf(nm, TablesOf(view));
    StatusesHeard(su, acts, cfg, nm);
    TrueSays(cfg.expr, cfg.prim, Scene(a, a, view), on);
    KeyMeaning(cfg.expr, cfg.prim, Scene(a, a, view), on);
    assert AlarmKey(cfg.expr, Scene(a, a, view)) == KeyHeard(su, acts, cfg, nm);
  }

  /** One choice of names, and the assignment that stands for it. */
  lemma ChoiceReads(su: Setup, acts: seq<Action>, cfg: RuleConfig, nm: Choice, log: seq<Firing>, now: int)
    requires SetupOk(su) && cfg.Ok() && Plain(cfg.expr) && (forall c | c in cfg.conds :: c in su.conds)
    requires TablesOk(TablesOf(HeardView(su, acts, cfg))) && AllKnown(nm, TablesOf(HeardView(su, acts, cfg)))
    ensures AllHeard(su, acts, cfg, nm)
    ensures var view := HeardView(su, acts, cfg);
            var a := IndicesOf(nm, TablesOf(view));
            && InRange(a, TablesOf(view))
            && (Selected(cfg, TablesOf(view), a) && CanFire(cfg, AfterFirings(log), Scene(a, a, view), now)
                <==> Calls(su, acts, cfg, nm, log, now))
  {
    var T := TablesOf(HeardView(su, acts, cfg));
    HeardKnown(su, acts, cfg, nm);
    IndicesInRange(nm, T);
    if cfg.where.Some? { WhereNames(cfg.where.value, T, nm); }
    HeardFires(su, acts, cfg, nm, log, now);
  }

  lemma FireableCalls(su: Setup, acts: seq<Action>, cfg: RuleConfig, log: seq<Firing>, now: int)
    requires SetupOk(su) && cfg.Ok() && Plain(cfg.expr) && (forall c | c in cfg.conds :: c in su.conds)
    requires TablesOk(TablesOf(HeardView(su, acts, cfg)))
    ensures Fireable(cfg, AfterFirings(log), HeardView(su, acts, cfg), now) <==> SomeNamesCall(su, acts, cfg, log, now)
  {
    var view, rs := HeardView(su, acts, cfg), AfterFirings(log);
    if Fireable(cfg, rs, view, now) {
      var a :| InRange(a, TablesOf(view)) && Selected(cfg, TablesOf(view), a)
               && CanFire(cfg, rs, Scene(a, a, view), now);
      var nm := NamesExist(a, TablesOf(view));
      ChoiceReads(su, acts, cfg, nm, log, now);
    }
    if SomeNamesCall(su, acts, cfg, log, now) {
      var nm: Choice :| AllHeard(su, acts, cfg, nm) && Calls(su, acts, cfg, nm, log, now);
      HeardKnown(su, acts, cfg, nm);
      ChoiceReads(su, acts, cfg, nm, log, now);
    }
  }

  /** For a plain rule the boxes can be left out: the messages call for an alarm
      exactly when for some sources and targets that were heard the WHERE clause
      holds of their names, the expression of what their messages say, and the
      earlier firings let the key through. */
  lemma PlainCalled(su: Setup, acts: seq<Action>, r: nat, log: seq<Firing>, now: int)
    requires SetupOk(su) && ActionsOk(acts) && r in su.rules && PlainRule(su.rules[r])
    ensures CalledFor(su, acts, r, log, now) <==> SomeNamesCall(su, acts, su.rules[r], log, now)
  {
    HeardTables(su, acts, r);
    PlainRaises(su.rules[r], AfterFirings(log), HeardView(su, acts, su.rules[r]), now);
    FireableCalls(su, acts, su.rules[r], log, now);
  }

  /** The evaluation of a rule, on the engine's hit maps and on those built from
      the messages. */
  lemma RaisesHeard(su: Setup, acts: seq<Action>, r: nat, rs: RuleState, log: seq<Firing>, now: int)
    requires SetupOk(su) && ActionsOk(acts) && Ordered(su, acts) && r in su.rules && rs.alarms == FirstTimes(log)
    ensures SomeRaises(su.rules[r], rs, View(su, Run(su, acts), r), now) <==> CalledFor(su, acts, r, log, now)
  {
    var view := View(su, Run(su, acts), r);
    ViewSame(su, acts, r);
    SameRaises(su.rules[r], rs, view, HeardView(su, acts, su.rules[r]), now);
    SameAlarms(su.rules[r], rs, AfterFirings(log), HeardView(su, acts, su.rules[r]), now);
  }

  lemma CalledFires(su: Setup, acts: seq<Action>, a: Action, r: nat)
    requires SetupOk(su) && ActionsOk(acts) && ActionOk(a) && ActionsOk(acts + [a])
    requires Ordered(su, acts + [a]) && UpToDateRun(su, acts) && Evaluates(a) && r in su.rules
    ensures r in Fires(su, Run(su, acts), a) <==>
            && r in Subscribed(su, Flips(su, Run(su, acts), a)) && Run(su, acts).rules[r].enabled
            && CalledFor(su, acts + [a], r, RunLogs(su, acts)(r), a.now)
  {
    var e := Run(su, acts);
    RunSnoc(su, acts, a);
    RunFiring(su, acts, a, r);
    RunLogsOk(su, acts);
    assert LogOk(su.rules[r], e.rules[r], RunLogs(su, acts)(r));
    RaisesHeard(su, acts + [a], r, e.rules[r], RunLogs(su, acts)(r), a.now);
  }

  lemma OrderedSnoc(su: Setup, acts: seq<Action>, a: Action)
    requires SetupOk(su) && ActionsOk(acts) && ActionsOk(acts + [a]) && Ordered(su, acts + [a])
    ensures Ordered(su, acts)
  {
    assert (acts + [a])[..|acts|] == acts;
  }

  lemma SubscribedTo(su: Setup, names: set<string>, r: nat)
    requires r in su.rules
    ensures r in Subscribed(su, names) <==> exists c | c in su.rules[r].conds :: c in names
  {
    forall c | c in names ensures r in StatusSubscribers(su, c) <==> c in su.rules[r].conds {
    }
  }

  /** Some condition of the rule is turned. */
  ghost predicate SomeTurned(su: Setup, acts: seq<Action>, a: Action, r: nat)
    requires SetupOk(su) && r in su.rules
  {
    exists c | c in su.rules[r].conds :: Turned(su, acts, a, c)
  }

  lemma FlippedTurned(su: Setup, acts: seq<Action>, a: Action, r: nat)
    requires SetupOk(su) && ActionsOk(acts) && ActionOk(a) && ActionsOk(acts + [a])
    requires Ordered(su, acts) && Ordered(su, acts + [a]) && Evaluates(a) && r in su.rules
    ensures r in Subscribed(su, Flips(su, Run(su, acts), a)) <==> SomeTurned(su, acts, a, r)
  {
    var flips := Flips(su, Run(su, acts), a);
    SubscribedTo(su, flips, r);
    forall c | c in su.rules[r].conds ensures c in flips <==> Turned(su, acts, a, c) {
      FlipHeard(su, acts, a, c);
    }
  }

  /** End to end: in every run without resets, and in every other one whose boxes
      are up to date, a message or batch makes a rule fire exactly when the rule
      is enabled, the messages heard so far turn one of its conditions, and they
      call for an alarm that the earlier firings let through. */
  lemma EndToEnd(su: Setup, acts: seq<Action>, a: Action, r: nat)
    requires SetupOk(su) && ActionsOk(acts) && ActionOk(a) && ActionsOk(acts + [a])
    requires Ordered(su, acts + [a]) && UpToDateRun(su, acts) && Evaluates(a) && r in su.rules
    ensures r in Fires(su, Run(su, acts), a) <==>
            EnabledBy(acts, r) && SomeTurned(su, acts, a, r)
            && CalledFor(su, acts + [a], r, RunLogs(su, acts)(r), a.now)
    ensures PlainRule(su.rules[r]) ==>
              (r in Fires(su, Run(su, acts), a) <==>
                && EnabledBy(acts, r) && SomeTurned(su, acts, a, r)
                && SomeNamesCall(su, acts + [a], su.rules[r], RunLogs(su, acts)(r), a.now))
  {
    OrderedSnoc(su, acts, a);
    RunEnabled(su, acts, r);
    CalledFires(su, acts, a, r);
    FlippedTurned(su, acts, a, r);
    if PlainRule(su.rules[r]) { PlainCalled(su, acts + [a], r, RunLogs(su, acts)(r), a.now); }
  }

  // A rule over one condition, two messages in ten seconds and not persistent: it
  // fires at the second message, before any batch has run.
  const TIMELY_RULE := RuleConfig(["c"], [true], AnyOf([AllOf([Status(0)])]), None, false, 0)
  const TIMELY_COND := C.MakeConfig(2, true, 10, true, false, false)
  const TIMELY_SETUP := Setup(map["c" := TIMELY_COND], map[0 := TIMELY_RULE])
  const TIMELY_NAMES: Choice := [("a", GLOBAL_T)]

  function FeedAt(sec: int): Action
  {
    Feed(Message(sec, map["c" := ("a", "")]), sec)
  }

  lemma TimelyOk()
    ensures SetupOk(TIMELY_SETUP) && PlainRule(TIMELY_RULE)
  {
    assert TIMELY_RULE.Ok();
  }

  lemma TimelyOrdered(acts: seq<Action>, a: Action)
    requires SetupOk(TIMELY_SETUP) && acts == [FeedAt(0)] && a == FeedAt(1)
    ensures ActionsOk(acts) && ActionsOk(acts + [a]) && Ordered(TIMELY_SETUP, acts + [a]) && ResetFree(acts)
  {
    assert acts[..0] == [] && (acts + [a])[..1] == acts;
    assert RunHistory(TIMELY_SETUP, acts).clock == 0;
  }

  lemma TimelyHeard(acts: seq<Action>, a: Action)
    requires acts == [FeedAt(0)] && a == FeedAt(1)
    ensures Heard(TIMELY_SETUP, acts, "c", "a", GLOBAL_T) == Past([0], [])
    ensures Heard(TIMELY_SETUP, acts + [a], "c", "a", GLOBAL_T) == Past([0, 1], [])
    ensures NamesHeard(TIMELY_SETUP, acts + [a], "c", Source) == ["a"]
    ensures NamesHeard(TIMELY_SETUP, acts + [a], "c", Target) == [GLOBAL_T]
  {
    assert acts[..0] == [] && (acts + [a])[..1] == acts;
    assert Heard(TIMELY_SETUP, [], "c", "a", GLOBAL_T) == Past([], []);
    assert NamesHeard(TIMELY_SETUP, acts, "c", Source) == ["a"];
    assert NamesHeard(TIMELY_SETUP, acts, "c", Target) == [GLOBAL_T];
  }

  lemma TimelyReads()
    ensures !ReadsNow(TIMELY_COND, Past([0], [])) && ReadsNow(TIMELY_COND, Past([0, 1], []))
  {
    assert [0][..0] == [] && [0, 1][..1] == [0];
    assert HitsIn([0], -10, 0) == 1 && HitsIn([0], -9, 1) == 1 && HitsIn([0, 1], -9, 1) == 2;
  }

  lemma TimelyTurned(acts: seq<Action>, a: Action)
    requires SetupOk(TIMELY_SETUP) && acts == [FeedAt(0)] && a == FeedAt(1)
    ensures 0 in TIMELY_SETUP.rules && SomeTurned(TIMELY_SETUP, acts, a, 0)
  {
    TimelyHeard(acts, a);
    TimelyReads();
    assert TurnedAt(TIMELY_SETUP, acts, a, "c", "a", GLOBAL_T);
    assert "c" in TIMELY_RULE.conds;
    assert Turned(TIMELY_SETUP, acts, a, "c");
  }

  lemma TimelyCalls(acts: seq<Action>, a: Action)
    requires SetupOk(TIMELY_SETUP) && acts == [FeedAt(0)] && a == FeedAt(1)
    ensures SomeNamesCall(TIMELY_SETUP, acts + [a], TIMELY_RULE, [], 1)
  {
    TimelyHeard(acts, a);
    TimelyReads();
    var on := Statuses(TIMELY_SETUP, acts + [a], TIMELY_RULE, TIMELY_NAMES);
    assert on(0);
    assert OneSays(Status(0), on);
    assert AllSay(TIMELY_RULE.expr.ands[0], on);
    assert AllHeard(TIMELY_SETUP, acts + [a], TIMELY_RULE, TIMELY_NAMES);
    assert Calls(TIMELY_SETUP, acts + [a], TIMELY_RULE, TIMELY_NAMES, [], 1);
  }

  lemma TimelyHit(cs: CondState)
    requires cs.hm == EMPTY
    ensures !React(TIMELY_COND, cs, "c", FeedAt(0).msg).status
  {
  }

  lemma TimelyUnflipped(e: EngineState)
    requires EngineOk(TIMELY_SETUP, e) && e == InitialEngine(TIMELY_SETUP)
    ensures 0 !in Fires(TIMELY_SETUP, e, FeedAt(0))
  {
    TimelyHit(e.conds["c"]);
    assert Flips(TIMELY_SETUP, e, FeedAt(0)) == {};
  }

  /** The first message turns nothing, so nothing fired yet. */
  lemma TimelySilent(acts: seq<Action>)
    requires SetupOk(TIMELY_SETUP) && acts == [FeedAt(0)] && ActionsOk(acts)
    ensures RunLogs(TIMELY_SETUP, acts)(0) == []
  {
    var front := acts[..|acts| - 1];
    assert front == [];
    TimelyUnflipped(Run(TIMELY_SETUP, front));
    assert RunLogs(TIMELY_SETUP, front)(0) == [];
  }

  /** The premises of the theorem and of its conclusion, for a plain rule. */
  ghost predicate Applicable(su: Setup, acts: seq<Action>, a: Action, r: nat)
  {
    && SetupOk(su) && ActionsOk(acts) && ActionOk(a) && ActionsOk(acts + [a])
    && Ordered(su, acts + [a]) && UpToDateRun(su, acts) && Evaluates(a)
    && r in su.rules && PlainRule(su.rules[r]) && EnabledBy(acts, r)
  }

  lemma NamesFire(su: Setup, acts: seq<Action>, a: Action, r: nat, log: seq<Firing>)
    requires Applicable(su, acts, a, r) && SomeTurned(su, acts, a, r)
    requires log == RunLogs(su, acts)(r) && SomeNamesCall(su, acts + [a], su.rules[r], log, a.now)
    ensures r in Fires(su, Run(su, acts), a)
  {
    EndToEnd(su, acts, a, r);
  }

  lemma TimelyApplicable(acts: seq<Action>, a: Action)
    requires acts == [FeedAt(0)] && a == FeedAt(1)
    ensures Applicable(TIMELY_SETUP, acts, a, 0)
  {
    TimelyOk();
    TimelyOrdered(acts, a);
    assert acts[..0] == [];
  }

  /** The theorem at work. */
  lemma EndToEndExample()
    ensures Applicable(TIMELY_SETUP, [FeedAt(0)], FeedAt(1), 0)
    ensures 0 in Fires(TIMELY_SETUP, Run(TIMELY_SETUP, [FeedAt(0)]), FeedAt(1))
  {
    var acts, a := [FeedAt(0)], FeedAt(1);
    TimelyApplicable(acts, a);
    TimelyTurned(acts, a);
    TimelySilent(acts);
    TimelyCalls(acts, a);
    NamesFire(TIMELY_SETUP, acts, a, 0, []);
  }
}
