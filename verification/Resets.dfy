/** Resets: they clear the hit maps but leave every rule's cached boxes. Which
    rules stay up to date, exactly. */
module Resets {
  import opened Options
  import opened Domains
  import opened Where
  import opened WhereMeaning
  import opened WhereFacts
  import opened ClearedTables
  import opened Hitmaps
  import opened Rules
  import opened RuleEval
  import opened RuleFacts
  import opened Engine
  import opened EngineFacts
  import C = Cells

  /** The positions of these conditions in a rule. */
  function Dead(cfg: RuleConfig, names: set<string>): set<nat>
  {
    set i: nat | i < |cfg.conds| && cfg.conds[i] in names
  }

  /** The rule's cached boxes are what recompiling would give. */
  ghost predicate UpToDate(su: Setup, e: EngineState, q: nat)
    requires EngineOk(su, e) && q in e.rules
  {
    e.rules[q].domains == ExpectedBoxes(su.rules[q], TablesFor(su, e, q))
  }

  lemma FreshRules(su: Setup, e: EngineState)
    requires EngineOk(su, e)
    ensures Fresh(su, e) <==> forall q | q in e.rules :: UpToDate(su, e, q)
  {
  }

  lemma ResetState(su: Setup, e: EngineState, a: Action, q: nat)
    requires EngineOk(su, e) && IsReset(a) && q in e.rules
    ensures NextState(su, e, a).conds == ResetConds(e.conds, ResetNames(su, a))
    ensures q in NextState(su, e, a).rules && NextState(su, e, a).rules[q].domains == e.rules[q].domains
  {
    CommandConds(su, e, a);
  }

  lemma ClearedView(conds: map<string, CondState>, names: set<string>, cfg: RuleConfig)
    requires HasConds(conds, cfg) && HasConds(ResetConds(conds, names), cfg)
    ensures TablesOf(ViewOf(ResetConds(conds, names), cfg)) == Cleared(TablesOf(ViewOf(conds, cfg)), Dead(cfg, names))
  {
    var dead := Dead(cfg, names);
    forall i: nat | i < |cfg.conds|
      ensures ViewOf(ResetConds(conds, names), cfg)[i].tables
              == if i in dead then NO_NAMES else ViewOf(conds, cfg)[i].tables
    {
      assert cfg.conds[i] in cfg.conds;
    }
  }

  /** A reset clears the tables of its conditions and keeps all cached boxes. */
  lemma ResetTables(su: Setup, e: EngineState, a: Action, q: nat)
    requires EngineOk(su, e) && IsReset(a) && q in e.rules && EngineOk(su, NextState(su, e, a))
    ensures q in NextState(su, e, a).rules && NextState(su, e, a).rules[q].domains == e.rules[q].domains
    ensures TablesFor(su, NextState(su, e, a), q) == Cleared(TablesFor(su, e, q), Dead(su.rules[q], ResetNames(su, a)))
  {
    ResetState(su, e, a, q);
    ClearedView(e.conds, ResetNames(su, a), su.rules[q]);
  }

  /** After a reset a rule is up to date exactly when it holds what its clause
      without the disjuncts over reset conditions compiles to, against the tables
      before the reset. */
  lemma ResetExact(su: Setup, e: EngineState, a: Action, q: nat)
    requires EngineOk(su, e) && ActionOk(a) && IsReset(a) && q in e.rules && su.rules[q].where.Some?
    ensures EngineOk(su, NextState(su, e, a))
    ensures var pruned := Pruned(su.rules[q].where.value, Dead(su.rules[q], ResetNames(su, a)));
            && ExprOk(pruned, |su.rules[q].conds|)
            && (UpToDate(su, NextState(su, e, a), q) <==>
                  e.rules[q].domains == CompileExpr(pruned, TablesFor(su, e, q)))
  {
    NextOk(su, e, a);
    ResetTables(su, e, a, q);
    PrunedCompile(su.rules[q].where.value, TablesFor(su, e, q), Dead(su.rules[q], ResetNames(su, a)));
  }

  /** A disjunct is spared by a reset: it mentions none of the conditions, or it
      had no box. */
  ghost predicate Spared(x: AndExpr, T: seq<Tables>, dead: set<nat>)
    requires |T| > 0 && AndOk(x, |T|)
  {
    !Kills(x.conds, dead) || BoxesOf(x, T) == []
  }

  /** An up-to-date rule stays so exactly when every disjunct keeps its boxes;
      without parentheses, exactly when every disjunct is spared. */
  lemma ResetByDisjunct(su: Setup, e: EngineState, a: Action, q: nat)
    requires EngineOk(su, e) && ActionOk(a) && IsReset(a) && q in e.rules && su.rules[q].where.Some?
    requires UpToDate(su, e, q)
    ensures EngineOk(su, NextState(su, e, a))
    ensures var T, dead := TablesFor(su, e, q), Dead(su.rules[q], ResetNames(su, a));
            var ands := su.rules[q].where.value.ands;
            && (forall i | 0 <= i < |ands| :: AndOk(ands[i], |T|))
            && (UpToDate(su, NextState(su, e, a), q) <==>
                  forall i | 0 <= i < |ands| :: BoxesOf(ands[i], Cleared(T, dead)) == BoxesOf(ands[i], T))
            && (Flat(su.rules[q].where.value) ==>
                  (UpToDate(su, NextState(su, e, a), q) <==> forall i | 0 <= i < |ands| :: Spared(ands[i], T, dead)))
  {
    var T, dead := TablesFor(su, e, q), Dead(su.rules[q], ResetNames(su, a));
    var ands := su.rules[q].where.value.ands;
    assert forall i | 0 <= i < |ands| :: ands[i] in ands && AndOk(ands[i], |T|);
    NextOk(su, e, a);
    ResetTables(su, e, a, q);
    KeptByDisjunct(ands, T, dead);
    if Flat(su.rules[q].where.value) {
      forall i | 0 <= i < |ands|
        ensures BoxesOf(ands[i], Cleared(T, dead)) == BoxesOf(ands[i], T) <==> Spared(ands[i], T, dead)
      {
        assert FlatAnd(ands[i].conds);
        FlatKept(ands[i], T, dead);
      }
    }
  }

  /** An up-to-date rule stays so when it has no clause, no box, or mentions no
      reset condition. */
  lemma ResetSpares(su: Setup, e: EngineState, a: Action, q: nat)
    requires EngineOk(su, e) && ActionOk(a) && IsReset(a) && q in e.rules && UpToDate(su, e, q)
    requires var cfg := su.rules[q];
             || cfg.where.None? || e.rules[q].domains == []
             || forall sl: Slot | sl.idx < |cfg.conds| && Mentions(cfg.where.value, sl) ::
                  cfg.conds[sl.idx] !in ResetNames(su, a)
    ensures EngineOk(su, NextState(su, e, a)) && UpToDate(su, NextState(su, e, a), q)
  {
    var cfg, T, dead := su.rules[q], TablesFor(su, e, q), Dead(su.rules[q], ResetNames(su, a));
    NextOk(su, e, a);
    ResetTables(su, e, a, q);
    if cfg.where.Some? {
      if e.rules[q].domains == [] {
        OnlyLoses(cfg.where.value, T, dead);
      } else {
        CompileFrame(cfg.where.value, Cleared(T, dead), T);
      }
    }
  }

  /** Freshness survives a reset exactly when every rule with a clause holds what
      its pruned clause compiles to. */
  lemma ResetFresh(su: Setup, e: EngineState, a: Action)
    requires EngineOk(su, e) && ActionOk(a) && IsReset(a) && Fresh(su, e)
    ensures EngineOk(su, NextState(su, e, a))
    ensures Fresh(su, NextState(su, e, a)) <==>
            forall q | q in e.rules && su.rules[q].where.Some? ::
              var pruned := Pruned(su.rules[q].where.value, Dead(su.rules[q], ResetNames(su, a)));
              ExprOk(pruned, |su.rules[q].conds|) && e.rules[q].domains == CompileExpr(pruned, TablesFor(su, e, q))
  {
    NextOk(su, e, a);
    FreshRules(su, NextState(su, e, a));
    forall q | q in e.rules
      ensures q in NextState(su, e, a).rules
      ensures su.rules[q].where.None? ==> UpToDate(su, NextState(su, e, a), q)
      ensures su.rules[q].where.Some? ==>
                var pruned := Pruned(su.rules[q].where.value, Dead(su.rules[q], ResetNames(su, a)));
                && ExprOk(pruned, |su.rules[q].conds|)
                && (UpToDate(su, NextState(su, e, a), q) <==>
                      e.rules[q].domains == CompileExpr(pruned, TablesFor(su, e, q)))
    {
      if su.rules[q].where.Some? { ResetExact(su, e, a, q); } else { ResetSpares(su, e, a, q); }
    }
  }

  lemma {:induction false} AllDead(e: Expr, dead: set<nat>, T: seq<Tables>)
    requires ExprOk(e, |T|) && |T| > 0 && forall i: nat | i < |T| :: i in dead
    ensures ExprOk(Pruned(e, dead), |T|) && CompileExpr(Pruned(e, dead), T) == []
  {
    PrunedCompile(e, T, dead);
    CompileEmpty(e, Cleared(T, dead));
  }

  /** Resetting a rule keeps its own boxes up to date exactly when it had none. */
  lemma ResetFreshness(su: Setup, e: EngineState, r: nat)
    requires EngineOk(su, e) && r in e.rules && su.rules[r].where.Some?
    ensures EngineOk(su, NextState(su, e, ResetRuleOf(r)))
    ensures UpToDate(su, NextState(su, e, ResetRuleOf(r)), r) <==> e.rules[r].domains == []
  {
    var cfg := su.rules[r];
    ResetExact(su, e, ResetRuleOf(r), r);
    AllDead(cfg.where.value, Dead(cfg, ResetNames(su, ResetRuleOf(r))), TablesFor(su, e, r));
  }

  // One message to one condition watched by one rule, then a reset of that rule.
  const STALE_WHERE := Or([And([Equal([Slot(0, Source)], "")])])
  const STALE_RULE := RuleConfig(["c"], [true], AnyOf([AllOf([Status(0)])]), Some(STALE_WHERE), false, 0)
  const STALE_SETUP := Setup(map["c" := C.MakeConfig(1, true, 10, true, false, true)], map[0 := STALE_RULE])
  const STALE_FEED := Feed(Message(0, map["c" := ("a", "")]), 0)

  lemma StaleSetupOk()
    ensures SetupOk(STALE_SETUP)
  {
    assert STALE_RULE.Ok();
  }

  lemma StaleTables(e: EngineState)
    requires EngineOk(STALE_SETUP, e) && 0 in e.rules
    requires e.conds["c"].hm.tables.src == map["a" := 0]
    ensures ExpectedBoxes(STALE_RULE, TablesFor(STALE_SETUP, e, 0)) != []
  {
    var T := TablesFor(STALE_SETUP, e, 0);
    var a := [CondDomain(0, 0)];
    assert Names(T, a, Slot(0, Source), "a");
    assert AllName(T, a, [Slot(0, Source)], "a");
    assert CondHolds(STALE_WHERE.ands[0].conds[0], T, a, Overwriting);
    assert AndHolds(STALE_WHERE.ands[0], T, a, Overwriting);
    CompileMeaning(STALE_WHERE, T, a);
  }

  lemma StaleFed(e: EngineState)
    requires e == InitialEngine(STALE_SETUP) && EngineOk(STALE_SETUP, e)
    ensures "c" in NextState(STALE_SETUP, e, STALE_FEED).conds
    ensures NextState(STALE_SETUP, e, STALE_FEED).conds["c"].hm.tables.src == map["a" := 0]
  {
  }

  lemma StaleAfter(e: EngineState)
    requires EngineOk(STALE_SETUP, e) && 0 in e.rules && e.conds["c"].hm.tables.src == map["a" := 0]
    requires e.rules[0].domains == ExpectedBoxes(STALE_RULE, TablesFor(STALE_SETUP, e, 0))
    ensures EngineOk(STALE_SETUP, NextState(STALE_SETUP, e, ResetRuleOf(0)))
    ensures !Fresh(STALE_SETUP, NextState(STALE_SETUP, e, ResetRuleOf(0)))
  {
    StaleTables(e);
    ResetFreshness(STALE_SETUP, e, 0);
  }

  /** The rule keeps a box whose table is gone: freshness is not a property of
      runs with resets. */
  lemma ResetStaleExample()
    ensures SetupOk(STALE_SETUP) && ActionsOk([STALE_FEED, ResetRuleOf(0)])
    ensures !Fresh(STALE_SETUP, Run(STALE_SETUP, [STALE_FEED, ResetRuleOf(0)]))
  {
    StaleSetupOk();
    var su := STALE_SETUP;
    assert [] + [STALE_FEED] == [STALE_FEED] && [STALE_FEED] + [ResetRuleOf(0)] == [STALE_FEED, ResetRuleOf(0)];
    RunSnoc(su, [], STALE_FEED);
    RunSnoc(su, [STALE_FEED], ResetRuleOf(0));
    RunFresh(su, [STALE_FEED]);
    StaleFed(Run(su, []));
    StaleAfter(Run(su, [STALE_FEED]));
  }
}
