/** What the incremental engine leaves unevaluated: candidates that could fire
    but that no step looked at. */
module Leftovers {
  import opened Options
  import opened Domains
  import opened Where
  import opened WhereFacts
  import opened Hitmaps
  import opened Rules
  import opened RuleEval
  import opened RuleFacts
  import opened Engine
  import opened EngineFacts
  import opened EngineFirings
  import C = Cells

  /** The enabled rule has a candidate that would fire, were it evaluated now. */
  ghost predicate Waiting(su: Setup, e: EngineState, r: nat, now: int)
    requires EngineOk(su, e) && r in e.rules
  {
    e.rules[r].enabled && Fireable(su.rules[r], e.rules[r], View(su, e, r), now)
  }

  /** A choice that could fire with a key other than `key`, or with `key` itself
      when recording it does not silence it. */
  ghost predicate Another(cfg: RuleConfig, rs: RuleState, view: seq<Hitmap>, now: int, key: Domain)
    requires cfg.Ok() && |view| == |cfg.conds|
  {
    exists a | InRange(a, TablesOf(view)) ::
      && Selected(cfg, TablesOf(view), a) && CanFire(cfg, rs, Scene(a, a, view), now)
      && (AlarmKey(cfg.expr, Scene(a, a, view)) != key || !Silences(cfg, rs, key))
  }

  /** Recording the key keeps it from firing again at the same moment: its time
      is stored only the first time. */
  predicate Silences(cfg: RuleConfig, rs: RuleState, key: Domain)
  {
    key !in rs.alarms && (cfg.repeat ==> cfg.holdoff >= 0)
  }

  lemma AfterRecord(cfg: RuleConfig, rs: RuleState, view: seq<Hitmap>, now: int, key: Domain)
    requires cfg.Ok() && |view| == |cfg.conds|
    ensures Fireable(cfg, Record(rs, key, now), view, now) <==> Another(cfg, rs, view, now, key)
  {
    var T := TablesOf(view);
    forall a | InRange(a, T)
      ensures CanFire(cfg, Record(rs, key, now), Scene(a, a, view), now) <==>
              && CanFire(cfg, rs, Scene(a, a, view), now)
              && (AlarmKey(cfg.expr, Scene(a, a, view)) != key || !Silences(cfg, rs, key))
    {
      AfterRecordAt(cfg, rs, Scene(a, a, view), now, key);
    }
  }

  lemma AfterRecordAt(cfg: RuleConfig, rs: RuleState, sc: Scene, now: int, key: Domain)
    requires sc.Ok()
    ensures CanFire(cfg, Record(rs, key, now), sc, now) <==>
            CanFire(cfg, rs, sc, now) && (AlarmKey(cfg.expr, sc) != key || !Silences(cfg, rs, key))
  {
  }

  /** A rule that was evaluated and stayed silent has no candidate left. */
  lemma SilentLeft(su: Setup, e: EngineState, a: Action, r: nat)
    requires EngineOk(su, e) && Fresh(su, e) && ActionOk(a) && Evaluates(a) && r in e.rules
    requires EngineOk(su, NextState(su, e, a)) && PlainRule(su.rules[r])
    requires r in Subscribed(su, Flips(su, e, a)) && r !in Fires(su, e, a)
    ensures !Waiting(su, NextState(su, e, a), r, a.now)
  {
    StepRule(su, e, a, r);
    StepFiringPlain(su, e, a, r);
    var view' := View(su, NextState(su, e, a), r);
    EvaluateMeaning(su.rules[r], Seen(su, e, a, r), view', a.now);
    SameAlarms(su.rules[r], e.rules[r], Seen(su, e, a, r), view', a.now);
  }

  /** A rule that fired has a candidate left exactly when there was another one. */
  lemma FiredLeft(su: Setup, e: EngineState, a: Action, r: nat)
    requires EngineOk(su, e) && Fresh(su, e) && ActionOk(a) && Evaluates(a) && r in e.rules
    requires EngineOk(su, NextState(su, e, a)) && r in Fires(su, e, a)
    ensures var e' := NextState(su, e, a);
            e'.rules[r].last.Some? &&
            (Waiting(su, e', r, a.now) <==>
               Another(su.rules[r], e.rules[r], View(su, e', r), a.now, e'.rules[r].last.value))
  {
    StepRule(su, e, a, r);
    var view' := View(su, NextState(su, e, a), r);
    EvaluateMeaning(su.rules[r], Seen(su, e, a, r), view', a.now);
    var key := NextState(su, e, a).rules[r].last.value;
    AfterRecord(su.rules[r], e.rules[r], view', a.now, key);
    SameAlarms(su.rules[r], Record(e.rules[r], key, a.now), NextState(su, e, a).rules[r], view', a.now);
  }

  /** A choice that uses a name new to the tables could fire. */
  ghost predicate NewCandidate(cfg: RuleConfig, rs: RuleState, T: seq<Tables>, view: seq<Hitmap>, now: int)
    requires cfg.Ok() && |view| == |cfg.conds|
  {
    exists a | InRange(a, TablesOf(view)) && !InRange(a, T) ::
      Selected(cfg, TablesOf(view), a) && CanFire(cfg, rs, Scene(a, a, view), now)
  }

  lemma RegisterGrown(m: map<string, nat>, perName: bool, name: string, shared: string)
    requires TableOk(m, perName, shared)
    ensures TableGrown(m, Register(m, perName, name, shared).0)
  {
    AxisFacts(m, perName, name, shared);
  }

  lemma ReactGrown(cfg: C.Config, cs: CondState, c: string, msg: Message)
    requires cfg.Ok() && HitmapOk(cs.hm, cfg)
    ensures var after := React(cfg, cs, c, msg).state.hm.tables;
            TableGrown(cs.hm.tables.src, after.src) && TableGrown(cs.hm.tables.tgt, after.tgt)
  {
    if c in msg.accepts {
      RegisterGrown(cs.hm.tables.src, cfg.perSource, msg.accepts[c].0, GLOBAL_S);
      RegisterGrown(cs.hm.tables.tgt, cfg.perTarget, msg.accepts[c].1, GLOBAL_T);
    }
  }

  /** The tables of a rule's conditions only grow. */
  lemma TablesGrow(su: Setup, e: EngineState, a: Action, r: nat)
    requires EngineOk(su, e) && ActionOk(a) && Evaluates(a) && r in e.rules && EngineOk(su, NextState(su, e, a))
    ensures Grown(TablesFor(su, e, r), TablesFor(su, NextState(su, e, a), r))
  {
    var cfg, e' := su.rules[r], NextState(su, e, a);
    if a.Batch? {
      BatchKeepsTables(su, e, a.now, r);
    } else {
      forall i | 0 <= i < |cfg.conds|
        ensures TableGrown(TablesFor(su, e, r)[i].src, TablesFor(su, e', r)[i].src)
        ensures TableGrown(TablesFor(su, e, r)[i].tgt, TablesFor(su, e', r)[i].tgt)
      {
        ViewOk(su, e, r, i);
        ReactGrown(su.conds[cfg.conds[i]], e.conds[cfg.conds[i]], cfg.conds[i], a.msg);
      }
    }
  }

  ghost predicate SameStatus(view: seq<Hitmap>, view': seq<Hitmap>)
  {
    |view| == |view'|
    && forall i, s: nat, t: nat | 0 <= i < |view| :: CellAt(view[i], s, t).on == CellAt(view'[i], s, t).on
  }

  lemma UnlistedStatus(su: Setup, e: EngineState, a: Action, r: nat)
    requires EngineOk(su, e) && ActionOk(a) && Evaluates(a) && r in e.rules
    requires EngineOk(su, NextState(su, e, a)) && r !in Subscribed(su, Flips(su, e, a))
    ensures SameStatus(View(su, e, r), View(su, NextState(su, e, a), r))
  {
    var cfg, view, view' := su.rules[r], View(su, e, r), View(su, NextState(su, e, a), r);
    forall i, s: nat, t: nat | 0 <= i < |view| ensures CellAt(view[i], s, t).on == CellAt(view'[i], s, t).on {
      assert cfg.conds[i] in cfg.conds;
      assert r in StatusSubscribers(su, cfg.conds[i]);
      FlipsMeaning(su, e, a, cfg.conds[i]);
      assert !CellFlips(view[i], view'[i], s, t);
    }
  }

  /** A choice of old names reads as before. */
  lemma OldCandidate(cfg: RuleConfig, rs: RuleState, view: seq<Hitmap>, view': seq<Hitmap>, now: int, a: Domain)
    requires cfg.Ok() && |view| == |view'| == |cfg.conds| && Plain(cfg.expr)
    requires Grown(TablesOf(view), TablesOf(view')) && SameStatus(view, view') && InRange(a, TablesOf(view))
    ensures InRange(a, TablesOf(view'))
    ensures Selected(cfg, TablesOf(view), a) <==> Selected(cfg, TablesOf(view'), a)
    ensures CanFire(cfg, rs, Scene(a, a, view), now) <==> CanFire(cfg, rs, Scene(a, a, view'), now)
  {
    var T, U := TablesOf(view), TablesOf(view');
    forall i | 0 <= i < |a| ensures a[i].first < |U[i].src| && a[i].second < |U[i].tgt| {
      assert TableGrown(T[i].src, U[i].src) && TableGrown(T[i].tgt, U[i].tgt);
    }
    if cfg.where.Some? { HoldsGrown(cfg.where.value, T, U, a); }
    StatusAlike(Scene(a, a, view), Scene(a, a, view'));
    AlikeFire(cfg, rs, Scene(a, a, view), Scene(a, a, view'), true, now);
  }

  lemma GrownFireable(cfg: RuleConfig, rs: RuleState, view: seq<Hitmap>, view': seq<Hitmap>, now: int)
    requires cfg.Ok() && |view| == |view'| == |cfg.conds| && Plain(cfg.expr)
    requires Grown(TablesOf(view), TablesOf(view')) && SameStatus(view, view')
    ensures Fireable(cfg, rs, view', now) <==>
            Fireable(cfg, rs, view, now) || NewCandidate(cfg, rs, TablesOf(view), view', now)
  {
    forall a | InRange(a, TablesOf(view))
      ensures InRange(a, TablesOf(view'))
      ensures Selected(cfg, TablesOf(view), a) <==> Selected(cfg, TablesOf(view'), a)
      ensures CanFire(cfg, rs, Scene(a, a, view), now) <==> CanFire(cfg, rs, Scene(a, a, view'), now)
    {
      OldCandidate(cfg, rs, view, view', now, a);
    }
  }

  /** A rule that was not evaluated waits exactly when it did before, or a name
      that came in with this step completes a candidate. */
  lemma UnlistedLeft(su: Setup, e: EngineState, a: Action, r: nat)
    requires EngineOk(su, e) && Fresh(su, e) && ActionOk(a) && Evaluates(a) && r in e.rules
    requires EngineOk(su, NextState(su, e, a)) && PlainRule(su.rules[r]) && r !in Subscribed(su, Flips(su, e, a))
    ensures Waiting(su, NextState(su, e, a), r, a.now) <==>
            || Waiting(su, e, r, a.now)
            || (e.rules[r].enabled
                && NewCandidate(su.rules[r], e.rules[r], TablesFor(su, e, r), View(su, NextState(su, e, a), r), a.now))
  {
    StepRule(su, e, a, r);
    var cfg, view, view' := su.rules[r], View(su, e, r), View(su, NextState(su, e, a), r);
    UnlistedStatus(su, e, a, r);
    TablesGrow(su, e, a, r);
    GrownFireable(cfg, e.rules[r], view, view', a.now);
    SameAlarms(cfg, e.rules[r], NextState(su, e, a).rules[r], view', a.now);
  }

  /** What a message or a batch leaves over. */
  lemma RunLeft(su: Setup, acts: seq<Action>, a: Action, r: nat)
    requires SetupOk(su) && ActionsOk(acts) && UpToDateRun(su, acts) && ActionOk(a) && Evaluates(a)
    requires r in su.rules && PlainRule(su.rules[r])
    ensures var e, e' := Run(su, acts), NextState(su, Run(su, acts), a);
            && EngineOk(su, e')
            && (r in Fires(su, e, a) ==> e'.rules[r].last.Some?)
            && (r in Fires(su, e, a) ==>
                  (Waiting(su, e', r, a.now) <==>
                     Another(su.rules[r], e.rules[r], View(su, e', r), a.now, e'.rules[r].last.value)))
            && (r in Subscribed(su, Flips(su, e, a)) && r !in Fires(su, e, a) ==> !Waiting(su, e', r, a.now))
            && (r !in Subscribed(su, Flips(su, e, a)) ==>
                  (Waiting(su, e', r, a.now) <==>
                     || Waiting(su, e, r, a.now)
                     || (e.rules[r].enabled
                         && NewCandidate(su.rules[r], e.rules[r], TablesFor(su, e, r), View(su, e', r), a.now))))
  {
    var e := Run(su, acts);
    if ResetFree(acts) { RunFresh(su, acts); }
    NextOk(su, e, a);
    if r in Fires(su, e, a) {
      FiredLeft(su, e, a, r);
    } else if r in Subscribed(su, Flips(su, e, a)) {
      SilentLeft(su, e, a, r);
    } else {
      UnlistedLeft(su, e, a, r);
    }
  }

  // Rule `c || d WHERE c.$s = d.$s`; c flips on at one message, d needs two. The
  // message to c finds d's table empty. The message to d completes the box, but
  // flips nothing.
  const LATE_WHERE := Or([And([Equal([Slot(0, Source), Slot(1, Source)], "")])])
  const LATE_EXPR := AnyOf([AllOf([Status(0)]), AllOf([Status(1)])])
  const LATE_RULE := RuleConfig(["c", "d"], [true, true], LATE_EXPR, Some(LATE_WHERE), false, 0)
  const LATE_C := C.MakeConfig(1, true, 10, true, false, true)
  const LATE_D := C.MakeConfig(2, true, 10, true, false, true)
  const LATE_SETUP := Setup(map["c" := LATE_C, "d" := LATE_D], map[0 := LATE_RULE])
  const FEED_C := Feed(Message(0, map["c" := ("a", "")]), 0)
  const FEED_D := Feed(Message(0, map["d" := ("a", "")]), 0)
  const ONE_NAME := Tables(map["a" := 0], map[GLOBAL_T := 0])

  lemma LateSetupOk()
    ensures SetupOk(LATE_SETUP) && PlainRule(LATE_RULE)
  {
    assert LATE_RULE.Ok();
  }

  /** After the message to c: c is on at (a, *), d has no table yet. */
  predicate AfterC(e: EngineState)
  {
    && "c" in e.conds && "d" in e.conds && 0 in e.rules
    && e.conds["c"].hm.tables == ONE_NAME && CellAt(e.conds["c"].hm, 0, 0).on && e.conds["d"].hm == EMPTY
  }

  /** After the message to d: d has the name too, and is off. */
  predicate AfterD(e: EngineState)
  {
    && "c" in e.conds && "d" in e.conds && 0 in e.rules
    && e.conds["c"].hm.tables == ONE_NAME && CellAt(e.conds["c"].hm, 0, 0).on && e.conds["d"].hm.tables == ONE_NAME
  }

  lemma HitC(cs: CondState)
    requires cs.hm == EMPTY
    ensures var hm := React(LATE_C, cs, "c", FEED_C.msg).state.hm; hm.tables == ONE_NAME && CellAt(hm, 0, 0).on
  {
  }

  lemma HitD(cs: CondState)
    requires cs.hm == EMPTY
    ensures var r := React(LATE_D, cs, "d", FEED_D.msg); r.state.hm.tables == ONE_NAME && !r.status
  {
  }

  lemma FedC(e: EngineState)
    requires e == InitialEngine(LATE_SETUP) && EngineOk(LATE_SETUP, e)
    ensures AfterC(NextState(LATE_SETUP, e, FEED_C))
  {
    HitC(e.conds["c"]);
    assert React(LATE_D, e.conds["d"], "d", FEED_C.msg).state == e.conds["d"];
  }

  lemma FedD(e: EngineState)
    requires EngineOk(LATE_SETUP, e) && AfterC(e)
    ensures AfterD(NextState(LATE_SETUP, e, FEED_D))
  {
    HitD(e.conds["d"]);
    assert React(LATE_C, e.conds["c"], "c", FEED_D.msg).state == e.conds["c"];
  }

  lemma UnlistedD(e: EngineState)
    requires EngineOk(LATE_SETUP, e) && AfterC(e)
    ensures 0 !in Subscribed(LATE_SETUP, Flips(LATE_SETUP, e, FEED_D))
  {
    HitD(e.conds["d"]);
    assert !React(LATE_C, e.conds["c"], "c", FEED_D.msg).status;
    assert Flips(LATE_SETUP, e, FEED_D) == {};
  }

  /** Nothing to choose for d: no alarm, and the alarm table stays empty. */
  lemma QuietC(e: EngineState)
    requires EngineOk(LATE_SETUP, e) && Fresh(LATE_SETUP, e) && 0 in e.rules && e.rules[0] == InitialRule(LATE_RULE)
    requires EngineOk(LATE_SETUP, NextState(LATE_SETUP, e, FEED_C)) && AfterC(NextState(LATE_SETUP, e, FEED_C))
    ensures NextState(LATE_SETUP, e, FEED_C).rules[0].alarms == map[]
    ensures NextState(LATE_SETUP, e, FEED_C).rules[0].enabled
  {
    LateSetupOk();
    var view' := View(LATE_SETUP, NextState(LATE_SETUP, e, FEED_C), 0);
    assert |TablesOf(view')[1].src| == 0;
    StepRule(LATE_SETUP, e, FEED_C, 0);
    StepFiringPlain(LATE_SETUP, e, FEED_C, 0);
    EvaluateMeaning(LATE_RULE, Seen(LATE_SETUP, e, FEED_C, 0), view', 0);
  }

  lemma LateFireable(rs: RuleState, view: seq<Hitmap>)
    requires |view| == 2 && view[0].tables == view[1].tables == ONE_NAME && CellAt(view[0], 0, 0).on
    requires rs.alarms == map[]
    ensures LATE_RULE.Ok() && Fireable(LATE_RULE, rs, view, 0)
  {
    LateSetupOk();
    var T, a := TablesOf(view), [CondDomain(0, 0), CondDomain(0, 0)];
    assert AllName(T, a, [Slot(0, Source), Slot(1, Source)], "a");
    assert CondHolds(LATE_WHERE.ands[0].conds[0], T, a, Logical);
    assert AndHolds(LATE_WHERE.ands[0], T, a, Logical);
    assert ExprHolds(LATE_WHERE, T, a, Logical);
    assert CondTrue(Status(0), Scene(a, a, view));
    assert AndTrue(LATE_EXPR.ands[0], Scene(a, a, view));
    assert ExprTrue(LATE_EXPR, Scene(a, a, view));
    assert InRange(a, T) && Selected(LATE_RULE, T, a) && CanFire(LATE_RULE, rs, Scene(a, a, view), 0);
  }

  lemma LateWaiting(e: EngineState)
    requires EngineOk(LATE_SETUP, e) && Fresh(LATE_SETUP, e) && AfterC(e)
    requires e.rules[0].alarms == map[] && e.rules[0].enabled
    ensures EngineOk(LATE_SETUP, NextState(LATE_SETUP, e, FEED_D))
    ensures 0 in NextState(LATE_SETUP, e, FEED_D).rules && Waiting(LATE_SETUP, NextState(LATE_SETUP, e, FEED_D), 0, 0)
  {
    FedD(e);
    UnlistedD(e);
    NextOk(LATE_SETUP, e, FEED_D);
    StepRule(LATE_SETUP, e, FEED_D, 0);
    var e' := NextState(LATE_SETUP, e, FEED_D);
    LateFireable(e'.rules[0], View(LATE_SETUP, e', 0));
  }

  lemma LateFirst()
    ensures SetupOk(LATE_SETUP) && ActionsOk([FEED_C])
    ensures var e := Run(LATE_SETUP, [FEED_C]);
            AfterC(e) && Fresh(LATE_SETUP, e) && e.rules[0].alarms == map[] && e.rules[0].enabled
  {
    LateSetupOk();
    var su := LATE_SETUP;
    assert [] + [FEED_C] == [FEED_C];
    RunSnoc(su, [], FEED_C);
    RunFresh(su, []);
    RunFresh(su, [FEED_C]);
    FedC(Run(su, []));
    QuietC(Run(su, []));
  }

  /** A box that is completed without a status change is not looked at: the rule
      has a candidate that could fire, and did not. */
  lemma LeftoverExample()
    ensures SetupOk(LATE_SETUP) && ActionsOk([FEED_C] + [FEED_D])
    ensures 0 in LATE_SETUP.rules && Waiting(LATE_SETUP, Run(LATE_SETUP, [FEED_C] + [FEED_D]), 0, 0)
  {
    LateFirst();
    RunSnoc(LATE_SETUP, [FEED_C], FEED_D);
    LateWaiting(Run(LATE_SETUP, [FEED_C]));
  }
}
