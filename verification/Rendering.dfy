/** Which alarm messages can be rendered: a reference has a value only if the
    evaluation that raised the alarm looked at its condition. */
module Rendering {
  import opened Options
  import opened Domains
  import opened Where
  import opened WhereFacts
  import opened Hitmaps
  import opened Rules
  import opened RuleSearch
  import opened RuleEval
  import opened RuleFacts
  import opened Engine
  import opened EngineFacts
  import opened EngineFirings
  import R = RichMessage

  // -------------------------------------------------------------- references

  /** The cell for a part of an alarm key holds a message; any stands for the first
      index. */
  predicate Holds(hm: Hitmap, d: CondDomain)
  {
    var s, t := FirstFor(d.first), FirstFor(d.second);
    s >= 0 && t >= 0 && CellAt(hm, s, t).msgs != []
  }

  function FirstFor(p: int): int
  {
    if p == ANY then 0 else p
  }

  /** get_arg gives a value for this part of an alarm key: a name needs its own
      index, a group both, a message also a cell that holds one. */
  predicate HasValue(hm: Hitmap, d: CondDomain, what: R.What)
  {
    match what
    case SourceName => Nameable(hm.tables.src, d.first)
    case TargetName => Nameable(hm.tables.tgt, d.second)
    case WholeMessage => Nameable(hm.tables.src, d.first) && Nameable(hm.tables.tgt, d.second) && Holds(hm, d)
    case Group(_) => Nameable(hm.tables.src, d.first) && Nameable(hm.tables.tgt, d.second)
  }

  /** What it looks in is there: the tables are not empty, and the cell of a message
      holds one. */
  predicate Filled(hm: Hitmap, d: CondDomain, what: R.What)
  {
    match what
    case SourceName => hm.tables.src != map[]
    case TargetName => hm.tables.tgt != map[]
    case WholeMessage => hm.tables.src != map[] && hm.tables.tgt != map[] && Holds(hm, d)
    case Group(_) => hm.tables.src != map[] && hm.tables.tgt != map[]
  }

  predicate SymbolsFit(syms: seq<R.Symbol>, n: nat)
  {
    forall j | 0 <= j < |syms| :: syms[j].cond < n
  }

  /** Every reference of the message has a value for this alarm key. */
  predicate Renders(syms: seq<R.Symbol>, key: Domain, view: seq<Hitmap>)
    requires SymbolsFit(syms, |view|) && |key| == |view|
  {
    forall j | 0 <= j < |syms| :: HasValue(view[syms[j].cond], key[syms[j].cond], syms[j].what)
  }

  // --------------------------------------------------------- visited conditions

  /** The short-circuit evaluation of the expression reached the condition. */
  predicate Visited(e: BoolExpr, sc: Scene, i: nat)
  {
    CountSeen(VisitExpr(e.ands, sc), i) || Status(i) in VisitExpr(e.ands, sc)
  }

  /** What the evaluation looked at there: the box if it counted, else the value. */
  function Looked(e: BoolExpr, sc: Scene, i: nat): CondDomain
    requires sc.Ok() && i < |sc.value|
  {
    if CountSeen(VisitExpr(e.ands, sc), i) then sc.box[i] else sc.value[i]
  }

  /** Every leaf reached belongs to the expression, so a status that was reached
      belongs to a primitive condition. */
  lemma {:induction false} VisitOk(ands: seq<BoolAnd>, sc: Scene, prim: seq<bool>)
    requires forall x | x in ands :: BoolAndOk(x, prim)
    ensures forall c | c in VisitExpr(ands, sc) :: BoolCondOk(c, prim)
    decreases ands, 2
  {
    if ands == [] {
    } else {
      assert BoolAndOk(ands[0], prim);
      VisitAndOk(ands[0].conds, sc, prim);
      VisitOk(ands[1..], sc, prim);
    }
  }

  lemma {:induction false} VisitAndOk(conds: seq<BoolCond>, sc: Scene, prim: seq<bool>)
    requires forall c | c in conds :: BoolCondOk(c, prim)
    ensures forall c | c in VisitAnd(conds, sc) :: BoolCondOk(c, prim)
    decreases conds, 1
  {
    if conds == [] {
    } else {
      VisitCondOk(conds[0], sc, prim);
      VisitAndOk(conds[1..], sc, prim);
    }
  }

  lemma {:induction false} VisitCondOk(c: BoolCond, sc: Scene, prim: seq<bool>)
    requires BoolCondOk(c, prim)
    ensures forall x | x in VisitCond(c, sc) :: BoolCondOk(x, prim)
    decreases c, 0
  {
    if c.Group? { VisitOk(c.expr.ands, sc, prim); }
  }

  /** A value or a pattern that an evaluation may leave in the key. */
  predicate Usable(d: CondDomain, hm: Hitmap)
  {
    && (d.first == ANY || 0 <= d.first < |hm.tables.src|)
    && (d.second == ANY || 0 <= d.second < |hm.tables.tgt|)
  }

  lemma BoxUsable(box: Domain, view: seq<Hitmap>, i: nat)
    requires TablesOk(TablesOf(view)) && Sound(box, TablesOf(view)) && i < |box|
    ensures Usable(box[i], view[i])
  {
    var T := TablesOf(view);
    assert Known(box[i].first, T[i].src) && Known(box[i].second, T[i].tgt);
    assert Bijective(T[i].src) && Bijective(T[i].tgt);
  }

  lemma ValueUsable(v: Domain, box: Domain, view: seq<Hitmap>, prim: seq<bool>, i: nat)
    requires TablesOk(TablesOf(view)) && Sound(box, TablesOf(view)) && Candidate(v, box, view, prim)
    requires i < |box| && prim[i]
    ensures Usable(v[i], view[i])
  {
    BoxUsable(box, view, i);
    assert Allowed(v[i], box[i], view[i], prim[i]);
  }

  /** A condition that was reached leaves a usable part in the key, any other nil. */
  lemma KeyPart(cfg: RuleConfig, v: Domain, box: Domain, view: seq<Hitmap>, i: nat)
    requires cfg.Ok() && |view| == |cfg.conds| && TablesOk(TablesOf(view)) && Sound(box, TablesOf(view))
    requires Candidate(v, box, view, cfg.prim) && i < |view|
    ensures var sc := Scene(v, box, view);
            if Visited(cfg.expr, sc, i)
            then Usable(AlarmKey(cfg.expr, sc)[i], view[i]) && AlarmKey(cfg.expr, sc)[i] == Looked(cfg.expr, sc, i)
            else AlarmKey(cfg.expr, sc)[i] == NULL_COND
  {
    var sc := Scene(v, box, view);
    BoxUsable(box, view, i);
    if Status(i) in VisitExpr(cfg.expr.ands, sc) {
      VisitOk(cfg.expr.ands, sc, cfg.prim);
      assert BoolCondOk(Status(i), cfg.prim);
      ValueUsable(v, box, view, cfg.prim, i);
    }
  }

  // ----------------------------------------------------------------- rendering

  /** What a message needs: every condition it refers to was reached, and there is
      something to show for it. */
  predicate AllReached(e: BoolExpr, sc: Scene, syms: seq<R.Symbol>)
    requires sc.Ok() && SymbolsFit(syms, |sc.view|)
  {
    forall j | 0 <= j < |syms| ::
      var i := syms[j].cond;
      Visited(e, sc, i) && Filled(sc.view[i], Looked(e, sc, i), syms[j].what)
  }

  /** An alarm's message renders exactly when the evaluation that raised it reached
      every condition the message refers to, their tables are not empty, and where a
      message is referred to, the cell that the evaluation looked at holds one. */
  lemma RendersMeaning(cfg: RuleConfig, v: Domain, box: Domain, view: seq<Hitmap>, syms: seq<R.Symbol>)
    requires cfg.Ok() && |view| == |cfg.conds| && TablesOk(TablesOf(view)) && Sound(box, TablesOf(view))
    requires Candidate(v, box, view, cfg.prim) && SymbolsFit(syms, |view|)
    ensures var sc := Scene(v, box, view);
            Renders(syms, AlarmKey(cfg.expr, sc), view) <==> AllReached(cfg.expr, sc, syms)
  {
    var sc := Scene(v, box, view);
    forall j | 0 <= j < |syms|
      ensures HasValue(view[syms[j].cond], AlarmKey(cfg.expr, sc)[syms[j].cond], syms[j].what)
              <==> var i := syms[j].cond;
                   Visited(cfg.expr, sc, i) && Filled(view[i], Looked(cfg.expr, sc, i), syms[j].what)
    {
      KeyPart(cfg, v, box, view, syms[j].cond);
    }
  }

  lemma FirstFires(cfg: RuleConfig, rs: RuleState, sc: Scene, view: seq<Hitmap>, now: int)
    requires |cfg.prim| == |view| && sc == Scene(sc.value, sc.box, view)
    requires FirstIn(cfg, rs, sc.value, sc.box, view, now)
    ensures Candidate(sc.value, sc.box, view, cfg.prim) && CanFire(cfg, rs, sc, now)
  {
    assert Tester(cfg, rs, sc.box, view, now)(sc.value);
  }

  /** One evaluation of a rule whose boxes are up to date. */
  lemma EvaluatedRenders(cfg: RuleConfig, rs: RuleState, view: seq<Hitmap>, now: int, syms: seq<R.Symbol>)
    returns (sc: Scene)
    requires cfg.Ok() && |view| == |cfg.conds| && TablesOk(TablesOf(view)) && SymbolsFit(syms, |view|)
    requires rs.domains == ExpectedBoxes(cfg, TablesOf(view)) && BoxesOk(rs.domains, |view|)
    requires EvalStep(cfg, rs, view, now).1
    ensures sc.Ok() && sc.view == view && ExprTrue(cfg.expr, sc)
    ensures EvalStep(cfg, rs, view, now).0.last == Some(AlarmKey(cfg.expr, sc))
    ensures Renders(syms, AlarmKey(cfg.expr, sc), view) <==> AllReached(cfg.expr, sc, syms)
  {
    var k := FirstAlarmMeaning(cfg, rs, rs.domains, view, now);
    sc := FirstAlarm(cfg, rs, rs.domains, view, now).value;
    FirstFires(cfg, rs, sc, view, now);
    ExpectedSound(cfg, TablesOf(view));
    assert Sound(sc.box, TablesOf(view));
    RendersMeaning(cfg, sc.value, sc.box, view, syms);
  }

  /** For an alarm raised at a step of an up-to-date engine: the message is rendered
      from the recorded key right after the evaluation. */
  lemma FiredRenders(su: Setup, e: EngineState, a: Action, r: nat, syms: seq<R.Symbol>) returns (sc: Scene)
    requires EngineOk(su, e) && Fresh(su, e) && ActionOk(a) && Evaluates(a) && r in e.rules
    requires EngineOk(su, NextState(su, e, a)) && r in Fires(su, e, a) && SymbolsFit(syms, |su.rules[r].conds|)
    ensures sc.Ok() && sc.view == View(su, NextState(su, e, a), r) && ExprTrue(su.rules[r].expr, sc)
    ensures NextState(su, e, a).rules[r].last == Some(AlarmKey(su.rules[r].expr, sc))
    ensures Renders(syms, AlarmKey(su.rules[r].expr, sc), sc.view) <==> AllReached(su.rules[r].expr, sc, syms)
  {
    StepRule(su, e, a, r);
    ViewTablesOk(su, NextState(su, e, a), r);
    sc := EvaluatedRenders(su.rules[r], Seen(su, e, a, r), View(su, NextState(su, e, a), r), a.now, syms);
  }

  /** In every run whose boxes are up to date. */
  lemma RunRenders(su: Setup, acts: seq<Action>, a: Action, r: nat, syms: seq<R.Symbol>) returns (sc: Scene)
    requires SetupOk(su) && ActionsOk(acts) && UpToDateRun(su, acts) && ActionOk(a) && Evaluates(a) && r in su.rules
    requires r in Fires(su, Run(su, acts), a) && SymbolsFit(syms, |su.rules[r].conds|)
    ensures var e' := NextState(su, Run(su, acts), a);
            && EngineOk(su, e') && sc.Ok() && sc.view == View(su, e', r) && ExprTrue(su.rules[r].expr, sc)
            && e'.rules[r].last == Some(AlarmKey(su.rules[r].expr, sc))
            && (Renders(syms, AlarmKey(su.rules[r].expr, sc), sc.view) <==> AllReached(su.rules[r].expr, sc, syms))
  {
    if ResetFree(acts) { RunFresh(su, acts); }
    NextOk(su, Run(su, acts), a);
    sc := FiredRenders(su, Run(su, acts), a, r, syms);
  }

  /** The values a message is given for an alarm key; `text` stands for the names and
      texts themselves. */
  function ValueFor(key: Domain, view: seq<Hitmap>, text: R.Symbol -> string): R.Symbol -> Option<string>
  {
    (sym: R.Symbol) =>
      if sym.cond < |key| && sym.cond < |view| && HasValue(view[sym.cond], key[sym.cond], sym.what)
      then Some(text(sym)) else None
  }

  /** The message comes out exactly when it renders. */
  lemma MessageGiven(syms: seq<R.Symbol>, key: Domain, view: seq<Hitmap>, text: R.Symbol -> string)
    requires SymbolsFit(syms, |view|) && |key| == |view|
    ensures R.AllGiven(syms, ValueFor(key, view, text)) <==> Renders(syms, key, view)
  {
    forall j | 0 <= j < |syms|
      ensures ValueFor(key, view, text)(syms[j]).Some? <==>
              HasValue(view[syms[j].cond], key[syms[j].cond], syms[j].what)
    {
    }
  }

  /** For the rule `c1 || c2`, an alarm of c1 leaves nothing of c2 in the key: a
      message that refers to c2 cannot be rendered. */
  lemma SecondUnreachedExample(v: Domain, box: Domain, view: seq<Hitmap>)
    requires |v| == |box| == |view| == 2 && On(view[0], v[0].first, v[0].second)
    ensures var e := AnyOf([AllOf([Status(0)]), AllOf([Status(1)])]);
            var key := AlarmKey(e, Scene(v, box, view));
            && ExprTrue(e, Scene(v, box, view)) && key == [v[0], NULL_COND]
            && !Renders([R.Symbol(1, R.SourceName)], key, view)
  {
    var e, sc := AnyOf([AllOf([Status(0)]), AllOf([Status(1)])]), Scene(v, box, view);
    assert CondTrue(Status(0), sc);
    assert AndTrue(e.ands[0], sc);
    assert [Status(0)][1..] == [];
    assert VisitAnd([Status(0)], sc) == [Status(0)];
    assert VisitExpr(e.ands, sc) == [Status(0)];
    assert !CountSeen([Status(0)], 0) && !CountSeen([Status(0)], 1);
    var key := AlarmKey(e, sc);
    assert |key| == 2 && key[0] == v[0] && key[1] == NULL_COND;
    assert !HasValue(view[1], key[1], R.SourceName);
    var syms := [R.Symbol(1, R.SourceName)];
    assert !HasValue(view[syms[0].cond], key[syms[0].cond], syms[0].what);
    assert key == [v[0], NULL_COND];
    assert e.ands[0] in e.ands;
  }
}
