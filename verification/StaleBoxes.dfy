/** What stale boxes can do: they stay inside the grids, but a rule may fire on one
    whose names are gone. */
module StaleBoxes {
  import opened Options
  import opened Domains
  import opened Where
  import opened WhereFacts
  import opened Hitmaps
  import opened Rules
  import opened RuleSearch
  import opened RuleEval
  import opened RuleFacts
  import opened Engine
  import opened EngineFacts
  import opened EngineFirings
  import opened EngineMessages
  import C = Cells

  // --------------------------------------------------------------- capacities

  /** The extents of a condition's grid. */
  datatype Caps = Caps(src: nat, tgt: nat)

  function CapsStep(su: Setup, T: Tables, caps: Caps, a: Action, c: string): Caps
    requires c in su.conds
  {
    if a.Feed? && c in a.msg.accepts then
      var cfg, filed := su.conds[c], a.msg.accepts[c];
      Caps(Widened(caps.src, Register(T.src, cfg.perSource, filed.0, GLOBAL_S).1),
           Widened(caps.tgt, Register(T.tgt, cfg.perTarget, filed.1, GLOBAL_T).1))
    else caps
  }

  /** The extents of condition c's grid after the run. */
  ghost function RunCaps(su: Setup, acts: seq<Action>, c: string): Caps
    requires SetupOk(su) && ActionsOk(acts) && c in su.conds
  {
    if acts == [] then Caps(CAP_INCREMENT, CAP_INCREMENT)
    else
      var front := acts[..|acts| - 1];
      CapsStep(su, Run(su, front).conds[c].hm.tables, RunCaps(su, front, c), acts[|acts| - 1], c)
  }

  predicate Roomy(T: Tables, caps: Caps)
  {
    |T.src| <= caps.src && |T.tgt| <= caps.tgt
  }

  lemma RegisterRoom(m: map<string, nat>, perName: bool, name: string, shared: string, cap: nat)
    requires TableOk(m, perName, shared) && |m| <= cap
    ensures var (r, i) := Register(m, perName, name, shared);
            i < Widened(cap, i) && |r| <= Widened(cap, i)
  {
    AxisFacts(m, perName, name, shared);
    RegisterAppends(m, perName, name, shared);
  }

  lemma StepRoom(su: Setup, T: Tables, caps: Caps, a: Action, c: string)
    requires c in su.conds && TablesFit(su.conds[c], T) && Roomy(T, caps)
    ensures Roomy(TablesStep(su, T, a, c), CapsStep(su, T, caps, a, c))
  {
    if a.Feed? && c in a.msg.accepts {
      var cfg, filed := su.conds[c], a.msg.accepts[c];
      RegisterRoom(T.src, cfg.perSource, filed.0, GLOBAL_S, caps.src);
      RegisterRoom(T.tgt, cfg.perTarget, filed.1, GLOBAL_T, caps.tgt);
    }
  }

  /** In every run the tables fit the grids. */
  lemma {:induction false} RunRoom(su: Setup, acts: seq<Action>, c: string)
    requires SetupOk(su) && ActionsOk(acts) && c in su.conds
    ensures c in Run(su, acts).conds && Roomy(Run(su, acts).conds[c].hm.tables, RunCaps(su, acts, c))
    decreases |acts|
  {
    if acts == [] {
    } else {
      var front, a := acts[..|acts| - 1], acts[|acts| - 1];
      RunRoom(su, front, c);
      var e := Run(su, front);
      assert CondStateOk(su.conds[c], e.conds[c]);
      NextTables(su, e, a, c);
      StepRoom(su, e.conds[c].hm.tables, RunCaps(su, front, c), a, c);
    }
  }

  // ------------------------------------------------------------------- boxes

  /** The box is not null and its concrete indices lie inside the grids. */
  ghost predicate InGrid(box: Domain, caps: seq<Caps>)
  {
    && |box| == |caps| && !IsNull(box)
    && forall i | 0 <= i < |box| :: ANY <= box[i].first < caps[i].src && ANY <= box[i].second < caps[i].tgt
  }

  ghost predicate AllInGrid(boxes: seq<Domain>, caps: seq<Caps>)
  {
    forall k | 0 <= k < |boxes| :: InGrid(boxes[k], caps)
  }

  /** The extents of the grids of a rule's conditions. */
  ghost function CapsOf(su: Setup, acts: seq<Action>, cfg: RuleConfig): (caps: seq<Caps>)
    requires SetupOk(su) && ActionsOk(acts) && forall c | c in cfg.conds :: c in su.conds
    ensures |caps| == |cfg.conds|
  {
    seq(|cfg.conds|,
        i requires 0 <= i < |cfg.conds| => assert cfg.conds[i] in cfg.conds; RunCaps(su, acts, cfg.conds[i]))
  }

  lemma SoundInGrid(boxes: seq<Domain>, T: seq<Tables>, caps: seq<Caps>)
    requires AllSound(boxes, T) && TablesOk(T) && |T| == |caps| && forall i | 0 <= i < |T| :: Roomy(T[i], caps[i])
    ensures AllInGrid(boxes, caps)
  {
    forall k | 0 <= k < |boxes| ensures InGrid(boxes[k], caps) {
      assert Sound(boxes[k], T);
      forall i | 0 <= i < |T| ensures boxes[k][i].first < |T[i].src| && boxes[k][i].second < |T[i].tgt| {
        assert Known(boxes[k][i].first, T[i].src) && Known(boxes[k][i].second, T[i].tgt);
        assert Bijective(T[i].src) && Bijective(T[i].tgt) && Roomy(T[i], caps[i]);
      }
    }
  }

  lemma WiderGrid(boxes: seq<Domain>, caps: seq<Caps>, caps': seq<Caps>)
    requires AllInGrid(boxes, caps) && |caps| == |caps'|
    requires forall i | 0 <= i < |caps| :: caps[i].src <= caps'[i].src && caps[i].tgt <= caps'[i].tgt
    ensures AllInGrid(boxes, caps')
  {
    forall k | 0 <= k < |boxes| ensures InGrid(boxes[k], caps') {
      assert InGrid(boxes[k], caps);
    }
  }

  lemma FedDomains(su: Setup, e: EngineState, msg: Message, now: int, r: nat)
    requires EngineOk(su, e) && r in e.rules && EngineOk(su, FeedStep(su, e, msg, now))
    ensures FeedStep(su, e, msg, now).rules[r].domains == e.rules[r].domains
            || FeedStep(su, e, msg, now).rules[r].domains
               == ExpectedBoxes(su.rules[r], TablesFor(su, FeedStep(su, e, msg, now), r))
  {
    EvalKeepsDomains(su.rules[r], Refreshed(su, e, msg)[r], ViewOf(FeedConds(su, e.conds, msg), su.rules[r]), now);
  }

  lemma BatchedDomains(su: Setup, e: EngineState, now: int, r: nat)
    requires EngineOk(su, e) && r in e.rules
    ensures r in BatchStep(su, e, now).rules && BatchStep(su, e, now).rules[r].domains == e.rules[r].domains
  {
    EvalKeepsDomains(su.rules[r], e.rules[r], ViewOf(BatchConds(su, e.conds, e.queue, now), su.rules[r]), now);
  }

  lemma CommandDomains(su: Setup, e: EngineState, a: Action, r: nat)
    requires EngineOk(su, e) && r in e.rules && !a.Feed? && !a.Batch?
    ensures r in NextState(su, e, a).rules && NextState(su, e, a).rules[r].domains == e.rules[r].domains
  {
  }

  /** The rule has the boxes it had, or those its clause now compiles to. */
  ghost predicate KeptOrCompiled(su: Setup, e: EngineState, e': EngineState, r: nat)
    requires EngineOk(su, e) && EngineOk(su, e') && r in su.rules
  {
    e'.rules[r].domains == e.rules[r].domains || e'.rules[r].domains == ExpectedBoxes(su.rules[r], TablesFor(su, e', r))
  }

  lemma NextDomains(su: Setup, e: EngineState, a: Action, e': EngineState, r: nat)
    requires EngineOk(su, e) && r in su.rules && e' == NextState(su, e, a) && EngineOk(su, e')
    ensures KeptOrCompiled(su, e, e', r)
  {
    match a
    case Feed(msg, now) => FedDomains(su, e, msg, now, r);
    case Batch(now) => BatchedDomains(su, e, now, r);
    case _ => CommandDomains(su, e, a, r);
  }

  lemma ExpectedInGrid(su: Setup, acts: seq<Action>, r: nat)
    requires SetupOk(su) && ActionsOk(acts) && r in su.rules
    ensures AllInGrid(ExpectedBoxes(su.rules[r], TablesFor(su, Run(su, acts), r)), CapsOf(su, acts, su.rules[r]))
  {
    var cfg, T, caps := su.rules[r], TablesFor(su, Run(su, acts), r), CapsOf(su, acts, su.rules[r]);
    forall i | 0 <= i < |T| ensures Roomy(T[i], caps[i]) {
      assert cfg.conds[i] in cfg.conds;
      RunRoom(su, acts, cfg.conds[i]);
    }
    ExpectedSound(cfg, T);
    ViewTablesOk(su, Run(su, acts), r);
    SoundInGrid(ExpectedBoxes(cfg, T), T, caps);
  }

  lemma CapsSnoc(su: Setup, front: seq<Action>, a: Action, c: string)
    requires SetupOk(su) && ActionsOk(front) && ActionsOk(front + [a]) && c in su.conds
    ensures c in Run(su, front).conds
    ensures RunCaps(su, front + [a], c) == CapsStep(su, Run(su, front).conds[c].hm.tables, RunCaps(su, front, c), a, c)
  {
    var acts := front + [a];
    assert acts[..|acts| - 1] == front && acts[|acts| - 1] == a;
  }

  lemma StepWider(su: Setup, T: Tables, caps: Caps, a: Action, c: string)
    requires c in su.conds
    ensures caps.src <= CapsStep(su, T, caps, a, c).src && caps.tgt <= CapsStep(su, T, caps, a, c).tgt
  {
  }

  lemma GridGrows(su: Setup, front: seq<Action>, a: Action, c: string)
    requires SetupOk(su) && ActionsOk(front) && ActionsOk(front + [a]) && c in su.conds
    ensures RunCaps(su, front, c).src <= RunCaps(su, front + [a], c).src
    ensures RunCaps(su, front, c).tgt <= RunCaps(su, front + [a], c).tgt
  {
    CapsSnoc(su, front, a, c);
    StepWider(su, Run(su, front).conds[c].hm.tables, RunCaps(su, front, c), a, c);
  }

  lemma CapsGrow(su: Setup, front: seq<Action>, a: Action, r: nat)
    requires SetupOk(su) && ActionsOk(front) && ActionsOk(front + [a]) && r in su.rules
    ensures var before, after := CapsOf(su, front, su.rules[r]), CapsOf(su, front + [a], su.rules[r]);
            forall i | 0 <= i < |after| :: before[i].src <= after[i].src && before[i].tgt <= after[i].tgt
  {
    var before, after := CapsOf(su, front, su.rules[r]), CapsOf(su, front + [a], su.rules[r]);
    forall i | 0 <= i < |after| ensures before[i].src <= after[i].src && before[i].tgt <= after[i].tgt {
      assert su.rules[r].conds[i] in su.rules[r].conds;
      GridGrows(su, front, a, su.rules[r].conds[i]);
    }
  }

  /** One more action keeps a rule's boxes or compiles them anew. */
  lemma RunDomains(su: Setup, front: seq<Action>, a: Action, r: nat)
    requires SetupOk(su) && ActionsOk(front) && ActionOk(a) && ActionsOk(front + [a]) && r in su.rules
    ensures KeptOrCompiled(su, Run(su, front), Run(su, front + [a]), r)
  {
    RunSnoc(su, front, a);
    NextDomains(su, Run(su, front), a, Run(su, front + [a]), r);
  }

  ghost predicate BoxesInGrid(su: Setup, acts: seq<Action>, r: nat)
    requires SetupOk(su) && ActionsOk(acts) && r in su.rules
  {
    r in Run(su, acts).rules && AllInGrid(Run(su, acts).rules[r].domains, CapsOf(su, acts, su.rules[r]))
  }

  lemma KeptInGrid(su: Setup, front: seq<Action>, a: Action, r: nat)
    requires SetupOk(su) && ActionsOk(front) && ActionOk(a) && ActionsOk(front + [a]) && r in su.rules
    requires BoxesInGrid(su, front, r)
    ensures BoxesInGrid(su, front + [a], r)
  {
    RunDomains(su, front, a, r);
    ExpectedInGrid(su, front + [a], r);
    CapsGrow(su, front, a, r);
    WiderGrid(Run(su, front).rules[r].domains, CapsOf(su, front, su.rules[r]), CapsOf(su, front + [a], su.rules[r]));
  }

  /** In every run, resets included, every box of every rule is safe to index the
      grids with. */
  lemma {:induction false} RunBoxesInGrid(su: Setup, acts: seq<Action>, r: nat)
    requires SetupOk(su) && ActionsOk(acts) && r in su.rules
    ensures BoxesInGrid(su, acts, r)
    decreases |acts|
  {
    if acts == [] {
      InitialInGrid(su, r);
    } else {
      var front, a := acts[..|acts| - 1], acts[|acts| - 1];
      assert front + [a] == acts;
      RunBoxesInGrid(su, front, r);
      KeptInGrid(su, front, a, r);
    }
  }

  lemma InitialInGrid(su: Setup, r: nat)
    requires SetupOk(su) && r in su.rules && ActionsOk([])
    ensures BoxesInGrid(su, [], r)
  {
  }

  /** Every cell that an evaluation asks for its status lies in the grid. */
  lemma AccessInGrid(su: Setup, acts: seq<Action>, r: nat, k: nat, v: Domain, i: nat)
    requires SetupOk(su) && ActionsOk(acts) && r in su.rules && r in Run(su, acts).rules
    requires k < |Run(su, acts).rules[r].domains| && i < |su.rules[r].conds| && su.rules[r].prim[i]
    requires Candidate(v, Run(su, acts).rules[r].domains[k], View(su, Run(su, acts), r), su.rules[r].prim)
    ensures var caps := CapsOf(su, acts, su.rules[r])[i];
            0 <= v[i].first < caps.src && 0 <= v[i].second < caps.tgt
  {
    var cfg := su.rules[r];
    RunBoxesInGrid(su, acts, r);
    assert InGrid(Run(su, acts).rules[r].domains[k], CapsOf(su, acts, cfg));
    assert cfg.conds[i] in cfg.conds;
    RunRoom(su, acts, cfg.conds[i]);
  }

  // ------------------------------------------------------- a stale box that fires

  // Rule `c || d WHERE c.$s = d.$s = 'a' AND c.$t = d.$t = 'b'`. Both conditions need
  // two messages. After one each, d is reset; the second message to c turns it on.
  const GONE_SOURCES := Equal([Slot(0, Source), Slot(1, Source)], "a")
  const GONE_TARGETS := Equal([Slot(0, Target), Slot(1, Target)], "b")
  const GONE_WHERE := Or([And([GONE_SOURCES, GONE_TARGETS])])
  const GONE_EXPR := AnyOf([AllOf([Status(0)]), AllOf([Status(1)])])
  const GONE_RULE := RuleConfig(["c", "d"], [true, true], GONE_EXPR, Some(GONE_WHERE), false, 0)
  const GONE_COND := C.MakeConfig(2, true, 10, true, true, true)
  const GONE_SETUP := Setup(map["c" := GONE_COND, "d" := GONE_COND], map[0 := GONE_RULE])
  const HIT_C := Feed(Message(0, map["c" := ("a", "b")]), 0)
  const HIT_D := Feed(Message(0, map["d" := ("a", "b")]), 0)
  const ONE_PAIR := Tables(map["a" := 0], map["b" := 0])
  const ONE_HIT := C.CellState([0], false, 0)
  const GONE_BOX: Domain := [CondDomain(0, 0), CondDomain(0, 0)]

  lemma GoneOk(one: seq<Action>)
    requires one == [HIT_D]
    ensures SetupOk(GONE_SETUP) && PlainRule(GONE_RULE) && ActionsOk(one)
    ensures ActionsOk(one + [HIT_C]) && ResetFree(one + [HIT_C]) && ActionsOk(one + [HIT_C] + [ResetCond("d")])
  {
    GoneRuleOk();
    assert CondUnclashing(GONE_SOURCES) && CondUnclashing(GONE_TARGETS);
    assert AndUnclashing(GONE_WHERE.ands[0]);
  }

  lemma GoneRuleOk()
    ensures GONE_RULE.Ok()
  {
    assert CondOk(GONE_SOURCES, 2) && CondOk(GONE_TARGETS, 2);
    assert AndOk(GONE_WHERE.ands[0], 2);
    assert ExprOk(GONE_WHERE, 2);
    assert BoolAndOk(GONE_EXPR.ands[0], [true, true]) && BoolAndOk(GONE_EXPR.ands[1], [true, true]);
  }

  /** The clause compiles to one box when both conditions know the pair. */
  lemma GoneBoxes(T: seq<Tables>)
    requires T == [ONE_PAIR, ONE_PAIR]
    ensures GONE_RULE.Ok() && ExpectedBoxes(GONE_RULE, T) == [GONE_BOX]
  {
    GoneRuleOk();
    var s, t := [CondDomain(0, ANY), CondDomain(0, ANY)], [CondDomain(ANY, 0), CondDomain(ANY, 0)];
    GoneLiteral(T, Source, "a");
    GoneLiteral(T, Target, "b");
    assert CompileCond(GONE_SOURCES, T) == [s] && CompileCond(GONE_TARGETS, T) == [t];
    assert Intersect(s, t) == GONE_BOX;
    GoneMeet(s, t);
    assert FoldAnd([GONE_SOURCES, GONE_TARGETS][1..], [s], T) == [GONE_BOX];
    assert FoldAnd([GONE_SOURCES, GONE_TARGETS], [], T) == [GONE_BOX];
    assert GONE_WHERE.ands[1..] == [] && CompileOr(GONE_WHERE.ands, T) == [GONE_BOX] + CompileOr([], T);
  }

  lemma GoneLiteral(T: seq<Tables>, arg: Arg, name: string)
    requires T == [ONE_PAIR, ONE_PAIR] && name == if arg == Source then "a" else "b"
    ensures LiteralBox([Slot(0, arg), Slot(1, arg)], name, T, AnyDomain(2)) == Some([CondOf(0, arg), CondOf(0, arg)])
  {
    var d := AnyDomain(2)[0 := CondOf(0, arg)];
    assert [Slot(0, arg), Slot(1, arg)][1..] == [Slot(1, arg)];
    assert [Slot(1, arg)][1..] == [];
    assert LiteralBox([Slot(1, arg)], name, T, d) == Some(d[1 := CondOf(0, arg)]);
    assert d[1 := CondOf(0, arg)] == [CondOf(0, arg), CondOf(0, arg)];
  }

  lemma GoneMeet(s: Domain, t: Domain)
    requires |s| == |t| == 2 && Intersect(s, t) == GONE_BOX
    ensures Meet([s], [t], 2) == [GONE_BOX]
  {
    assert Row(s, [t]) == [GONE_BOX];
    assert [s][1..] == [] && Products([s][1..], [t], 2) == [];
    assert Products([s], [t], 2) == [GONE_BOX];
    assert [GONE_BOX][1..] == [] && |GONE_BOX| != |NULL_DOMAIN|;
    assert DropNulls([GONE_BOX]) == [GONE_BOX] + DropNulls([]);
  }

  /** A first message to a condition. */
  lemma FirstHit(cs: CondState, c: string, msg: Message)
    requires cs.hm == EMPTY && c in msg.accepts && msg.accepts[c] == ("a", "b") && msg.time == 0
    ensures var r := React(GONE_COND, cs, c, msg);
            r.state.hm.tables == ONE_PAIR && CellAt(r.state.hm, 0, 0) == ONE_HIT && !r.status
  {
    assert Register(map[], true, "a", GLOBAL_S) == (map["a" := 0], 0);
    assert Register(map[], true, "b", GLOBAL_T) == (map["b" := 0], 0);
    assert [] + [0] == [0] && C.Kept([], 0, GONE_COND) == [0];
    assert C.HitStep(C.FRESH, GONE_COND, 0) == C.HitResult(ONE_HIT, false, None);
  }

  /** A second one. */
  lemma SecondHit(cs: CondState, c: string, msg: Message)
    requires cs.hm.tables == ONE_PAIR && CellAt(cs.hm, 0, 0) == ONE_HIT
    requires c in msg.accepts && msg.accepts[c] == ("a", "b") && msg.time == 0
    ensures var r := React(GONE_COND, cs, c, msg);
            r.state.hm.tables == ONE_PAIR && CellAt(r.state.hm, 0, 0).on && r.status && !r.source && !r.target
  {
    assert Register(ONE_PAIR.src, true, "a", GLOBAL_S) == (ONE_PAIR.src, 0);
    assert Register(ONE_PAIR.tgt, true, "b", GLOBAL_T) == (ONE_PAIR.tgt, 0);
    assert [0] + [0] == [0, 0] && C.Kept([0], 0, GONE_COND) == [0, 0];
    assert C.HitStep(ONE_HIT, GONE_COND, 0).state.on;
  }

  predicate Quiet(e: EngineState)
  {
    "c" in e.conds && "d" in e.conds && 0 in e.rules && e.rules[0].enabled && e.rules[0].alarms == map[]
  }

  /** Nothing was hit. */
  predicate AfterNone(e: EngineState)
  {
    Quiet(e) && e.conds["c"].hm == e.conds["d"].hm == EMPTY
  }

  /** Only d was hit, once. */
  predicate AfterOne(e: EngineState)
  {
    Quiet(e) && e.conds["c"].hm == EMPTY && e.conds["d"].hm.tables == ONE_PAIR
  }

  /** Both were hit once. */
  predicate AfterTwo(e: EngineState)
  {
    Quiet(e) && e.conds["c"].hm.tables == e.conds["d"].hm.tables == ONE_PAIR && CellAt(e.conds["c"].hm, 0, 0) == ONE_HIT
  }

  /** d was reset; the rule keeps its box. */
  predicate AfterReset(e: EngineState)
  {
    && Quiet(e) && e.conds["c"].hm.tables == ONE_PAIR && CellAt(e.conds["c"].hm, 0, 0) == ONE_HIT
    && e.conds["d"].hm == EMPTY && e.rules[0].domains == [GONE_BOX]
  }

  lemma Unflipped(e: EngineState, a: Action)
    requires EngineOk(GONE_SETUP, e) && Fresh(GONE_SETUP, e) && ActionOk(a) && Evaluates(a) && Quiet(e)
    requires EngineOk(GONE_SETUP, NextState(GONE_SETUP, e, a)) && Flips(GONE_SETUP, e, a) == {}
    ensures 0 in NextState(GONE_SETUP, e, a).rules
    ensures NextState(GONE_SETUP, e, a).rules[0].enabled && NextState(GONE_SETUP, e, a).rules[0].alarms == map[]
  {
    StepRule(GONE_SETUP, e, a, 0);
  }

  /** What a condition makes of a message it does not accept. */
  lemma NotAccepted(cs: CondState, d: string, msg: Message)
    requires d !in msg.accepts
    ensures React(GONE_COND, cs, d, msg) == Reaction(cs, false, false, false, {})
  {
  }

  /** A first hit turns nothing. */
  lemma FirstFlips(conds: map<string, CondState>, c: string, msg: Message)
    requires SetupOk(GONE_SETUP) && conds.Keys == GONE_SETUP.conds.Keys && c in conds && conds[c].hm == EMPTY
    requires msg.time == 0 && msg.accepts == map[c := ("a", "b")]
    ensures Engine.Flipped(GONE_SETUP, conds, msg) == {}
  {
    forall d | d in conds ensures !React(GONE_SETUP.conds[d], conds[d], d, msg).status {
      if d == c { FirstHit(conds[d], d, msg); } else { NotAccepted(conds[d], d, msg); }
    }
  }

  lemma NoneYet(e: EngineState)
    requires SetupOk(GONE_SETUP) && e == InitialEngine(GONE_SETUP)
    ensures AfterNone(e)
  {
  }

  lemma StepOne(e: EngineState, e': EngineState)
    requires EngineOk(GONE_SETUP, e) && Fresh(GONE_SETUP, e) && AfterNone(e)
    requires e' == NextState(GONE_SETUP, e, HIT_D) && EngineOk(GONE_SETUP, e')
    ensures AfterOne(e')
  {
    FirstHit(e.conds["d"], "d", HIT_D.msg);
    NotAccepted(e.conds["c"], "c", HIT_D.msg);
    FedCond(GONE_SETUP, e, HIT_D.msg, 0, "c");
    FedCond(GONE_SETUP, e, HIT_D.msg, 0, "d");
    FirstFlips(e.conds, "d", HIT_D.msg);
    Unflipped(e, HIT_D);
  }

  lemma StepTwo(e: EngineState, e': EngineState)
    requires EngineOk(GONE_SETUP, e) && Fresh(GONE_SETUP, e) && AfterOne(e)
    requires e' == NextState(GONE_SETUP, e, HIT_C) && EngineOk(GONE_SETUP, e')
    ensures AfterTwo(e')
  {
    FirstHit(e.conds["c"], "c", HIT_C.msg);
    NotAccepted(e.conds["d"], "d", HIT_C.msg);
    FedCond(GONE_SETUP, e, HIT_C.msg, 0, "c");
    FedCond(GONE_SETUP, e, HIT_C.msg, 0, "d");
    FirstFlips(e.conds, "c", HIT_C.msg);
    Unflipped(e, HIT_C);
  }

  lemma BoxBefore(e: EngineState)
    requires EngineOk(GONE_SETUP, e) && Fresh(GONE_SETUP, e) && AfterTwo(e)
    ensures e.rules[0].domains == [GONE_BOX]
  {
    assert TablesFor(GONE_SETUP, e, 0) == [ONE_PAIR, ONE_PAIR];
    GoneBoxes(TablesFor(GONE_SETUP, e, 0));
  }

  lemma StepReset(e: EngineState, e': EngineState)
    requires EngineOk(GONE_SETUP, e) && AfterTwo(e) && e.rules[0].domains == [GONE_BOX]
    requires e' == NextState(GONE_SETUP, e, ResetCond("d"))
    ensures AfterReset(e')
  {
  }

  /** The stale box lets c's cell fire. */
  lemma GoneRaises(rs: RuleState, view: seq<Hitmap>)
    requires |view| == 2 && CellAt(view[0], 0, 0).on && rs.domains == [GONE_BOX] && rs.enabled && rs.alarms == map[]
    ensures BoxesOk(rs.domains, |view|) && EvalStep(GONE_RULE, rs, view, 0).1
  {
    var sc := Scene(GONE_BOX, GONE_BOX, view);
    assert CondTrue(Status(0), sc);
    assert AndTrue(GONE_EXPR.ands[0], sc);
    assert ExprTrue(GONE_EXPR, sc);
    assert Raises(GONE_RULE, rs, 0, GONE_BOX, view, 0);
    EvaluateMeaning(GONE_RULE, rs, view, 0);
  }

  /** The second message to c brings no new name, so nothing is compiled anew. */
  lemma NothingNew(conds: map<string, CondState>, arg: Arg)
    requires SetupOk(GONE_SETUP) && conds.Keys == GONE_SETUP.conds.Keys
    requires conds["c"].hm.tables == ONE_PAIR && CellAt(conds["c"].hm, 0, 0) == ONE_HIT
    ensures Extended(GONE_SETUP, conds, HIT_C.msg, arg) == {}
  {
    forall c | c in conds
      ensures !React(GONE_SETUP.conds[c], conds[c], c, HIT_C.msg).source
      ensures !React(GONE_SETUP.conds[c], conds[c], c, HIT_C.msg).target
    {
      if c == "c" { SecondHit(conds[c], c, HIT_C.msg); } else { NotAccepted(conds[c], c, HIT_C.msg); }
    }
  }

  lemma NothingCompiled(e: EngineState)
    requires EngineOk(GONE_SETUP, e) && AfterReset(e)
    ensures 0 in Refreshed(GONE_SETUP, e, HIT_C.msg) && Refreshed(GONE_SETUP, e, HIT_C.msg)[0] == e.rules[0]
  {
    NothingNew(e.conds, Source);
    NothingNew(e.conds, Target);
    assert Watching(GONE_SETUP, {}, Source) == {} && Watching(GONE_SETUP, {}, Target) == {};
  }

  lemma Listed(e: EngineState)
    requires EngineOk(GONE_SETUP, e) && AfterReset(e)
    ensures 0 in Subscribed(GONE_SETUP, Engine.Flipped(GONE_SETUP, e.conds, HIT_C.msg))
  {
    SecondHit(e.conds["c"], "c", HIT_C.msg);
    assert "c" in Engine.Flipped(GONE_SETUP, e.conds, HIT_C.msg);
    assert 0 in StatusSubscribers(GONE_SETUP, "c");
  }

  lemma StepFires(e: EngineState)
    requires EngineOk(GONE_SETUP, e) && AfterReset(e)
    ensures 0 in Fires(GONE_SETUP, e, HIT_C)
  {
    NothingCompiled(e);
    Listed(e);
    SecondHit(e.conds["c"], "c", HIT_C.msg);
    GoneRaises(e.rules[0], ViewOf(FeedConds(GONE_SETUP, e.conds, HIT_C.msg), GONE_RULE));
  }

  lemma StillEmpty(e: EngineState, e': EngineState)
    requires EngineOk(GONE_SETUP, e) && AfterReset(e) && e' == NextState(GONE_SETUP, e, HIT_C)
    ensures "d" in e'.conds && e'.conds["d"].hm == EMPTY
  {
    NotAccepted(e.conds["d"], "d", HIT_C.msg);
    FedCond(GONE_SETUP, e, HIT_C.msg, 0, "d");
  }

  /** Without names for d there is no assignment. */
  lemma NoChoice(rs: RuleState, e': EngineState)
    requires EngineOk(GONE_SETUP, e') && 0 in e'.rules && "d" in e'.conds && e'.conds["d"].hm == EMPTY
    ensures !Fireable(GONE_RULE, rs, View(GONE_SETUP, e', 0), 0)
  {
    var T := TablesOf(View(GONE_SETUP, e', 0));
    assert T[1].src == map[];
    forall a: Domain ensures !InRange(a, T) {
    }
  }

  lemma GoneOne(one: seq<Action>)
    requires SetupOk(GONE_SETUP) && one == [HIT_D] && ActionsOk(one)
    ensures Fresh(GONE_SETUP, Run(GONE_SETUP, one)) && AfterOne(Run(GONE_SETUP, one))
  {
    var none := one[..0];
    assert none == [] && none + [HIT_D] == one;
    RunSnoc(GONE_SETUP, none, HIT_D);
    RunFresh(GONE_SETUP, none);
    RunFresh(GONE_SETUP, one);
    NoneYet(Run(GONE_SETUP, none));
    StepOne(Run(GONE_SETUP, none), Run(GONE_SETUP, one));
  }

  lemma GoneTwo(one: seq<Action>)
    requires SetupOk(GONE_SETUP) && ActionsOk(one) && ActionsOk(one + [HIT_C]) && ResetFree(one + [HIT_C])
    requires Fresh(GONE_SETUP, Run(GONE_SETUP, one)) && AfterOne(Run(GONE_SETUP, one))
    ensures Fresh(GONE_SETUP, Run(GONE_SETUP, one + [HIT_C])) && AfterTwo(Run(GONE_SETUP, one + [HIT_C]))
  {
    RunFresh(GONE_SETUP, one + [HIT_C]);
    RunSnoc(GONE_SETUP, one, HIT_C);
    StepTwo(Run(GONE_SETUP, one), Run(GONE_SETUP, one + [HIT_C]));
  }

  lemma GoneReset(two: seq<Action>)
    requires SetupOk(GONE_SETUP) && ActionsOk(two) && ActionsOk(two + [ResetCond("d")])
    requires Fresh(GONE_SETUP, Run(GONE_SETUP, two)) && AfterTwo(Run(GONE_SETUP, two))
    ensures AfterReset(Run(GONE_SETUP, two + [ResetCond("d")]))
  {
    RunSnoc(GONE_SETUP, two, ResetCond("d"));
    BoxBefore(Run(GONE_SETUP, two));
    StepReset(Run(GONE_SETUP, two), Run(GONE_SETUP, two + [ResetCond("d")]));
  }

  /** The action, whose effect is e', makes the rule fire on a box that names an index
      outside d's table, and its clause compiled anew leaves it no choice. */
  ghost predicate StaleStep(su: Setup, e: EngineState, a: Action, e': EngineState)
    requires EngineOk(su, e) && EngineOk(su, e') && ActionOk(a) && Evaluates(a)
  {
    && 0 in e.rules && 0 in e'.rules && e.rules[0].domains == [GONE_BOX] && 0 in Fires(su, e, a)
    && "d" in e'.conds && GONE_BOX[1].first >= |e'.conds["d"].hm.tables.src|
    && !Fireable(su.rules[0], e.rules[0], View(su, e', 0), 0)
  }

  /** What holds of the run to the reset, and of the message after it. */
  ghost predicate FiresStale(su: Setup, acts: seq<Action>, a: Action)
  {
    && SetupOk(su) && ActionsOk(acts) && ActionOk(a) && Evaluates(a)
    && EngineOk(su, Run(su, acts)) && EngineOk(su, NextState(su, Run(su, acts), a))
    && StaleStep(su, Run(su, acts), a, NextState(su, Run(su, acts), a))
  }

  lemma GoneStep(e: EngineState, e': EngineState)
    requires EngineOk(GONE_SETUP, e) && AfterReset(e)
    requires e' == NextState(GONE_SETUP, e, HIT_C) && EngineOk(GONE_SETUP, e') && 0 in e'.rules
    ensures StaleStep(GONE_SETUP, e, HIT_C, e')
  {
    StepFires(e);
    StillEmpty(e, e');
    NoChoice(e.rules[0], e');
  }

  lemma GoneFires(acts: seq<Action>)
    requires SetupOk(GONE_SETUP) && ActionsOk(acts) && AfterReset(Run(GONE_SETUP, acts))
    ensures FiresStale(GONE_SETUP, acts, HIT_C)
  {
    var e := Run(GONE_SETUP, acts);
    NextOk(GONE_SETUP, e, HIT_C);
    assert 0 in GONE_SETUP.rules;
    GoneStep(e, NextState(GONE_SETUP, e, HIT_C));
  }

  /** The two messages. */
  lemma GoneBoth(one: seq<Action>)
    requires SetupOk(GONE_SETUP) && one == [HIT_D] && ActionsOk(one) && ActionsOk(one + [HIT_C])
    requires ResetFree(one + [HIT_C])
    ensures Fresh(GONE_SETUP, Run(GONE_SETUP, one + [HIT_C])) && AfterTwo(Run(GONE_SETUP, one + [HIT_C]))
  {
    GoneOne(one);
    GoneTwo(one);
  }

  /** A run after whose reset of d a rule fires on a box that names an index outside
      d's table, while its clause, compiled anew, leaves it no candidate. */
  lemma StaleFiresExample(one: seq<Action>) returns (acts: seq<Action>)
    requires one == [HIT_D]
    ensures acts == one + [HIT_C] + [ResetCond("d")] && FiresStale(GONE_SETUP, acts, HIT_C)
  {
    GoneOk(one);
    acts := one + [HIT_C] + [ResetCond("d")];
    GoneBoth(one);
    GoneReset(one + [HIT_C]);
    GoneFires(acts);
  }
}
