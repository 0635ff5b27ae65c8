/** A rule: its cached boxes, its alarm table, and one evaluation. */
module RuleEval {
  import opened Options
  import opened Domains
  import opened Where
  import opened Hitmaps
  import opened Rules
  import opened RuleSearch
  import WhereEval

  datatype RuleConfig = RuleConfig(conds: seq<string>, prim: seq<bool>, expr: BoolExpr, where: Option<Expr>,
                                   repeat: bool, holdoff: int) {
    predicate Ok()
    {
      && |conds| == |prim| > 0
      && BoolOk(expr, prim)
      && (where.Some? ==> ExprOk(where.value, |conds|))
    }
  }

  datatype RuleState = RuleState(domains: seq<Domain>, alarms: map<Domain, int>, count: nat, last: Option<Domain>,
                                 enabled: bool)

  /** A parsed rule before the first message. */
  function InitialRule(cfg: RuleConfig): RuleState
  {
    RuleState(if cfg.where.None? then [AnyDomain(|cfg.conds|)] else [], map[], 0, None, true)
  }

  /** The scene raises an alarm: the expression holds, and its key is new or,
      for a repeating rule, past the holdoff. */
  predicate CanFire(cfg: RuleConfig, rs: RuleState, sc: Scene, now: int)
  {
    sc.Ok() && ExprTrue(cfg.expr, sc) &&
    var key := AlarmKey(cfg.expr, sc);
    key !in rs.alarms || (cfg.repeat && now - rs.alarms[key] > cfg.holdoff)
  }

  function Tester(cfg: RuleConfig, rs: RuleState, box: Domain, view: seq<Hitmap>, now: int): Domain -> bool
  {
    v => CanFire(cfg, rs, Scene(v, box, view), now)
  }

  /** Recording an alarm. The insertion keeps the time of an existing key. */
  function Record(rs: RuleState, key: Domain, now: int): RuleState
  {
    rs.(alarms := if key in rs.alarms then rs.alarms else rs.alarms[key := now], count := rs.count + 1,
        last := Some(key))
  }

  predicate BoxOk(box: Domain, n: nat)
  {
    |box| == n && !IsNull(box) && forall i | 0 <= i < |box| :: box[i].first >= NIL && box[i].second >= NIL
  }

  predicate BoxesOk(boxes: seq<Domain>, n: nat)
  {
    forall k | 0 <= k < |boxes| :: BoxOk(boxes[k], n)
  }

  /** The first box, and its first assignment, that raises an alarm. */
  function FirstAlarm(cfg: RuleConfig, rs: RuleState, boxes: seq<Domain>, view: seq<Hitmap>,
                      now: int): (r: Option<Scene>)
    requires |cfg.prim| == |view| && BoxesOk(boxes, |view|)
    ensures r.Some? ==> r.value.Ok()
  {
    if boxes == [] then None
    else
      var v := Find([], boxes[0], view, cfg.prim, Tester(cfg, rs, boxes[0], view, now));
      if v.Some? then Some(Scene(v.value, boxes[0], view))
      else FirstAlarm(cfg, rs, boxes[1..], view, now)
  }

  function EvalStep(cfg: RuleConfig, rs: RuleState, view: seq<Hitmap>, now: int): (RuleState, bool)
    requires |cfg.prim| == |view| && BoxesOk(rs.domains, |view|)
  {
    if !rs.enabled then (rs, false)
    else
      var r := FirstAlarm(cfg, rs, rs.domains, view, now);
      if r.None? then (rs, false) else (Record(rs, AlarmKey(cfg.expr, r.value), now), true)
  }

  class Rule {
    const cfg: RuleConfig
    var domains: seq<Domain>
    var alarms: map<Domain, int>
    var count: nat
    var last: Option<Domain>
    var enabled: bool

    function State(): RuleState
      reads this
    {
      RuleState(domains, alarms, count, last, enabled)
    }

    constructor (cfg: RuleConfig)
      ensures this.cfg == cfg && State() == InitialRule(cfg)
    {
      this.cfg := cfg;
      domains := if cfg.where.None? then [AnyDomain(|cfg.conds|)] else [];
      alarms, count, last, enabled := map[], 0, None, true;
    }

    /** A rule copied out of the engine's map. */
    constructor Load(cfg: RuleConfig, rs: RuleState)
      ensures this.cfg == cfg && State() == rs
    {
      this.cfg := cfg;
      domains, alarms, count, last, enabled := rs.domains, rs.alarms, rs.count, rs.last, rs.enabled;
    }

    method EvaluateDomain(T: seq<Tables>)
      requires cfg.where.Some? && |T| > 0 && ExprOk(cfg.where.value, |T|)
      modifies this`domains
      ensures domains == CompileExpr(cfg.where.value, T)
    {
      domains := [];
      domains := WhereEval.EvaluateExpr(cfg.where.value, domains, T);
    }

    /** The alarm part of reset. */
    method Reset()
      modifies this
      ensures State() == old(State()).(alarms := map[], count := 0, last := None)
    {
      alarms := map[];
      last := None;
      count := 0;
    }

    method BooleanEvaluate(value: Domain, alarm: Domain, box: Domain, view: seq<Hitmap>, now: int)
      returns (fired: bool, alarm': Domain)
      requires cfg.Ok() && SceneOk(Scene(value, box, view), cfg.prim) && alarm == NullsOf(|box|)
      modifies this
      ensures fired == CanFire(cfg, old(State()), Scene(value, box, view), now)
      ensures State()
              == if fired then Record(old(State()), AlarmKey(cfg.expr, Scene(value, box, view)), now) else old(State())
      ensures alarm' == NullsOf(|box|)
    {
      var sc := Scene(value, box, view);
      var holds, key := EvaluateExpr(cfg.expr, cfg.prim, sc, alarm, []);
      assert key == AlarmKey(cfg.expr, sc) by {
        assert [] + VisitExpr(cfg.expr.ands, sc) == VisitExpr(cfg.expr.ands, sc);
      }
      alarm' := NullsOf(|box|);
      fired := false;
      if holds {
        if key !in alarms {
          alarms := alarms[key := now];
          last := Some(key);
          count := count + 1;
          fired := true;
        } else if cfg.repeat && now - alarms[key] > cfg.holdoff {
          // insertion at an existing key: the stored time stays
          last := Some(key);
          count := count + 1;
          fired := true;
        }
      }
    }

    method RecursiveEvaluate(value: Domain, alarm: Domain, box: Domain, view: seq<Hitmap>, now: int, n: nat)
      returns (fired: bool, value': Domain, alarm': Domain)
      requires cfg.Ok() && |view| == |cfg.prim| && BoxOk(box, |view|)
      requires n < |box| == |value| && AllowedUpTo(value[..n], box, view, cfg.prim) && alarm == NullsOf(|box|)
      modifies this
      ensures |value'| == |value| && value'[..n] == value[..n] && alarm' == NullsOf(|box|)
      ensures var v := Find(value[..n], box, view, cfg.prim, Tester(cfg, old(State()), box, view, now));
              && fired == v.Some?
              && State() == if fired then Record(old(State()), AlarmKey(cfg.expr, Scene(v.value, box, view)), now)
                            else old(State())
      decreases |box| - n, 0
    {
      ghost var pre := value[..n];
      ghost var test := Tester(cfg, State(), box, view, now);
      value', alarm' := value, alarm;
      var src := SourceRange(box[n], view[n], cfg.prim[n]);
      ghost var tgt := TargetRange(box[n], view[n], cfg.prim[n]);
      var s := src.lo;
      while s <= src.hi
        invariant src.lo <= s && State() == old(State()) && alarm' == NullsOf(|box|)
        invariant |value'| == |value| && value'[..n] == pre
        invariant Find(pre, box, view, cfg.prim, test)
                  == FindIn(pre, PairsFrom(s, src.hi, tgt), box, view, cfg.prim, test)
        decreases src.hi - s
      {
        assert PairsFrom(s, src.hi, tgt) == RowFrom(s, tgt.lo, tgt.hi) + PairsFrom(s + 1, src.hi, tgt);
        FindInConcat(pre, RowFrom(s, tgt.lo, tgt.hi), PairsFrom(s + 1, src.hi, tgt), box, view, cfg.prim, test);
        fired, value', alarm' := EvaluateSource(value', alarm', box, view, now, n, s);
        if fired { return; }
        s := s + 1;
      }
      fired := false;
    }

    /** The inner loop, over the targets of one source. */
    method EvaluateSource(value: Domain, alarm: Domain, box: Domain, view: seq<Hitmap>, now: int, n: nat, s: int)
      returns (fired: bool, value': Domain, alarm': Domain)
      requires cfg.Ok() && |view| == |cfg.prim| && BoxOk(box, |view|)
      requires n < |box| == |value| && AllowedUpTo(value[..n], box, view, cfg.prim) && alarm == NullsOf(|box|)
      requires Within(s, SourceRange(box[n], view[n], cfg.prim[n]))
      modifies this
      ensures |value'| == |value| && value'[..n] == value[..n] && alarm' == NullsOf(|box|)
      ensures var tgt := TargetRange(box[n], view[n], cfg.prim[n]);
              var v := FindIn(value[..n], RowFrom(s, tgt.lo, tgt.hi), box, view, cfg.prim,
                              Tester(cfg, old(State()), box, view, now));
              && fired == v.Some?
              && State() == if fired then Record(old(State()), AlarmKey(cfg.expr, Scene(v.value, box, view)), now)
                            else old(State())
      decreases |box| - n - 1, 2
    {
      ghost var pre := value[..n];
      ghost var test := Tester(cfg, State(), box, view, now);
      value', alarm' := value, alarm;
      var tgt := TargetRange(box[n], view[n], cfg.prim[n]);
      var t := tgt.lo;
      while t <= tgt.hi
        invariant tgt.lo <= t && State() == old(State()) && alarm' == NullsOf(|box|)
        invariant |value'| == |value| && value'[..n] == pre
        invariant FindIn(pre, RowFrom(s, tgt.lo, tgt.hi), box, view, cfg.prim, test)
                  == FindIn(pre, RowFrom(s, t, tgt.hi), box, view, cfg.prim, test)
        decreases tgt.hi - t
      {
        assert RowFrom(s, t, tgt.hi)[1..] == RowFrom(s, t + 1, tgt.hi);
        value' := value'[n := CondDomain(s, t)];
        ChosenAllowed(value, value', n, box, view, cfg.prim);
        fired, value', alarm' := Descend(value', alarm', box, view, now, n);
        assert value'[..n] == value'[..n + 1][..n];
        if fired { return; }
        t := t + 1;
      }
      fired := false;
    }

    /** The step below one choice for condition n: the next condition, or the
        boolean expression once all are chosen. */
    method Descend(value: Domain, alarm: Domain, box: Domain, view: seq<Hitmap>, now: int, n: nat)
      returns (fired: bool, value': Domain, alarm': Domain)
      requires cfg.Ok() && |view| == |cfg.prim| && BoxOk(box, |view|)
      requires n < |box| == |value| && AllowedUpTo(value[..n + 1], box, view, cfg.prim) && alarm == NullsOf(|box|)
      modifies this
      ensures |value'| == |value| && value'[..n + 1] == value[..n + 1] && alarm' == NullsOf(|box|)
      ensures var v := Find(value[..n + 1], box, view, cfg.prim, Tester(cfg, old(State()), box, view, now));
              && fired == v.Some?
              && State() == if fired then Record(old(State()), AlarmKey(cfg.expr, Scene(v.value, box, view)), now)
                            else old(State())
      decreases |box| - n - 1, 1
    {
      value' := value;
      if n != |box| - 1 {
        fired, value', alarm' := RecursiveEvaluate(value, alarm, box, view, now, n + 1);
      } else {
        assert value[..n + 1] == value;
        AllowedScene(value, box, view, cfg.prim);
        fired, alarm' := BooleanEvaluate(value, alarm, box, view, now);
      }
    }

    method Evaluate(view: seq<Hitmap>, now: int) returns (fired: bool)
      requires cfg.Ok() && |view| == |cfg.prim| && BoxesOk(domains, |view|)
      modifies this
      ensures (State(), fired) == EvalStep(cfg, old(State()), view, now)
    {
      if !enabled { return false; }
      for k := 0 to |domains|
        invariant State() == old(State())
        invariant FirstAlarm(cfg, State(), domains[k..], view, now) == FirstAlarm(cfg, State(), domains, view, now)
      {
        var box := domains[k];
        var value, alarm := NullsOf(|box|), NullsOf(|box|);
        assert domains[k..][0] == box && domains[k..][1..] == domains[k + 1..];
        assert value[..0] == [];
        fired, value, alarm := RecursiveEvaluate(value, alarm, box, view, now, 0);
        if fired { return; }
      }
      fired := false;
    }
  }

  lemma ChosenAllowed(value: Domain, value': Domain, n: nat, box: Domain, view: seq<Hitmap>, prim: seq<bool>)
    requires |view| == |prim| == |box| && n < |box| == |value| == |value'|
    requires value'[..n] == value[..n] && AllowedUpTo(value[..n], box, view, prim)
    requires Within(value'[n].first, SourceRange(box[n], view[n], prim[n]))
    requires Within(value'[n].second, TargetRange(box[n], view[n], prim[n]))
    ensures AllowedUpTo(value'[..n + 1], box, view, prim)
    ensures value'[..n + 1] == value[..n] + [value'[n]]
  {
    assert value'[..n + 1] == value'[..n] + [value'[n]];
  }

  /** A full choice of allowed values is a scene the boolean evaluation can use. */
  lemma AllowedScene(value: Domain, box: Domain, view: seq<Hitmap>, prim: seq<bool>)
    requires Candidate(value, box, view, prim) && BoxOk(box, |view|)
    ensures SceneOk(Scene(value, box, view), prim)
  {
    forall i | 0 <= i < |box|
      ensures !CondIsNull(box[i]) && (prim[i] ==> value[i].first >= 0 && value[i].second >= 0)
    {
      assert Allowed(value[i], box[i], view[i], prim[i]);
    }
  }
}
