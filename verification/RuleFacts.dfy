/** What one rule evaluation means, and what holds of the alarm table over any
    sequence of evaluations. */
module RuleFacts {
  import opened Options
  import opened Domains
  import opened Where
  import opened WhereMeaning
  import opened WhereFacts
  import opened Hitmaps
  import opened Rules
  import opened RuleSearch
  import opened RuleEval

  // ----------------------------------------------------------- one evaluation

  /** Box k's assignment v raises an alarm. */
  predicate Raises(cfg: RuleConfig, rs: RuleState, k: nat, v: Domain, view: seq<Hitmap>, now: int)
    requires k < |rs.domains|
  {
    Candidate(v, rs.domains[k], view, cfg.prim) && CanFire(cfg, rs, Scene(v, rs.domains[k], view), now)
  }

  /** No earlier box, and no lexicographically earlier assignment of the same
      box, raises an alarm. */
  ghost predicate Earliest(cfg: RuleConfig, rs: RuleState, k: nat, v: Domain, view: seq<Hitmap>, now: int)
    requires k < |rs.domains|
  {
    forall j: nat, w | j <= k && Raises(cfg, rs, j, w, view, now) :: j == k && !LexLess(w, v)
  }

  ghost predicate Quiet(cfg: RuleConfig, rs: RuleState, box: Domain, view: seq<Hitmap>, now: int)
  {
    NoneIn([], box, view, cfg.prim, Tester(cfg, rs, box, view, now))
  }

  ghost predicate FirstIn(cfg: RuleConfig, rs: RuleState, v: Domain, box: Domain, view: seq<Hitmap>, now: int)
  {
    IsFirst(v, [], box, view, cfg.prim, Tester(cfg, rs, box, view, now))
  }

  lemma {:induction false} FirstAlarmMeaning(cfg: RuleConfig, rs: RuleState, boxes: seq<Domain>, view: seq<Hitmap>,
                                             now: int) returns (k: nat)
    requires |cfg.prim| == |view| && BoxesOk(boxes, |view|)
    ensures k <= |boxes| && forall j | 0 <= j < k :: Quiet(cfg, rs, boxes[j], view, now)
    ensures match FirstAlarm(cfg, rs, boxes, view, now)
            case None => k == |boxes|
            case Some(sc) => k < |boxes| && sc == Scene(sc.value, boxes[k], view)
                             && FirstIn(cfg, rs, sc.value, boxes[k], view, now)
  {
    k := 0;
    if boxes != [] {
      FindMeaning([], boxes[0], view, cfg.prim, Tester(cfg, rs, boxes[0], view, now));
      if Find([], boxes[0], view, cfg.prim, Tester(cfg, rs, boxes[0], view, now)).None? {
        var k' := FirstAlarmMeaning(cfg, rs, boxes[1..], view, now);
        k := k' + 1;
        forall j | 0 <= j < k ensures Quiet(cfg, rs, boxes[j], view, now) {
          if j > 0 { assert boxes[j] == boxes[1..][j - 1]; }
        }
      }
    }
  }

  /** An enabled rule fires exactly when some in-range assignment of some box
      raises an alarm; it then records the key of the earliest one. */
  lemma EvaluateMeaning(cfg: RuleConfig, rs: RuleState, view: seq<Hitmap>, now: int)
    requires |cfg.prim| == |view| && BoxesOk(rs.domains, |view|)
    ensures var (rs', fired) := EvalStep(cfg, rs, view, now);
            && (fired <==> rs.enabled && exists k: nat, v | k < |rs.domains| :: Raises(cfg, rs, k, v, view, now))
            && (fired ==> exists k: nat, v | k < |rs.domains| ::
                  && Raises(cfg, rs, k, v, view, now) && Earliest(cfg, rs, k, v, view, now)
                  && rs' == Record(rs, AlarmKey(cfg.expr, Scene(v, rs.domains[k], view)), now))
            && (!fired ==> rs' == rs)
  {
    var k := FirstAlarmMeaning(cfg, rs, rs.domains, view, now);
    var r := FirstAlarm(cfg, rs, rs.domains, view, now);
    forall j: nat, w | j < k ensures !Raises(cfg, rs, j, w, view, now) {
      assert Quiet(cfg, rs, rs.domains[j], view, now) && Extends(w, []);
      if Candidate(w, rs.domains[j], view, cfg.prim) {
        assert !Tester(cfg, rs, rs.domains[j], view, now)(w);
      }
    }
    if r.Some? {
      var v := r.value.value;
      assert Tester(cfg, rs, rs.domains[k], view, now)(v);
      assert Raises(cfg, rs, k, v, view, now);
      forall w | Raises(cfg, rs, k, w, view, now) ensures !LexLess(w, v) {
        assert Extends(w, []);
        assert Tester(cfg, rs, rs.domains[k], view, now)(w);
      }
      assert Earliest(cfg, rs, k, v, view, now);
    }
  }

  // ---------------------------------------------------- rules without counts

  predicate Plain(e: BoolExpr)
  {
    forall x | x in e.ands :: PlainAnd(x)
  }

  predicate PlainAnd(x: BoolAnd)
  {
    forall c | c in x.conds :: PlainCond(c)
  }

  /** No function call below. */
  predicate PlainCond(c: BoolCond)
  {
    match c
    case Group(e) => Plain(e)
    case Status(_) => true
    case Count(_, _, _, _) => false
  }

  /** The scenes have the same value and agree on the leaves: on the statuses, and
      unless only plain expressions matter, on the counts and the box too. */
  ghost predicate Alike(a: Scene, b: Scene, plain: bool)
  {
    && a.value == b.value && (plain || a.box == b.box)
    && forall c: BoolCond | !c.Group? && (plain ==> c.Status?) :: CondTrue(c, a) <==> CondTrue(c, b)
  }

  lemma StatusAlike(a: Scene, b: Scene)
    requires a.value == b.value && |a.view| == |b.view|
    requires forall i | 0 <= i < |a.view| && i < |a.value| ::
               On(a.view[i], a.value[i].first, a.value[i].second) == On(b.view[i], a.value[i].first, a.value[i].second)
    ensures Alike(a, b, true)
  {
  }

  lemma {:induction false} SameTrue(e: BoolExpr, a: Scene, b: Scene, plain: bool)
    requires (plain ==> Plain(e)) && Alike(a, b, plain)
    ensures ExprTrue(e, a) <==> ExprTrue(e, b)
    decreases e
  {
    forall x | x in e.ands ensures AndTrue(x, a) <==> AndTrue(x, b) {
      assert plain ==> PlainAnd(x);
      forall c | c in x.conds ensures CondTrue(c, a) <==> CondTrue(c, b) {
        assert plain ==> PlainCond(c);
        if c.Group? { SameTrue(c.expr, a, b, plain); }
      }
    }
  }

  lemma {:induction false} SameVisitExpr(ands: seq<BoolAnd>, a: Scene, b: Scene, plain: bool)
    requires (plain ==> forall x | x in ands :: PlainAnd(x)) && Alike(a, b, plain)
    ensures VisitExpr(ands, a) == VisitExpr(ands, b)
    ensures plain ==> forall c | c in VisitExpr(ands, a) :: c.Status?
    decreases ands, 2
  {
    if ands != [] {
      assert plain ==> PlainAnd(ands[0]);
      SameVisitAnd(ands[0].conds, a, b, plain);
      SameVisitExpr(ands[1..], a, b, plain);
      SameTrue(AnyOf([ands[0]]), a, b, plain);
      assert AndTrue(ands[0], a) <==> ExprTrue(AnyOf([ands[0]]), a);
      assert AndTrue(ands[0], b) <==> ExprTrue(AnyOf([ands[0]]), b);
    }
  }

  lemma {:induction false} SameVisitAnd(conds: seq<BoolCond>, a: Scene, b: Scene, plain: bool)
    requires (plain ==> forall c | c in conds :: PlainCond(c)) && Alike(a, b, plain)
    ensures VisitAnd(conds, a) == VisitAnd(conds, b)
    ensures plain ==> forall c | c in VisitAnd(conds, a) :: c.Status?
    decreases conds, 1
  {
    if conds != [] {
      assert plain ==> PlainCond(conds[0]);
      SameVisitCond(conds[0], a, b, plain);
      SameVisitAnd(conds[1..], a, b, plain);
    }
  }

  lemma {:induction false} SameVisitCond(c: BoolCond, a: Scene, b: Scene, plain: bool)
    requires (plain ==> PlainCond(c)) && Alike(a, b, plain)
    ensures VisitCond(c, a) == VisitCond(c, b) && (CondTrue(c, a) <==> CondTrue(c, b))
    ensures plain ==> forall x | x in VisitCond(c, a) :: x.Status?
    decreases c, 0
  {
    if c.Group? {
      SameTrue(c.expr, a, b, plain);
      SameVisitExpr(c.expr.ands, a, b, plain);
    }
  }

  /** Whether an alarm is raised, and under which key, depends on the value and the
      leaves alone; without counts on the statuses alone. */
  lemma AlikeFire(cfg: RuleConfig, rs: RuleState, a: Scene, b: Scene, plain: bool, now: int)
    requires (plain ==> Plain(cfg.expr)) && a.Ok() && b.Ok() && Alike(a, b, plain)
    ensures CanFire(cfg, rs, a, now) <==> CanFire(cfg, rs, b, now)
    ensures AlarmKey(cfg.expr, a) == AlarmKey(cfg.expr, b)
  {
    SameTrue(cfg.expr, a, b, plain);
    SameVisitExpr(cfg.expr.ands, a, b, plain);
    assert AlarmKey(cfg.expr, a) == AlarmKey(cfg.expr, b);
  }

  /** Without counts, whether an assignment raises an alarm does not depend on
      the box it came from. */
  lemma PlainFire(cfg: RuleConfig, rs: RuleState, v: Domain, box: Domain, box': Domain, view: seq<Hitmap>, now: int)
    requires Plain(cfg.expr) && |v| == |box| == |box'| == |view|
    ensures CanFire(cfg, rs, Scene(v, box, view), now) <==> CanFire(cfg, rs, Scene(v, box', view), now)
  {
    StatusAlike(Scene(v, box, view), Scene(v, box', view));
    AlikeFire(cfg, rs, Scene(v, box, view), Scene(v, box', view), true, now);
  }

  function TablesOf(view: seq<Hitmap>): seq<Tables>
  {
    seq(|view|, i requires 0 <= i < |view| => view[i].tables)
  }

  predicate AllPrimitive(cfg: RuleConfig)
  {
    forall i | 0 <= i < |cfg.prim| :: cfg.prim[i]
  }

  /** Of a sound box, the candidates are the in-range points. */
  lemma CandidateMeaning(v: Domain, box: Domain, view: seq<Hitmap>, prim: seq<bool>)
    requires |prim| == |view| && (forall i | 0 <= i < |prim| :: prim[i])
    requires TablesOk(TablesOf(view)) && Sound(box, TablesOf(view))
    ensures Candidate(v, box, view, prim) <==> InRange(v, TablesOf(view)) && In(v, box)
  {
    var T := TablesOf(view);
    if |v| == |box| {
      forall i | 0 <= i < |v|
        ensures Allowed(v[i], box[i], view[i], prim[i]) <==>
                0 <= v[i].first < |T[i].src| && 0 <= v[i].second < |T[i].tgt| && InCond(v[i], box[i])
      {
        assert Known(box[i].first, T[i].src) && Known(box[i].second, T[i].tgt);
        assert Bijective(T[i].src) && Bijective(T[i].tgt);
      }
    }
  }

  /** The assignment satisfies the rule's WHERE clause, if it has one. */
  ghost predicate Selected(cfg: RuleConfig, T: seq<Tables>, a: Domain)
    requires cfg.Ok() && |T| == |a| == |cfg.conds|
  {
    cfg.where.Some? ==> ExprHolds(cfg.where.value, T, a, Logical)
  }

  /** The boxes a rule should be holding. */
  ghost function ExpectedBoxes(cfg: RuleConfig, T: seq<Tables>): seq<Domain>
    requires cfg.Ok() && |T| == |cfg.conds|
  {
    match cfg.where
    case None => [AnyDomain(|T|)]
    case Some(e) => CompileExpr(e, T)
  }

  lemma ExpectedMeaning(cfg: RuleConfig, T: seq<Tables>, a: Domain)
    requires cfg.Ok() && |T| == |cfg.conds| && InRange(a, T)
    requires cfg.where.Some? ==> ExprUnclashing(cfg.where.value)
    ensures Selected(cfg, T, a) <==> InAny(a, ExpectedBoxes(cfg, T))
  {
    if cfg.where.Some? {
      CompileLogical(cfg.where.value, T, a);
    } else {
      assert In(a, ExpectedBoxes(cfg, T)[0]);
    }
  }

  lemma ExpectedSound(cfg: RuleConfig, T: seq<Tables>)
    requires cfg.Ok() && |T| == |cfg.conds|
    ensures AllSound(ExpectedBoxes(cfg, T), T) && BoxesOk(ExpectedBoxes(cfg, T), |T|)
  {
    if cfg.where.Some? { CompileSound(cfg.where.value, T); }
    SoundBoxesOk(ExpectedBoxes(cfg, T), T);
  }

  lemma RaisesMeaning(cfg: RuleConfig, rs: RuleState, view: seq<Hitmap>, now: int, k: nat, a: Domain)
    requires cfg.Ok() && |cfg.prim| == |view| && Plain(cfg.expr) && AllPrimitive(cfg)
    requires TablesOk(TablesOf(view)) && AllSound(rs.domains, TablesOf(view)) && k < |rs.domains|
    ensures Raises(cfg, rs, k, a, view, now) <==>
            InRange(a, TablesOf(view)) && In(a, rs.domains[k]) && CanFire(cfg, rs, Scene(a, a, view), now)
  {
    assert Sound(rs.domains[k], TablesOf(view));
    CandidateMeaning(a, rs.domains[k], view, cfg.prim);
    if |a| == |view| { PlainFire(cfg, rs, a, rs.domains[k], a, view, now); }
  }

  /** The end-to-end reading of a rule over plain conditions: with its boxes
      freshly compiled, it fires exactly when some in-range choice of sources
      and targets satisfies the WHERE clause, makes the boolean expression true,
      and has an alarm key that is new or past the holdoff. */
  lemma PlainRuleMeaning(cfg: RuleConfig, rs: RuleState, view: seq<Hitmap>, now: int)
    requires cfg.Ok() && |cfg.prim| == |view| && Plain(cfg.expr) && AllPrimitive(cfg) && rs.enabled
    requires cfg.where.Some? ==> ExprUnclashing(cfg.where.value)
    requires TablesOk(TablesOf(view)) && rs.domains == ExpectedBoxes(cfg, TablesOf(view))
    ensures BoxesOk(rs.domains, |view|)
    ensures EvalStep(cfg, rs, view, now).1 <==>
            exists a | InRange(a, TablesOf(view)) ::
              Selected(cfg, TablesOf(view), a) && CanFire(cfg, rs, Scene(a, a, view), now)
  {
    var T := TablesOf(view);
    ExpectedSound(cfg, T);
    EvaluateMeaning(cfg, rs, view, now);
    if a :| InRange(a, T) && Selected(cfg, T, a) && CanFire(cfg, rs, Scene(a, a, view), now) {
      ExpectedMeaning(cfg, T, a);
      var k: nat :| k < |rs.domains| && In(a, rs.domains[k]);
      RaisesMeaning(cfg, rs, view, now, k, a);
    }
    if k: nat, a :| k < |rs.domains| && Raises(cfg, rs, k, a, view, now) {
      RaisesMeaning(cfg, rs, view, now, k, a);
      ExpectedMeaning(cfg, T, a);
    }
  }

  lemma SoundBoxesOk(boxes: seq<Domain>, T: seq<Tables>)
    requires AllSound(boxes, T)
    ensures BoxesOk(boxes, |T|)
  {
    forall k | 0 <= k < |boxes| ensures BoxOk(boxes[k], |T|) {
      assert Sound(boxes[k], T);
      forall i | 0 <= i < |boxes[k]| ensures boxes[k][i].first >= NIL && boxes[k][i].second >= NIL {
        assert Known(boxes[k][i].first, T[i].src) && Known(boxes[k][i].second, T[i].tgt);
      }
    }
  }

  // ------------------------------------------------------------- alarm history

  datatype Firing = Firing(key: Domain, time: int)

  /** Each fired key with the time of its first firing. */
  function FirstTimes(log: seq<Firing>): map<Domain, int>
  {
    if log == [] then map[]
    else
      var front, f := FirstTimes(log[..|log| - 1]), log[|log| - 1];
      if f.key in front then front else front[f.key := f.time]
  }

  /** Every refiring comes from a repeating rule, more than holdoff seconds
      after the key's first firing. */
  predicate Spaced(cfg: RuleConfig, log: seq<Firing>)
  {
    log != [] ==>
      var front, f := log[..|log| - 1], log[|log| - 1];
      && Spaced(cfg, front)
      && (f.key in FirstTimes(front) ==> cfg.repeat && f.time - FirstTimes(front)[f.key] > cfg.holdoff)
  }

  /** The alarm table against the list of firings since the last reset. */
  ghost predicate LogOk(cfg: RuleConfig, rs: RuleState, log: seq<Firing>)
  {
    && rs.alarms == FirstTimes(log) && Spaced(cfg, log) && rs.count == |log|
    && rs.last == (if log == [] then None else Some(log[|log| - 1].key))
  }

  lemma RecordKeepsLog(cfg: RuleConfig, rs: RuleState, log: seq<Firing>, key: Domain, now: int)
    requires LogOk(cfg, rs, log)
    requires key !in rs.alarms || (cfg.repeat && now - rs.alarms[key] > cfg.holdoff)
    ensures LogOk(cfg, Record(rs, key, now), log + [Firing(key, now)])
  {
    var log' := log + [Firing(key, now)];
    assert log'[..|log'| - 1] == log;
  }

  /** One evaluation, at any time against any state of the conditions, keeps the
      table and its history in step. */
  lemma EvalKeepsLog(cfg: RuleConfig, rs: RuleState, view: seq<Hitmap>, now: int, log: seq<Firing>)
    returns (log': seq<Firing>)
    requires |cfg.prim| == |view| && BoxesOk(rs.domains, |view|) && LogOk(cfg, rs, log)
    ensures var (rs', fired) := EvalStep(cfg, rs, view, now);
            && LogOk(cfg, rs', log')
            && (forall key | key in rs.alarms :: key in rs'.alarms && rs'.alarms[key] == rs.alarms[key])
            && (if fired then |log'| == |log| + 1 && log'[..|log|] == log && log'[|log|].time == now else log' == log)
  {
    EvaluateMeaning(cfg, rs, view, now);
    var (rs', fired) := EvalStep(cfg, rs, view, now);
    log' := log;
    if fired {
      var k: nat, v :| k < |rs.domains| && Raises(cfg, rs, k, v, view, now)
        && rs' == Record(rs, AlarmKey(cfg.expr, Scene(v, rs.domains[k], view)), now);
      var key := AlarmKey(cfg.expr, Scene(v, rs.domains[k], view));
      RecordKeepsLog(cfg, rs, log, key, now);
      log' := log + [Firing(key, now)];
    }
  }

  /** FirstTimes holds exactly the fired keys, each at its first firing. */
  lemma {:induction false} FirstTimesMeaning(log: seq<Firing>, i: nat)
    requires i < |log|
    ensures log[i].key in FirstTimes(log)
    ensures (forall j | 0 <= j < i :: log[j].key != log[i].key) ==> FirstTimes(log)[log[i].key] == log[i].time
    ensures forall key | key in FirstTimes(log) :: exists j | 0 <= j < |log| :: log[j].key == key
    decreases |log|
  {
    var front := log[..|log| - 1];
    FirstTimesKeys(log);
    if i < |log| - 1 {
      FirstTimesMeaning(front, i);
      assert front[i] == log[i] && forall j | 0 <= j < i :: front[j] == log[j];
    } else {
      FirstTimesKeys(front);
    }
  }

  lemma {:induction false} FirstTimesKeys(log: seq<Firing>)
    ensures forall key | key in FirstTimes(log) :: exists j | 0 <= j < |log| :: log[j].key == key
  {
    if log != [] {
      var front := log[..|log| - 1];
      FirstTimesKeys(front);
      forall key | key in FirstTimes(log) ensures exists j | 0 <= j < |log| :: log[j].key == key {
        if key in FirstTimes(front) {
          var j :| 0 <= j < |front| && front[j].key == key;
          assert log[j].key == key;
        }
      }
    }
  }

  /** Of two firings of one key, the later one is a refiring past the holdoff. */
  lemma {:induction false} RefireSpacing(cfg: RuleConfig, log: seq<Firing>, i: nat, j: nat)
    requires Spaced(cfg, log) && i < j < |log| && log[i].key == log[j].key
    ensures log[j].key in FirstTimes(log)
    ensures cfg.repeat && log[j].time - FirstTimes(log)[log[j].key] > cfg.holdoff
    decreases |log|
  {
    var front := log[..|log| - 1];
    FirstTimesMeaning(front, i);
    if j < |log| - 1 { RefireSpacing(cfg, front, i, j); }
  }

  /** A non-repeating rule's count is the size of its table; any rule's count
      is at least that. */
  lemma {:induction false} CountsAndSizes(cfg: RuleConfig, log: seq<Firing>)
    requires Spaced(cfg, log)
    ensures |FirstTimes(log)| <= |log|
    ensures !cfg.repeat ==> |FirstTimes(log)| == |log|
  {
    if log != [] {
      CountsAndSizes(cfg, log[..|log| - 1]);
    }
  }
}
