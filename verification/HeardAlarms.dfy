/** The alarms of a run, computed from the messages and commands alone: which rules
    fire when, and under which keys. */
module HeardAlarms {
  import opened Options
  import opened Domains
  import opened Where
  import opened WhereFacts
  import opened Hitmaps
  import opened Rules
  import opened RuleSearch
  import opened RuleEval
  import opened RuleFacts
  import opened Engine
  import opened EngineFacts
  import opened EngineWindows
  import opened EngineFirings
  import opened EngineAlarms
  import opened HeardMaps
  import opened EndToEnd

  // ------------------------------------------------------------ the first alarm

  ghost predicate SameTest(test: Domain -> bool, test': Domain -> bool, n: nat)
  {
    forall v | |v| == n :: test(v) <==> test'(v)
  }

  /** The search only looks at the tables and asks the test. */
  lemma {:induction false} SameFind(pre: Domain, box: Domain, view: seq<Hitmap>, view': seq<Hitmap>, prim: seq<bool>,
                                    test: Domain -> bool, test': Domain -> bool)
    requires |pre| <= |box| == |view| == |prim| && SameView(view, view') && SameTest(test, test', |box|)
    ensures Find(pre, box, view, prim, test) == Find(pre, box, view', prim, test')
    decreases |box| - |pre|, 1, 0
  {
    if |pre| == |box| {
    } else {
      assert SameMap(view[|pre|], view'[|pre|]);
      var ps := Pairs(box[|pre|], view[|pre|], prim[|pre|]);
      SameFindIn(pre, ps, box, view, view', prim, test, test');
    }
  }

  lemma {:induction false} SameFindIn(pre: Domain, ps: seq<CondDomain>, box: Domain, view: seq<Hitmap>,
                                      view': seq<Hitmap>, prim: seq<bool>, test: Domain -> bool,
                                      test': Domain -> bool)
    requires |pre| < |box| == |view| == |prim| && SameView(view, view') && SameTest(test, test', |box|)
    ensures FindIn(pre, ps, box, view, prim, test) == FindIn(pre, ps, box, view', prim, test')
    decreases |box| - |pre|, 0, |ps|
  {
    if ps == [] {
    } else {
      SameFind(pre + [ps[0]], box, view, view', prim, test, test');
      SameFindIn(pre, ps[1..], box, view, view', prim, test, test');
    }
  }

  /** The scenes look at the same value of the same box. */
  predicate SameScene(a: Option<Scene>, b: Option<Scene>)
  {
    a.Some? == b.Some? && (a.Some? ==> a.value.value == b.value.value && a.value.box == b.value.box)
  }

  lemma {:induction false} SameFirst(cfg: RuleConfig, rs: RuleState, rs': RuleState, boxes: seq<Domain>,
                                     view: seq<Hitmap>, view': seq<Hitmap>, now: int)
    requires |cfg.prim| == |view| == |view'| && BoxesOk(boxes, |view|) && SameView(view, view')
    requires rs.alarms == rs'.alarms
    ensures SameScene(FirstAlarm(cfg, rs, boxes, view, now), FirstAlarm(cfg, rs', boxes, view', now))
    ensures FirstAlarm(cfg, rs, boxes, view, now).Some? ==> FirstAlarm(cfg, rs, boxes, view, now).value.view == view
    ensures FirstAlarm(cfg, rs', boxes, view', now).Some? ==>
              FirstAlarm(cfg, rs', boxes, view', now).value.view == view'
  {
    if boxes == [] {
    } else {
      var test, test' := Tester(cfg, rs, boxes[0], view, now), Tester(cfg, rs', boxes[0], view', now);
      forall v: Domain | |v| == |boxes[0]| ensures test(v) <==> test'(v) {
        SameFire(cfg, rs, v, boxes[0], view, view', now);
      }
      SameFind([], boxes[0], view, view', cfg.prim, test, test');
      SameFirst(cfg, rs, rs', boxes[1..], view, view', now);
    }
  }

  lemma SameKey(cfg: RuleConfig, a: Scene, b: Scene)
    requires a.Ok() && b.Ok() && a.value == b.value && a.box == b.box && SameView(a.view, b.view)
    ensures AlarmKey(cfg.expr, a) == AlarmKey(cfg.expr, b)
  {
    forall c: BoolCond | !c.Group? ensures CondTrue(c, a) <==> CondTrue(c, b) {
      SameLeaf(a.value, a.box, a.view, b.view, c);
    }
    SameVisitExpr(cfg.expr.ands, a, b, false);
  }

  // ---------------------------------------------------------- the alarms heard

  /** The first alarm the messages heard call for. */
  ghost function FirstCalled(su: Setup, acts: seq<Action>, r: nat, log: seq<Firing>, now: int): Option<Scene>
    requires SetupOk(su) && r in su.rules
  {
    var cfg, view := su.rules[r], HeardView(su, acts, su.rules[r]);
    var seen := RecompiledRule(cfg, AfterFirings(log), view);
    FirstAlarm(cfg, seen, seen.domains, view, now)
  }

  /** The key that the messages call for first. */
  ghost function KeyCalled(su: Setup, acts: seq<Action>, r: nat, log: seq<Firing>, now: int): Domain
    requires SetupOk(su) && r in su.rules && FirstCalled(su, acts, r, log, now).Some?
  {
    AlarmKey(su.rules[r].expr, FirstCalled(su, acts, r, log, now).value)
  }

  /** The firings of rule r since its last reset, by the messages and commands. */
  ghost function LogHeard(su: Setup, acts: seq<Action>, r: nat): seq<Firing>
    requires SetupOk(su) && r in su.rules
  {
    if acts == [] then []
    else LogNext(su, acts[..|acts| - 1], acts[|acts| - 1], r, LogHeard(su, acts[..|acts| - 1], r))
  }

  ghost function LogNext(su: Setup, front: seq<Action>, a: Action, r: nat, log: seq<Firing>): seq<Firing>
    requires SetupOk(su) && r in su.rules
  {
    match a
    case Feed(_, now) => LogStep(su, front, a, r, log, now)
    case Batch(now) => LogStep(su, front, a, r, log, now)
    case ResetRuleOf(q) => if q == r then [] else log
    case _ => log
  }

  /** One message or batch after `front`. */
  ghost function LogStep(su: Setup, front: seq<Action>, a: Action, r: nat, log: seq<Firing>, now: int): seq<Firing>
    requires SetupOk(su) && r in su.rules
  {
    var first := FirstCalled(su, front + [a], r, log, now);
    if EnabledBy(front, r) && SomeTurned(su, front, a, r) && first.Some?
    then log + [Firing(KeyCalled(su, front + [a], r, log, now), now)] else log
  }

  lemma CalledFirst(su: Setup, acts: seq<Action>, r: nat, log: seq<Firing>, now: int)
    requires SetupOk(su) && r in su.rules
    ensures CalledFor(su, acts, r, log, now) <==> FirstCalled(su, acts, r, log, now).Some?
  {
    EvaluatedFires(su.rules[r], AfterFirings(log), HeardView(su, acts, su.rules[r]), now);
  }

  /** What an evaluation records, on the engine's hit maps and on those built from
      the messages. */
  lemma RecordedHeard(su: Setup, acts: seq<Action>, r: nat, rs: RuleState, log: seq<Firing>, now: int)
    requires SetupOk(su) && ActionsOk(acts) && Ordered(su, acts) && r in su.rules && rs.alarms == FirstTimes(log)
    requires rs.enabled
    ensures var view, first := View(su, Run(su, acts), r), FirstCalled(su, acts, r, log, now);
            var (rs', fired) := EvalStep(su.rules[r], RecompiledRule(su.rules[r], rs, view), view, now);
            && (fired <==> first.Some?)
            && (fired ==> rs'.last == Some(AlarmKey(su.rules[r].expr, first.value)))
  {
    var cfg, view, view' := su.rules[r], View(su, Run(su, acts), r), HeardView(su, acts, su.rules[r]);
    ViewSame(su, acts, r);
    SameTables(view, view');
    var seen := RecompiledRule(cfg, rs, view);
    var seen' := RecompiledRule(cfg, AfterFirings(log), view');
    SameFirst(cfg, seen, seen', seen.domains, view, view', now);
    var first := FirstAlarm(cfg, seen, seen.domains, view, now);
    if first.Some? { SameKey(cfg, first.value, FirstCalled(su, acts, r, log, now).value); }
  }

  /** The log after a message or batch. */
  lemma NextLogAt(su: Setup, e: EngineState, logs: Logs, a: Action, r: nat)
    requires EngineOk(su, e) && Evaluates(a) && r in e.rules
    ensures r in NextState(su, e, a).rules
    ensures NextLogs(su, e, logs, a)(r) == Logged(logs(r), r in Fires(su, e, a), NextState(su, e, a).rules[r], a.now)
  {
  }

  /** Every action of the run found the boxes up to date. */
  ghost predicate StaysFresh(su: Setup, acts: seq<Action>)
    requires SetupOk(su) && ActionsOk(acts)
  {
    acts != [] ==> StaysFresh(su, acts[..|acts| - 1]) && Fresh(su, Run(su, acts[..|acts| - 1]))
  }

  lemma {:induction false} ResetFreeFresh(su: Setup, acts: seq<Action>)
    requires SetupOk(su) && ActionsOk(acts) && ResetFree(acts)
    ensures StaysFresh(su, acts)
    decreases |acts|
  {
    if acts == [] {
    } else {
      ResetFreeFresh(su, acts[..|acts| - 1]);
      RunFresh(su, acts[..|acts| - 1]);
    }
  }

  /** What a rule that fires records. */
  lemma FiredKey(su: Setup, front: seq<Action>, a: Action, r: nat, log: seq<Firing>)
    requires SetupOk(su) && ActionsOk(front) && ActionOk(a) && ActionsOk(front + [a]) && Ordered(su, front + [a])
    requires Fresh(su, Run(su, front)) && Evaluates(a) && r in su.rules && r in Fires(su, Run(su, front), a)
    requires Run(su, front).rules[r].alarms == FirstTimes(log)
    ensures r in NextState(su, Run(su, front), a).rules && FirstCalled(su, front + [a], r, log, a.now).Some?
    ensures NextState(su, Run(su, front), a).rules[r].last
            == Some(KeyCalled(su, front + [a], r, log, a.now))
  {
    var e := Run(su, front);
    RunSnoc(su, front, a);
    StepRule(su, e, a, r);
    StepFiring(su, e, a, r);
    RecordedHeard(su, front + [a], r, e.rules[r], log, a.now);
  }

  lemma StepFires(su: Setup, front: seq<Action>, a: Action, r: nat)
    requires SetupOk(su) && ActionsOk(front) && ActionOk(a) && ActionsOk(front + [a]) && Ordered(su, front + [a])
    requires Fresh(su, Run(su, front)) && Evaluates(a) && r in su.rules
    ensures r in Fires(su, Run(su, front), a) <==>
            && EnabledBy(front, r) && SomeTurned(su, front, a, r)
            && FirstCalled(su, front + [a], r, RunLogs(su, front)(r), a.now).Some?
  {
    EndToEnd.EndToEnd(su, front, a, r);
    CalledFirst(su, front + [a], r, RunLogs(su, front)(r), a.now);
  }

  lemma AlarmsLogged(su: Setup, acts: seq<Action>, r: nat)
    requires SetupOk(su) && ActionsOk(acts) && r in su.rules
    ensures r in Run(su, acts).rules && LogOk(su.rules[r], Run(su, acts).rules[r], RunLogs(su, acts)(r))
  {
    RunLogsOk(su, acts);
  }

  lemma LoggedFiring(log: seq<Firing>, rs: RuleState, now: int, key: Domain)
    requires rs.last == Some(key)
    ensures Logged(log, true, rs, now) == log + [Firing(key, now)]
  {
  }

  lemma LogFired(su: Setup, front: seq<Action>, a: Action, r: nat, log: seq<Firing>)
    requires SetupOk(su) && ActionsOk(front) && ActionOk(a) && ActionsOk(front + [a]) && Ordered(su, front + [a])
    requires Fresh(su, Run(su, front)) && Evaluates(a) && r in su.rules
    requires log == RunLogs(su, front)(r) && r in Fires(su, Run(su, front), a)
    ensures FirstCalled(su, front + [a], r, log, a.now).Some?
    ensures NextLogs(su, Run(su, front), RunLogs(su, front), a)(r)
            == log + [Firing(KeyCalled(su, front + [a], r, log, a.now), a.now)]
  {
    AlarmsLogged(su, front, r);
    FiredKey(su, front, a, r, log);
    NextLogAt(su, Run(su, front), RunLogs(su, front), a, r);
    LoggedFiring(log, NextState(su, Run(su, front), a).rules[r], a.now, KeyCalled(su, front + [a], r, log, a.now));
  }

  lemma LogSilent(su: Setup, front: seq<Action>, a: Action, r: nat)
    requires SetupOk(su) && ActionsOk(front) && Evaluates(a) && r in su.rules && r !in Fires(su, Run(su, front), a)
    ensures NextLogs(su, Run(su, front), RunLogs(su, front), a)(r) == RunLogs(su, front)(r)
  {
    NextLogAt(su, Run(su, front), RunLogs(su, front), a, r);
  }

  lemma StepHeard(su: Setup, front: seq<Action>, a: Action, r: nat)
    requires SetupOk(su) && ActionsOk(front) && ActionOk(a) && ActionsOk(front + [a]) && Ordered(su, front + [a])
    requires Fresh(su, Run(su, front)) && Evaluates(a) && r in su.rules
    ensures NextLogs(su, Run(su, front), RunLogs(su, front), a)(r)
            == LogStep(su, front, a, r, RunLogs(su, front)(r), a.now)
  {
    StepFires(su, front, a, r);
    if r in Fires(su, Run(su, front), a) {
      LogFired(su, front, a, r, RunLogs(su, front)(r));
    } else {
      LogSilent(su, front, a, r);
    }
  }

  lemma NextHeard(su: Setup, front: seq<Action>, a: Action, r: nat)
    requires SetupOk(su) && ActionsOk(front) && ActionOk(a) && ActionsOk(front + [a]) && Ordered(su, front + [a])
    requires Fresh(su, Run(su, front)) && r in su.rules
    ensures NextLogs(su, Run(su, front), RunLogs(su, front), a)(r) == LogNext(su, front, a, r, RunLogs(su, front)(r))
  {
    if Evaluates(a) { StepHeard(su, front, a, r); }
  }

  lemma LogsFront(su: Setup, acts: seq<Action>)
    requires SetupOk(su) && ActionsOk(acts) && acts != []
    ensures var front := acts[..|acts| - 1];
            RunLogs(su, acts) == NextLogs(su, Run(su, front), RunLogs(su, front), acts[|acts| - 1])
  {
  }

  lemma HeardFront(su: Setup, acts: seq<Action>, r: nat)
    requires SetupOk(su) && acts != [] && r in su.rules
    ensures var front, a := acts[..|acts| - 1], acts[|acts| - 1];
            LogHeard(su, acts, r) == LogNext(su, front, a, r, LogHeard(su, front, r)) && front + [a] == acts
  {
  }

  /** The firings of every rule, their keys and their times, are those that the
      messages and commands call for. */
  lemma {:induction false} RunLogHeard(su: Setup, acts: seq<Action>, r: nat)
    requires SetupOk(su) && ActionsOk(acts) && Ordered(su, acts) && StaysFresh(su, acts) && r in su.rules
    ensures RunLogs(su, acts)(r) == LogHeard(su, acts, r)
    decreases |acts|
  {
    if acts == [] {
    } else {
      LogsFront(su, acts);
      HeardFront(su, acts, r);
      OrderedFront(su, acts);
      RunLogHeard(su, acts[..|acts| - 1], r);
      NextHeard(su, acts[..|acts| - 1], acts[|acts| - 1], r);
    }
  }

  /** In every reset-free run, what a rule reports is what the messages call for. */
  lemma RunReported(su: Setup, acts: seq<Action>, r: nat)
    requires SetupOk(su) && ActionsOk(acts) && Ordered(su, acts) && ResetFree(acts) && r in su.rules
    ensures r in Run(su, acts).rules
    ensures var rs, log := Run(su, acts).rules[r], LogHeard(su, acts, r);
            && rs.count == |log| && rs.alarms == FirstTimes(log)
            && rs.last == if log == [] then None else Some(log[|log| - 1].key)
  {
    ResetFreeFresh(su, acts);
    RunLogHeard(su, acts, r);
    AlarmsLogged(su, acts, r);
  }
}
