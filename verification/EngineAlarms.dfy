/** The alarm tables of all rules, over every run of the engine. */
module EngineAlarms {
  import opened Options
  import opened Domains
  import opened Where
  import opened Hitmaps
  import opened RuleEval
  import opened RuleFacts
  import opened Engine
  import opened EngineFacts

  /** The firings of each rule since its last reset. */
  type Logs = nat -> seq<Firing>

  /** The log after an evaluation that left the rule in `rs`. */
  function Logged(log: seq<Firing>, fired: bool, rs: RuleState, now: int): seq<Firing>
  {
    if fired && rs.last.Some? then log + [Firing(rs.last.value, now)] else log
  }

  ghost function AfterEvaluation(su: Setup, conds: map<string, CondState>, rules: map<nat, RuleState>,
                                 listed: set<nat>, now: int, logs: Logs): Logs
    requires SetupOk(su) && conds.Keys == su.conds.Keys && RulesOk(su, rules)
  {
    (r: nat) =>
      if r in rules
      then Logged(logs(r), r in Fired(su, conds, rules, listed, now), Evaluated(su, conds, rules, listed, now)[r], now)
      else logs(r)
  }

  ghost function NextLogs(su: Setup, e: EngineState, logs: Logs, a: Action): Logs
    requires EngineOk(su, e)
  {
    match a
    case Feed(msg, now) =>
      AfterEvaluation(su, FeedConds(su, e.conds, msg), Refreshed(su, e, msg),
                      Subscribed(su, Engine.Flipped(su, e.conds, msg)), now, logs)
    case Batch(now) =>
      AfterEvaluation(su, BatchConds(su, e.conds, e.queue, now), e.rules,
                      Subscribed(su, BatchFlipped(su, e.conds, e.queue, now)), now, logs)
    case ResetRuleOf(r) => (q: nat) => if q == r then [] else logs(q)
    case _ => logs
  }

  ghost predicate LogsOk(su: Setup, rules: map<nat, RuleState>, logs: Logs)
  {
    rules.Keys == su.rules.Keys && forall r | r in rules :: LogOk(su.rules[r], rules[r], logs(r))
  }

  lemma EvalLogged(cfg: RuleConfig, rs: RuleState, view: seq<Hitmap>, now: int, log: seq<Firing>)
    requires |cfg.prim| == |view| && BoxesOk(rs.domains, |view|) && LogOk(cfg, rs, log)
    ensures var (rs', fired) := EvalStep(cfg, rs, view, now);
            LogOk(cfg, rs', Logged(log, fired, rs', now))
  {
    var log' := EvalKeepsLog(cfg, rs, view, now, log);
    var (rs', fired) := EvalStep(cfg, rs, view, now);
    if fired {
      assert log' == log + [log'[|log|]];
    }
  }

  lemma EvaluationKeepsLogs(su: Setup, conds: map<string, CondState>, rules: map<nat, RuleState>, listed: set<nat>,
                            now: int, logs: Logs)
    requires SetupOk(su) && conds.Keys == su.conds.Keys && RulesOk(su, rules) && LogsOk(su, rules, logs)
    ensures LogsOk(su, Evaluated(su, conds, rules, listed, now), AfterEvaluation(su, conds, rules, listed, now, logs))
  {
    forall r | r in rules
      ensures LogOk(su.rules[r], Evaluated(su, conds, rules, listed, now)[r],
                    AfterEvaluation(su, conds, rules, listed, now, logs)(r))
    {
      if r in listed {
        EvalLogged(su.rules[r], rules[r], ViewOf(conds, su.rules[r]), now, logs(r));
      }
    }
  }

  lemma RefreshKeepsLogs(su: Setup, e: EngineState, msg: Message, logs: Logs)
    requires EngineOk(su, e) && LogsOk(su, e.rules, logs)
    ensures LogsOk(su, Refreshed(su, e, msg), logs)
  {
  }

  lemma FeedKeepsLogs(su: Setup, e: EngineState, logs: Logs, msg: Message, now: int)
    requires EngineOk(su, e) && LogsOk(su, e.rules, logs)
    ensures LogsOk(su, FeedStep(su, e, msg, now).rules, NextLogs(su, e, logs, Feed(msg, now)))
  {
    RefreshKeepsLogs(su, e, msg, logs);
    EvaluationKeepsLogs(su, FeedConds(su, e.conds, msg), Refreshed(su, e, msg),
                        Subscribed(su, Engine.Flipped(su, e.conds, msg)), now, logs);
  }

  lemma BatchKeepsLogs(su: Setup, e: EngineState, logs: Logs, now: int)
    requires EngineOk(su, e) && LogsOk(su, e.rules, logs)
    ensures LogsOk(su, BatchStep(su, e, now).rules, NextLogs(su, e, logs, Batch(now)))
  {
    EvaluationKeepsLogs(su, BatchConds(su, e.conds, e.queue, now), e.rules,
                        Subscribed(su, BatchFlipped(su, e.conds, e.queue, now)), now, logs);
  }

  lemma NextKeepsLogs(su: Setup, e: EngineState, logs: Logs, a: Action)
    requires EngineOk(su, e) && LogsOk(su, e.rules, logs)
    ensures LogsOk(su, NextState(su, e, a).rules, NextLogs(su, e, logs, a))
  {
    if a.Feed? {
      FeedKeepsLogs(su, e, logs, a.msg, a.now);
    } else if a.Batch? {
      BatchKeepsLogs(su, e, logs, a.now);
    } else {
      CommandKeepsLogs(su, e, logs, a);
    }
  }

  lemma CommandKeepsLogs(su: Setup, e: EngineState, logs: Logs, a: Action)
    requires EngineOk(su, e) && LogsOk(su, e.rules, logs) && !a.Feed? && !a.Batch?
    ensures LogsOk(su, NextState(su, e, a).rules, NextLogs(su, e, logs, a))
  {
    match a
    case EnableRule(r, flag) =>
      if r in e.rules { OneRule(su, e.rules, logs, r, e.rules[r].(enabled := flag), logs); }
    case ResetRuleOf(r) =>
      if r in e.rules { OneRule(su, e.rules, logs, r, ResetRule(e.rules[r]), NextLogs(su, e, logs, a)); }
    case ResetCond(c) =>
  }

  /** A command changes one rule and at most its own log. */
  lemma OneRule(su: Setup, rules: map<nat, RuleState>, logs: Logs, r: nat, rs: RuleState, logs': Logs)
    requires LogsOk(su, rules, logs) && r in rules
    requires LogOk(su.rules[r], rules[r], logs(r)) ==> LogOk(su.rules[r], rs, logs'(r))
    requires forall q: nat | q != r :: logs'(q) == logs(q)
    ensures LogsOk(su, rules[r := rs], logs')
  {
  }

  ghost function RunLogs(su: Setup, acts: seq<Action>): Logs
    requires SetupOk(su) && ActionsOk(acts)
  {
    if acts == [] then (r: nat) => []
    else NextLogs(su, Run(su, acts[..|acts| - 1]), RunLogs(su, acts[..|acts| - 1]), acts[|acts| - 1])
  }

  lemma {:induction false} RunLogsOk(su: Setup, acts: seq<Action>)
    requires SetupOk(su) && ActionsOk(acts)
    ensures LogsOk(su, Run(su, acts).rules, RunLogs(su, acts))
    decreases |acts|
  {
    if acts != [] {
      RunLogsOk(su, acts[..|acts| - 1]);
      NextKeepsLogs(su, Run(su, acts[..|acts| - 1]), RunLogs(su, acts[..|acts| - 1]), acts[|acts| - 1]);
    }
  }

  /** A rule's count is the number of its firings since its last reset; a
      non-repeating rule fires no key twice and counts its table; any refiring
      comes more than holdoff seconds after the key's stored time, which is that
      of its first firing; and the reported alarm is the last key fired. */
  ghost predicate Explained(cfg: RuleConfig, rs: RuleState, log: seq<Firing>)
  {
    && rs.count == |log| >= |rs.alarms| && (!cfg.repeat ==> rs.count == |rs.alarms|)
    && rs.last == (if log == [] then None else Some(log[|log| - 1].key))
    && (forall i, j | 0 <= i < j < |log| && log[i].key == log[j].key ::
          cfg.repeat && log[j].key in rs.alarms && log[j].time - rs.alarms[log[j].key] > cfg.holdoff)
    && (forall i | 0 <= i < |log| && (forall j | 0 <= j < i :: log[j].key != log[i].key) ::
          log[i].key in rs.alarms && rs.alarms[log[i].key] == log[i].time)
  }

  lemma LogExplains(cfg: RuleConfig, rs: RuleState, log: seq<Firing>)
    requires LogOk(cfg, rs, log)
    ensures Explained(cfg, rs, log)
  {
    CountsAndSizes(cfg, log);
    forall i, j | 0 <= i < j < |log| && log[i].key == log[j].key
      ensures cfg.repeat && log[j].key in rs.alarms && log[j].time - rs.alarms[log[j].key] > cfg.holdoff
    {
      RefireSpacing(cfg, log, i, j);
    }
    forall i | 0 <= i < |log| && (forall j | 0 <= j < i :: log[j].key != log[i].key)
      ensures log[i].key in rs.alarms && rs.alarms[log[i].key] == log[i].time
    {
      FirstTimesMeaning(log, i);
    }
  }

  /** In every run, every rule's alarm table is explained by its firings. */
  lemma RunAlarms(su: Setup, acts: seq<Action>, r: nat)
    requires SetupOk(su) && ActionsOk(acts) && r in su.rules
    ensures r in Run(su, acts).rules && Explained(su.rules[r], Run(su, acts).rules[r], RunLogs(su, acts)(r))
  {
    RunLogsOk(su, acts);
    LogExplains(su.rules[r], Run(su, acts).rules[r], RunLogs(su, acts)(r));
  }
}
