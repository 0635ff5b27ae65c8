/** The rule engine as a state machine: feeding a message, executing a batch of
    due timing events, and the reset and enable commands. */
module Engine {
  import opened Options
  import opened Domains
  import opened Where
  import opened WhereFacts
  import opened Hitmaps
  import opened Rules
  import opened RuleEval
  import opened RuleFacts
  import C = Cells

  // ------------------------------------------------------------------- state

  /** The parsed configuration. Rule ids stand for rule addresses. */
  datatype Setup = Setup(conds: map<string, C.Config>, rules: map<nat, RuleConfig>)

  predicate SetupOk(su: Setup)
  {
    && (forall c | c in su.conds :: su.conds[c].Ok())
    && (forall r | r in su.rules :: su.rules[r].Ok() && forall c | c in su.rules[r].conds :: c in su.conds)
  }

  datatype CondState = CondState(hm: Hitmap, caught: nat)

  /** A message: its second, and for each condition whose filters and regex it
      passes, the source and target it yields. */
  datatype Message = Message(time: int, accepts: map<string, (string, string)>)

  datatype EngineState = EngineState(conds: map<string, CondState>, rules: map<nat, RuleState>,
                                     queue: multiset<C.TimingEvent>)

  predicate HasConds(conds: map<string, CondState>, cfg: RuleConfig)
  {
    forall c | c in cfg.conds :: c in conds
  }

  /** The hit maps of a rule's conditions, in the rule's order. */
  function ViewOf(conds: map<string, CondState>, cfg: RuleConfig): (view: seq<Hitmap>)
    requires HasConds(conds, cfg)
    ensures |view| == |cfg.conds|
  {
    seq(|cfg.conds|, i requires 0 <= i < |cfg.conds| => assert cfg.conds[i] in cfg.conds; conds[cfg.conds[i]].hm)
  }

  /** Message times are not negative. */
  predicate Timed(msgs: seq<int>)
  {
    forall i | 0 <= i < |msgs| :: msgs[i] >= 0
  }

  predicate CellsTimed(hm: Hitmap)
  {
    forall k | k in hm.cells :: Timed(hm.cells[k].msgs)
  }

  ghost predicate CondStateOk(cfg: C.Config, cs: CondState)
  {
    HitmapOk(cs.hm, cfg) && CellsTimed(cs.hm)
  }

  ghost predicate CondsOk(su: Setup, conds: map<string, CondState>)
  {
    SetupOk(su) && conds.Keys == su.conds.Keys && forall c | c in conds :: CondStateOk(su.conds[c], conds[c])
  }

  predicate RulesOk(su: Setup, rules: map<nat, RuleState>)
  {
    && rules.Keys == su.rules.Keys
    && forall r | r in rules :: BoxesOk(rules[r].domains, |su.rules[r].conds|)
  }

  predicate QueueOk(su: Setup, queue: multiset<C.TimingEvent>)
  {
    forall e | e in queue :: e.ts >= 1 && e.cond in su.conds
  }

  ghost predicate EngineOk(su: Setup, e: EngineState)
  {
    CondsOk(su, e.conds) && RulesOk(su, e.rules) && QueueOk(su, e.queue)
  }

  function InitialEngine(su: Setup): EngineState
  {
    EngineState(map c | c in su.conds :: CondState(EMPTY, 0), map r | r in su.rules :: InitialRule(su.rules[r]),
                multiset{})
  }

  // ------------------------------------------------------------ subscriptions

  /** The rule is on the condition's source (target) notification list: its
      WHERE clause mentions the condition's sources (targets). */
  predicate Watches(cfg: RuleConfig, c: string, arg: Arg)
  {
    cfg.where.Some? && exists i: nat | i < |cfg.conds| :: cfg.conds[i] == c && Mentions(cfg.where.value, Slot(i, arg))
  }

  function StatusSubscribers(su: Setup, c: string): set<nat>
  {
    set r | r in su.rules && c in su.rules[r].conds
  }

  function DomainSubscribers(su: Setup, c: string, arg: Arg): set<nat>
  {
    set r | r in su.rules && Watches(su.rules[r], c, arg)
  }

  // --------------------------------------------------------- conditions' part

  datatype Reaction = Reaction(state: CondState, status: bool, source: bool, target: bool, pushed: set<C.TimingEvent>)

  /** The event a hit schedules, if any. */
  function Scheduled(stamp: Option<int>, c: string, s: nat, t: nat): (r: set<C.TimingEvent>)
    ensures forall e :: e in r <==> stamp == Some(e.ts) && e == C.TimingEvent(e.ts, c, s, t)
  {
    if stamp.Some? then {C.TimingEvent(stamp.value, c, s, t)} else {}
  }

  /** ma_condition::match. */
  function React(cfg: C.Config, cs: CondState, c: string, msg: Message): (r: Reaction)
    requires cfg.Ok()
    ensures forall e | e in r.pushed :: e.cond == c
  {
    if c in msg.accepts then
      var r := CaptureStep(cs.hm, cfg, msg.accepts[c].0, msg.accepts[c].1, msg.time);
      Reaction(CondState(r.hm, cs.caught + 1), r.status, r.source, r.target,
               Scheduled(r.stamp, c, r.s, r.t))
    else Reaction(cs, false, false, false, {})
  }

  function FeedConds(su: Setup, conds: map<string, CondState>, msg: Message): map<string, CondState>
    requires SetupOk(su) && conds.Keys == su.conds.Keys
  {
    map c | c in conds :: React(su.conds[c], conds[c], c, msg).state
  }

  /** The timing events the conditions of `names` queue. */
  function PushSet(su: Setup, conds: map<string, CondState>, msg: Message, names: set<string>): set<C.TimingEvent>
    requires SetupOk(su) && conds.Keys == su.conds.Keys && names <= conds.Keys
  {
    set c, e | c in names && e in React(su.conds[c], conds[c], c, msg).pushed :: e
  }

  /** The conditions whose status (sources, targets) the message changed. */
  function Flipped(su: Setup, conds: map<string, CondState>, msg: Message): set<string>
    requires SetupOk(su) && conds.Keys == su.conds.Keys
  {
    set c | c in conds && React(su.conds[c], conds[c], c, msg).status
  }

  function Extended(su: Setup, conds: map<string, CondState>, msg: Message, arg: Arg): set<string>
    requires SetupOk(su) && conds.Keys == su.conds.Keys
  {
    set c | c in conds &&
      if arg == Source then React(su.conds[c], conds[c], c, msg).source else React(su.conds[c], conds[c], c, msg).target
  }

  /** One cell under a batch: its due current event, if queued, fires. */
  function BatchCell(cfg: C.Config, cell: C.CellState, queue: multiset<C.TimingEvent>, now: int, c: string, s: nat,
                     t: nat): C.CellState
  {
    if cell.tEvent < now && C.TimingEvent(cell.tEvent, c, s, t) in queue
    then C.FireStep(cell, cfg, cell.tEvent).0 else cell
  }

  function BatchCond(cfg: C.Config, cs: CondState, queue: multiset<C.TimingEvent>, now: int, c: string): CondState
  {
    cs.(hm := cs.hm.(cells := map k | k in cs.hm.cells :: BatchCell(cfg, cs.hm.cells[k], queue, now, c, k.0, k.1)))
  }

  function BatchConds(su: Setup, conds: map<string, CondState>, queue: multiset<C.TimingEvent>,
                      now: int): map<string, CondState>
    requires conds.Keys == su.conds.Keys
  {
    map c | c in conds :: BatchCond(su.conds[c], conds[c], queue, now, c)
  }

  /** The conditions with a cell whose status the batch flips. */
  function BatchFlipped(su: Setup, conds: map<string, CondState>, queue: multiset<C.TimingEvent>, now: int): set<string>
    requires conds.Keys == su.conds.Keys
  {
    set c | c in conds && exists k | k in conds[c].hm.cells ::
      BatchCell(su.conds[c], conds[c].hm.cells[k], queue, now, c, k.0, k.1) != conds[c].hm.cells[k]
  }

  /** What a batch leaves in the queue. */
  ghost function Later(queue: multiset<C.TimingEvent>, now: int): (r: multiset<C.TimingEvent>)
    ensures forall e :: r[e] == if e.ts < now then 0 else queue[e]
    decreases |queue|
  {
    if queue == multiset{} then multiset{}
    else
      var e :| e in queue;
      Later(queue - multiset{e}, now) + if e.ts < now then multiset{} else multiset{e}
  }

  // --------------------------------------------------------------- rules' part

  function Subscribed(su: Setup, conds: set<string>): set<nat>
  {
    set c, r | c in conds && r in StatusSubscribers(su, c) :: r
  }

  function Watching(su: Setup, conds: set<string>, arg: Arg): set<nat>
  {
    set c, r | c in conds && r in DomainSubscribers(su, c, arg) :: r
  }

  /** ma_rule::evaluate_domain. */
  ghost function RecompiledRule(cfg: RuleConfig, rs: RuleState, view: seq<Hitmap>): (r: RuleState)
    requires cfg.Ok() && |view| == |cfg.conds|
    ensures BoxesOk(r.domains, |cfg.conds|)
  {
    ExpectedSound(cfg, TablesOf(view));
    rs.(domains := ExpectedBoxes(cfg, TablesOf(view)))
  }

  /** evaluate_rules_domain. */
  ghost function Recompiled(su: Setup, conds: map<string, CondState>, rules: map<nat, RuleState>,
                            dirty: set<nat>): (r: map<nat, RuleState>)
    requires SetupOk(su) && conds.Keys == su.conds.Keys && RulesOk(su, rules)
    ensures RulesOk(su, r)
  {
    map r | r in rules ::
      if r in dirty then RecompiledRule(su.rules[r], rules[r], ViewOf(conds, su.rules[r])) else rules[r]
  }

  /** evaluate_rules: each listed rule once. */
  ghost function Evaluated(su: Setup, conds: map<string, CondState>, rules: map<nat, RuleState>, listed: set<nat>,
                           now: int): (r: map<nat, RuleState>)
    requires SetupOk(su) && conds.Keys == su.conds.Keys && RulesOk(su, rules)
    ensures RulesOk(su, r)
  {
    map r | r in rules ::
      if r in listed then EvalStep(su.rules[r], rules[r], ViewOf(conds, su.rules[r]), now).0 else rules[r]
  }

  /** The rules that raise an alarm. */
  ghost function Fired(su: Setup, conds: map<string, CondState>, rules: map<nat, RuleState>, listed: set<nat>,
                       now: int): set<nat>
    requires SetupOk(su) && conds.Keys == su.conds.Keys && RulesOk(su, rules)
  {
    set r | r in rules && r in listed && EvalStep(su.rules[r], rules[r], ViewOf(conds, su.rules[r]), now).1
  }

  // ------------------------------------------------------------------- steps

  ghost function Refreshed(su: Setup, e: EngineState, msg: Message): (r: map<nat, RuleState>)
    requires EngineOk(su, e)
    ensures RulesOk(su, r)
  {
    Recompiled(su, FeedConds(su, e.conds, msg), e.rules,
               Watching(su, Extended(su, e.conds, msg, Source), Source)
               + Watching(su, Extended(su, e.conds, msg, Target), Target))
  }

  ghost function FeedStep(su: Setup, e: EngineState, msg: Message, now: int): EngineState
    requires EngineOk(su, e)
  {
    var conds := FeedConds(su, e.conds, msg);
    EngineState(conds,
                Evaluated(su, conds, Refreshed(su, e, msg), Subscribed(su, Flipped(su, e.conds, msg)), now),
                e.queue + multiset(PushSet(su, e.conds, msg, e.conds.Keys)))
  }

  ghost function BatchStep(su: Setup, e: EngineState, now: int): EngineState
    requires EngineOk(su, e)
  {
    var conds := BatchConds(su, e.conds, e.queue, now);
    EngineState(conds,
                Evaluated(su, conds, e.rules, Subscribed(su, BatchFlipped(su, e.conds, e.queue, now)), now),
                Later(e.queue, now))
  }

  /** The rules a message makes raise an alarm. */
  ghost function FedFired(su: Setup, e: EngineState, msg: Message, now: int): set<nat>
    requires EngineOk(su, e)
  {
    Fired(su, FeedConds(su, e.conds, msg), Refreshed(su, e, msg), Subscribed(su, Flipped(su, e.conds, msg)), now)
  }

  /** The rules a batch makes raise an alarm. */
  ghost function BatchFired(su: Setup, e: EngineState, now: int): set<nat>
    requires EngineOk(su, e)
  {
    Fired(su, BatchConds(su, e.conds, e.queue, now), e.rules, Subscribed(su, BatchFlipped(su, e.conds, e.queue, now)),
          now)
  }

  function ResetConds(conds: map<string, CondState>, names: set<string>): map<string, CondState>
  {
    map c | c in conds :: if c in names then CondState(EMPTY, 0) else conds[c]
  }

  function ResetRule(rs: RuleState): RuleState
  {
    rs.(alarms := map[], count := 0, last := None)
  }

  datatype Action =
    | Feed(msg: Message, now: int)
    | Batch(now: int)
    | EnableRule(rule: nat, flag: bool)
    | ResetRuleOf(rule: nat)
    | ResetCond(cond: string)

  /** The conditions an action resets. */
  function ResetNames(su: Setup, a: Action): set<string>
  {
    match a
    case ResetRuleOf(r) => if r in su.rules then set c | c in su.rules[r].conds else {}
    case ResetCond(c) => {c}
    case _ => {}
  }

  ghost function NextState(su: Setup, e: EngineState, a: Action): EngineState
    requires EngineOk(su, e)
  {
    match a
    case Feed(msg, now) => FeedStep(su, e, msg, now)
    case Batch(now) => BatchStep(su, e, now)
    case EnableRule(r, flag) => if r in e.rules then e.(rules := e.rules[r := e.rules[r].(enabled := flag)]) else e
    case ResetRuleOf(r) =>
      if r in e.rules then
        e.(conds := ResetConds(e.conds, set c | c in su.rules[r].conds), rules := e.rules[r := ResetRule(e.rules[r])])
      else e
    case ResetCond(c) => e.(conds := ResetConds(e.conds, {c}))
  }

  predicate ActionOk(a: Action)
  {
    a.Feed? ==> a.msg.time >= 0
  }

  // ------------------------------------------------------------ well-formedness

  lemma InitialOk(su: Setup)
    requires SetupOk(su)
    ensures EngineOk(su, InitialEngine(su))
  {
    forall r | r in su.rules ensures BoxesOk(InitialRule(su.rules[r]).domains, |su.rules[r].conds|) {
      if su.rules[r].where.None? {
        assert BoxOk(AnyDomain(|su.rules[r].conds|), |su.rules[r].conds|);
      }
    }
  }

  lemma DropTimed(msgs: seq<int>, latest: int, ts: int)
    requires Timed(msgs)
    ensures Timed(C.DropExpired(msgs, latest, ts))
  {
  }

  lemma KeptTimed(msgs: seq<int>, time: int, cfg: C.Config)
    requires cfg.Ok() && time >= 0 && Timed(msgs)
    ensures Timed(C.Kept(msgs, time, cfg))
  {
    DropTimed(msgs + [time], time, cfg.ts);
  }

  lemma HitTimes(c: C.CellState, cfg: C.Config, time: int)
    requires cfg.Ok() && time >= 0 && Timed(c.msgs)
    ensures Timed(C.HitStep(c, cfg, time).state.msgs)
    ensures C.HitStep(c, cfg, time).stamp.Some? ==> C.HitStep(c, cfg, time).stamp.value >= 1
  {
    KeptTimed(c.msgs, time, cfg);
  }

  lemma CaptureTimed(hm: Hitmap, cfg: C.Config, src: string, tgt: string, time: int)
    requires cfg.Ok() && CellsTimed(hm) && time >= 0
    ensures CellsTimed(CaptureStep(hm, cfg, src, tgt, time).hm)
    ensures var stamp := CaptureStep(hm, cfg, src, tgt, time).stamp; stamp.Some? ==> stamp.value >= 1
  {
    var r := CaptureStep(hm, cfg, src, tgt, time);
    HitTimes(CellAt(hm, r.s, r.t), cfg, time);
  }

  lemma ReactOk(cfg: C.Config, cs: CondState, c: string, msg: Message)
    requires cfg.Ok() && CondStateOk(cfg, cs) && msg.time >= 0
    ensures CondStateOk(cfg, React(cfg, cs, c, msg).state)
  {
    if c in msg.accepts {
      CaptureOk(cs.hm, cfg, msg.accepts[c].0, msg.accepts[c].1, msg.time);
      CaptureTimed(cs.hm, cfg, msg.accepts[c].0, msg.accepts[c].1, msg.time);
    }
  }

  lemma PushedOk(cfg: C.Config, cs: CondState, c: string, msg: Message)
    requires cfg.Ok() && CellsTimed(cs.hm) && msg.time >= 0
    ensures forall e | e in React(cfg, cs, c, msg).pushed :: e.ts >= 1 && e.cond == c
  {
    if c in msg.accepts {
      CaptureTimed(cs.hm, cfg, msg.accepts[c].0, msg.accepts[c].1, msg.time);
    }
  }

  lemma FeedCondsOk(su: Setup, e: EngineState, msg: Message)
    requires EngineOk(su, e) && msg.time >= 0
    ensures CondsOk(su, FeedConds(su, e.conds, msg))
    ensures QueueOk(su, e.queue + multiset(PushSet(su, e.conds, msg, e.conds.Keys)))
  {
    forall c | c in e.conds
      ensures CondStateOk(su.conds[c], React(su.conds[c], e.conds[c], c, msg).state)
      ensures forall x | x in React(su.conds[c], e.conds[c], c, msg).pushed :: x.ts >= 1 && x.cond == c
    {
      ReactOk(su.conds[c], e.conds[c], c, msg);
      PushedOk(su.conds[c], e.conds[c], c, msg);
    }
  }

  lemma BatchCondOk(cfg: C.Config, cs: CondState, queue: multiset<C.TimingEvent>, now: int, c: string)
    requires CondStateOk(cfg, cs)
    ensures CondStateOk(cfg, BatchCond(cfg, cs, queue, now, c))
  {
  }

  lemma BatchCondsOk(su: Setup, e: EngineState, now: int)
    requires EngineOk(su, e)
    ensures CondsOk(su, BatchConds(su, e.conds, e.queue, now))
  {
    forall c | c in e.conds ensures CondStateOk(su.conds[c], BatchCond(su.conds[c], e.conds[c], e.queue, now, c)) {
      BatchCondOk(su.conds[c], e.conds[c], e.queue, now, c);
    }
  }

  lemma EmptyOk(cfg: C.Config)
    ensures CondStateOk(cfg, CondState(EMPTY, 0))
  {
  }

  lemma ResetOk(su: Setup, e: EngineState, names: set<string>)
    requires EngineOk(su, e)
    ensures CondsOk(su, ResetConds(e.conds, names))
  {
    forall c | c in e.conds { EmptyOk(su.conds[c]); }
  }

  lemma FeedOk(su: Setup, e: EngineState, msg: Message, now: int)
    requires EngineOk(su, e) && msg.time >= 0
    ensures EngineOk(su, FeedStep(su, e, msg, now))
  {
    FeedCondsOk(su, e, msg);
  }

  lemma BatchOk(su: Setup, e: EngineState, now: int)
    requires EngineOk(su, e)
    ensures EngineOk(su, BatchStep(su, e, now))
  {
    BatchCondsOk(su, e, now);
  }

  /** Every step keeps the engine well formed. */
  lemma NextOk(su: Setup, e: EngineState, a: Action)
    requires EngineOk(su, e) && ActionOk(a)
    ensures EngineOk(su, NextState(su, e, a))
  {
    match a
    case Feed(msg, now) => FeedOk(su, e, msg, now);
    case Batch(now) => BatchOk(su, e, now);
    case EnableRule(r, flag) =>
    case ResetRuleOf(r) => ResetOk(su, e, if r in e.rules then set c | c in su.rules[r].conds else {});
    case ResetCond(c) => ResetOk(su, e, {c});
  }
}
