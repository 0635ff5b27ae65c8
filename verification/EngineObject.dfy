/** The engine object: init_engine, feed and the batch loop of event_worker,
    proved against the one-shot steps of the state machine. */
module EngineObject {
  import opened Options
  import opened Domains
  import opened Ordering
  import opened Where
  import opened Hitmaps
  import opened RuleEval
  import opened RuleFacts
  import opened Notify
  import opened Engine
  import opened Batches
  import opened Registration
  import C = Cells

  /** Every condition's list is the sorted duplicate-free listing of the rules
      that reference it. */
  ghost predicate StatusListsOk(su: Setup, lists: Lists)
  {
    lists.Keys == su.conds.Keys && forall c | c in lists :: lists[c] == Listing(StatusSubscribers(su, c))
  }

  /** The same for the rules whose WHERE clause mentions its sources (targets). */
  ghost predicate DomainListsOk(su: Setup, lists: Lists, arg: Arg)
  {
    lists.Keys == su.conds.Keys && forall c | c in lists :: lists[c] == Listing(DomainSubscribers(su, c, arg))
  }

  class RuleEngine {
    const su: Setup
    var cmap: map<string, CondState>
    var rmap: map<nat, RuleState>
    var queue: multiset<C.TimingEvent>
    const onStatus: Lists
    const onSource: Lists
    const onTarget: Lists

    ghost function State(): EngineState
      reads this
    {
      EngineState(cmap, rmap, queue)
    }

    ghost predicate ListsOk()
    {
      StatusListsOk(su, onStatus) && DomainListsOk(su, onSource, Source) && DomainListsOk(su, onTarget, Target)
    }

    ghost predicate Valid()
      reads this
    {
      EngineOk(su, State()) && ListsOk()
    }

    /** init_engine, after the configuration has been parsed: no table entry, no
        event, the rules' initial boxes, and the rules registered in some order. */
    constructor (su: Setup)
      requires SetupOk(su)
      ensures this.su == su && State() == InitialEngine(su) && Valid()
    {
      var status, source, target := RegisterAll(su);
      this.su := su;
      cmap, queue := map c | c in su.conds :: CondState(EMPTY, 0), multiset{};
      rmap := map r | r in su.rules :: InitialRule(su.rules[r]);
      onStatus, onSource, onTarget := status, source, target;
      new;
      InitialOk(su);
    }

    // ------------------------------------------------------------ feed

    /** The loop over the conditions. */
    method MatchAll(msg: Message) returns (status: seq<string>, source: seq<string>, target: seq<string>)
      requires SetupOk(su) && cmap.Keys == su.conds.Keys
      modifies this`cmap, this`queue
      ensures cmap == FeedConds(su, old(cmap), msg)
      ensures queue == old(queue) + multiset(PushSet(su, old(cmap), msg, old(cmap).Keys))
      ensures Elements(status) == Flipped(su, old(cmap), msg)
      ensures Elements(source) == Extended(su, old(cmap), msg, Source)
      ensures Elements(target) == Extended(su, old(cmap), msg, Target)
    {
      ghost var was, q := cmap, queue;
      status, source, target := [], [], [];
      var rest := cmap.Keys;
      MatchStart(su, was, msg, q);
      while rest != {}
        invariant rest <= was.Keys
        invariant Matched(su, was, msg, rest, q, cmap, queue, status, source, target)
        decreases |rest|
      {
        LeastExists(rest);
        var c :| IsLeast(c, rest);
        status, source, target := MatchOne(c, msg, status, source, target, was, rest, q);
        rest := rest - {c};
      }
      MatchEnd(su, was, msg, q, cmap, queue, status, source, target);
    }

    /** One condition: its new state, the events it queues, and its entry in the
        lists of changes. */
    method MatchOne(c: string, msg: Message, status0: seq<string>, source0: seq<string>, target0: seq<string>,
                    ghost was: map<string, CondState>, ghost rest: set<string>, ghost q: multiset<C.TimingEvent>)
      returns (status: seq<string>, source: seq<string>, target: seq<string>)
      requires SetupOk(su) && was.Keys == su.conds.Keys && rest <= was.Keys && c in rest
      requires Matched(su, was, msg, rest, q, cmap, queue, status0, source0, target0)
      modifies this`cmap, this`queue
      ensures Matched(su, was, msg, rest - {c}, q, cmap, queue, status, source, target)
    {
      MatchStep(su, was, msg, rest, q, cmap, queue, status0, source0, target0, c);
      var r := React(su.conds[c], cmap[c], c, msg);
      cmap := cmap[c := r.state];
      queue := queue + multiset(r.pushed);
      status := status0 + if r.status then [c] else [];
      source := source0 + if r.source then [c] else [];
      target := target0 + if r.target then [c] else [];
    }

    /** evaluate_rules_domain. */
    method EvaluateRulesDomain(list: seq<nat>)
      requires CondsOk(su, cmap) && RulesOk(su, rmap)
      requires StrictlySorted(list) && forall r | r in list :: r in rmap && su.rules[r].where.Some?
      modifies this`rmap
      ensures rmap == Recompiled(su, cmap, old(rmap), Elements(list))
    {
      ghost var was := rmap;
      ghost var done: set<nat> := {};
      RecompiledNone(su, cmap, was);
      for i := 0 to |list|
        invariant done == Elements(list[..i])
        invariant rmap == Recompiled(su, cmap, was, done)
      {
        var r := list[i];
        assert r in list && r !in done && list[..i + 1] == list[..i] + [r];
        RecompiledStep(su, cmap, was, done, r);
        var rule := new Rule.Load(su.rules[r], rmap[r]);
        rule.EvaluateDomain(TablesOf(ViewOf(cmap, su.rules[r])));
        rmap := rmap[r := rule.State()];
        done := done + {r};
      }
      assert list[..|list|] == list;
    }

    /** evaluate_rules: the rules that raise an alarm, in list order. */
    method EvaluateRules(list: seq<nat>, now: int) returns (fired: seq<nat>)
      requires CondsOk(su, cmap) && RulesOk(su, rmap)
      requires StrictlySorted(list) && forall r | r in list :: r in rmap
      modifies this`rmap
      ensures rmap == Evaluated(su, cmap, old(rmap), Elements(list), now)
      ensures fired == Listing(Fired(su, cmap, old(rmap), Elements(list), now))
    {
      ghost var was := rmap;
      ghost var done: set<nat> := {};
      fired := [];
      EvaluatedNone(su, cmap, was, now);
      for i := 0 to |list|
        invariant done == Elements(list[..i])
        invariant Evaluating(su, cmap, was, done, now, rmap, fired)
      {
        assert list[i] in list && list[..i + 1] == list[..i] + [list[i]];
        assert forall x | x in done :: x < list[i];
        fired := EvaluateNext(list[i], now, fired, was, done);
        done := done + {list[i]};
      }
      assert list[..|list|] == list;
      FiredListing(su, cmap, was, done, now, rmap, fired);
    }

    method EvaluateNext(r: nat, now: int, before: seq<nat>, ghost was: map<nat, RuleState>, ghost done: set<nat>)
      returns (fired: seq<nat>)
      requires CondsOk(su, cmap) && RulesOk(su, was) && r in was && forall x | x in done :: x < r
      requires Evaluating(su, cmap, was, done, now, rmap, before)
      modifies this`rmap
      ensures Evaluating(su, cmap, was, done + {r}, now, rmap, fired)
    {
      EvaluatedStep(su, cmap, was, done, r, now);
      EvaluatingStep(su, cmap, was, done, now, rmap, before, r);
      var b := EvaluateOne(r, now);
      fired := before + if b then [r] else [];
    }

    method EvaluateOne(r: nat, now: int) returns (fired: bool)
      requires CondsOk(su, cmap) && RulesOk(su, rmap) && r in rmap
      modifies this`rmap
      ensures HasConds(cmap, su.rules[r])
      ensures rmap == old(rmap)[r := EvalStep(su.rules[r], old(rmap)[r], ViewOf(cmap, su.rules[r]), now).0]
      ensures fired == EvalStep(su.rules[r], old(rmap)[r], ViewOf(cmap, su.rules[r]), now).1
    {
      assert HasConds(cmap, su.rules[r]);
      var rule := new Rule.Load(su.rules[r], rmap[r]);
      fired := rule.Evaluate(ViewOf(cmap, su.rules[r]), now);
      rmap := rmap[r := rule.State()];
    }

    /** From the changed conditions to the rules: recompile, then evaluate. */
    method NotifyRules(status: seq<string>, source: seq<string>, target: seq<string>, now: int)
      returns (fired: seq<nat>)
      requires CondsOk(su, cmap) && RulesOk(su, rmap) && ListsOk()
      requires Elements(status) <= su.conds.Keys && Elements(source) <= su.conds.Keys
      requires Elements(target) <= su.conds.Keys
      modifies this`rmap
      ensures rmap == Rerun(su, cmap, old(rmap), Elements(status), Elements(source), Elements(target), now)
      ensures fired
              == Listing(RerunFired(su, cmap, old(rmap), Elements(status), Elements(source), Elements(target), now))
    {
      var notifyStatus := StatusList(status);
      var notifyDomain := DomainList(source, target);
      EvaluateRulesDomain(notifyDomain);
      fired := EvaluateRules(notifyStatus, now);
    }

    method StatusList(status: seq<string>) returns (list: seq<nat>)
      requires ListsOk() && Elements(status) <= su.conds.Keys
      ensures StrictlySorted(list) && Elements(list) == Subscribed(su, Elements(status))
      ensures forall r | r in list :: r in su.rules
    {
      list := MergeStatusLists(status);
      SubscribedRules(su, Elements(status));
      assert forall r | r in list :: r in Elements(list);
    }

    method MergeStatusLists(status: seq<string>) returns (list: seq<nat>)
      requires StatusListsOk(su, onStatus) && Elements(status) <= su.conds.Keys
      ensures StrictlySorted(list) && Elements(list) == Subscribed(su, Elements(status))
    {
      StatusUnion(su, onStatus, status);
      list := MergeNotifyList([], status, onStatus);
    }

    method DomainList(source: seq<string>, target: seq<string>) returns (list: seq<nat>)
      requires ListsOk() && Elements(source) <= su.conds.Keys && Elements(target) <= su.conds.Keys
      ensures StrictlySorted(list)
      ensures Elements(list) == Watching(su, Elements(source), Source) + Watching(su, Elements(target), Target)
      ensures forall r | r in list :: r in su.rules && su.rules[r].where.Some?
    {
      list := AddDomainList([], source, onSource, Source);
      list := AddDomainList(list, target, onTarget, Target);
      WatchingRules(su, Elements(source), Source);
      WatchingRules(su, Elements(target), Target);
      assert forall r | r in list :: r in Elements(list);
    }

    method AddDomainList(before: seq<nat>, names: seq<string>, lists: Lists, arg: Arg) returns (list: seq<nat>)
      requires StrictlySorted(before) && DomainListsOk(su, lists, arg) && Elements(names) <= su.conds.Keys
      ensures StrictlySorted(list)
      ensures Elements(list) == Elements(before) + Watching(su, Elements(names), arg)
    {
      DomainUnion(su, lists, names, arg);
      list := MergeNotifyList(before, names, lists);
    }

    method Feed(msg: Message, now: int) returns (fired: seq<nat>)
      requires Valid() && msg.time >= 0
      modifies this
      ensures Valid() && State() == FeedStep(su, old(State()), msg, now)
      ensures fired == Listing(FedFired(su, old(State()), msg, now))
    {
      ghost var e := State();
      FeedCondsOk(su, e, msg);
      fired := MatchAndNotify(msg, now);
      FeedOk(su, e, msg, now);
    }

    method MatchAndNotify(msg: Message, now: int) returns (fired: seq<nat>)
      requires Valid() && msg.time >= 0
      requires CondsOk(su, FeedConds(su, cmap, msg))
      modifies this`cmap, this`queue, this`rmap
      ensures State() == FeedStep(su, old(State()), msg, now)
      ensures fired == Listing(FedFired(su, old(State()), msg, now))
    {
      ghost var e := State();
      FlippedKnown(su, cmap, msg);
      var status, source, target := MatchAll(msg);
      fired := NotifyRules(status, source, target, now);
      FeedResult(su, e, msg, now, State(), Elements(status), Elements(source), Elements(target));
    }

    // ------------------------------------------------------------ event_worker

    /** The pop loop: every past-due event, least stamp first. */
    method DeliverDue(now: int) returns (status: seq<string>)
      requires CondsOk(su, cmap) && QueueOk(su, queue)
      modifies this`cmap, this`queue
      ensures cmap == BatchConds(su, old(cmap), old(queue), now)
      ensures queue == Later(old(queue), now)
      ensures Elements(status) == BatchFlipped(su, old(cmap), old(queue), now)
    {
      ghost var was, all := cmap, queue;
      ghost var done: multiset<C.TimingEvent> := multiset{};
      status := [];
      BatchNone(su, was, now);
      while true
        invariant Popped(su, all, queue, done, now)
        invariant Delivering(su, was, done, now, cmap, status)
        decreases |queue|
      {
        if queue == multiset{} { break; }
        var e := Top(queue);
        if e.ts >= now { break; }
        PoppedStep(su, all, queue, done, now, e);
        status := DeliverNext(e, status, now, was, done);
        queue := queue - multiset{e};
        done := done + multiset{e};
      }
      DueOnlyAll(su, was, all, queue, done, now);
    }

    method DeliverNext(e: C.TimingEvent, status: seq<string>, now: int,
                       ghost was: map<string, CondState>, ghost done: multiset<C.TimingEvent>) returns (r: seq<string>)
      requires was.Keys == su.conds.Keys && Delivering(su, was, done, now, cmap, status)
      requires e.cond in was && 1 <= e.ts < now
      modifies this`cmap
      ensures Delivering(su, was, done + multiset{e}, now, cmap, r)
    {
      DeliverStep(su, was, done, now, e);
      var flipped := DeliverOne(e);
      r := status + if flipped then [e.cond] else [];
    }

    /** ma_condition::event on the event's condition. */
    method DeliverOne(e: C.TimingEvent) returns (flipped: bool)
      requires cmap.Keys == su.conds.Keys && e.cond in cmap
      modifies this`cmap
      ensures flipped == EventStep(old(cmap)[e.cond].hm, su.conds[e.cond], e.s, e.t, e.ts).1
      ensures cmap == Delivered(su, old(cmap), e)
    {
      var r := EventStep(cmap[e.cond].hm, su.conds[e.cond], e.s, e.t, e.ts);
      cmap := cmap[e.cond := cmap[e.cond].(hm := r.0)];
      flipped := r.1;
    }

    method EventBatch(now: int) returns (fired: seq<nat>)
      requires Valid()
      modifies this
      ensures Valid() && State() == BatchStep(su, old(State()), now)
      ensures fired == Listing(BatchFired(su, old(State()), now))
    {
      ghost var e := State();
      BatchCondsOk(su, e, now);
      fired := DeliverAndNotify(now);
      BatchOk(su, e, now);
    }

    method DeliverAndNotify(now: int) returns (fired: seq<nat>)
      requires Valid()
      requires CondsOk(su, BatchConds(su, cmap, queue, now))
      modifies this`cmap, this`queue, this`rmap
      ensures State() == BatchStep(su, old(State()), now)
      ensures fired == Listing(BatchFired(su, old(State()), now))
    {
      ghost var e := State();
      BatchFlippedKnown(su, cmap, queue, now);
      var status := DeliverDue(now);
      var list := StatusList(status);
      fired := EvaluateRules(list, now);
      BatchResult(su, e, now, State());
    }
  }

  /** What the rules become when the conditions of `source` and `target` got new
      strings and those of `status` changed their status. */
  ghost function Rerun(su: Setup, conds: map<string, CondState>, rules: map<nat, RuleState>,
                       status: set<string>, source: set<string>, target: set<string>, now: int): map<nat, RuleState>
    requires SetupOk(su) && conds.Keys == su.conds.Keys && RulesOk(su, rules)
  {
    Evaluated(su, conds, Recompiled(su, conds, rules, Watching(su, source, Source) + Watching(su, target, Target)),
              Subscribed(su, status), now)
  }

  ghost function RerunFired(su: Setup, conds: map<string, CondState>, rules: map<nat, RuleState>,
                            status: set<string>, source: set<string>, target: set<string>, now: int): set<nat>
    requires SetupOk(su) && conds.Keys == su.conds.Keys && RulesOk(su, rules)
  {
    Fired(su, conds, Recompiled(su, conds, rules, Watching(su, source, Source) + Watching(su, target, Target)),
          Subscribed(su, status), now)
  }

  // ------------------------------------------------------------- registration

  ghost predicate StatusPart(su: Setup, lists: Lists, done: set<nat>)
  {
    lists.Keys == su.conds.Keys &&
    forall c | c in lists :: Distinct(lists[c]) && Elements(lists[c]) == StatusSubscribers(su, c) * done
  }

  ghost predicate DomainPart(su: Setup, lists: Lists, arg: Arg, done: set<nat>)
  {
    lists.Keys == su.conds.Keys &&
    forall c | c in lists :: Distinct(lists[c]) && Elements(lists[c]) == DomainSubscribers(su, c, arg) * done
  }

  ghost predicate Registered(su: Setup, status: Lists, source: Lists, target: Lists, done: set<nat>)
  {
    StatusPart(su, status, done) && DomainPart(su, source, Source, done) && DomainPart(su, target, Target, done)
  }

  method RegisterAll(su: Setup) returns (status: Lists, source: Lists, target: Lists)
    requires SetupOk(su)
    ensures StatusListsOk(su, status) && DomainListsOk(su, source, Source) && DomainListsOk(su, target, Target)
  {
    status, source, target := RegisterRules(su);
    status := SortStatus(su, status);
    source := SortDomain(su, source, Source);
    target := SortDomain(su, target, Target);
  }

  method RegisterRules(su: Setup) returns (status: Lists, source: Lists, target: Lists)
    requires SetupOk(su)
    ensures Registered(su, status, source, target, su.rules.Keys)
  {
    status := map c | c in su.conds :: [];
    source, target := status, status;
    NoneRegistered(su, status);
    var rest := su.rules.Keys;
    ghost var done: set<nat> := {};
    while rest != {}
      invariant Parted(su.rules.Keys, rest, done)
      invariant Registered(su, status, source, target, done)
      decreases |rest|
    {
      var r :| r in rest;
      status, source, target := RegisterOne(su, status, source, target, done, r);
      MoveOver(su.rules.Keys, rest, done, r);
      rest := rest - {r};
      done := done + {r};
    }
    AllMoved(su.rules.Keys, done);
  }

  ghost predicate Parted(all: set<nat>, rest: set<nat>, done: set<nat>)
  {
    rest <= all && done == all - rest
  }

  lemma MoveOver(all: set<nat>, rest: set<nat>, done: set<nat>, r: nat)
    requires Parted(all, rest, done) && r in rest
    ensures Parted(all, rest - {r}, done + {r}) && r in all && r !in done
  {
  }

  lemma AllMoved(all: set<nat>, done: set<nat>)
    requires Parted(all, {}, done)
    ensures done == all
  {
  }

  lemma NoneRegistered(su: Setup, none: Lists)
    requires none.Keys == su.conds.Keys && forall c | c in none :: none[c] == []
    ensures Registered(su, none, none, none, {})
  {
  }

  method RegisterOne(su: Setup, status: Lists, source: Lists, target: Lists, ghost done: set<nat>, r: nat)
    returns (status': Lists, source': Lists, target': Lists)
    requires SetupOk(su) && r in su.rules && Registered(su, status, source, target, done)
    ensures Registered(su, status', source', target', done + {r})
  {
    status' := RegisterStatus(su, status, done, r);
    source' := RegisterSlots(su, source, Source, done, r);
    target' := RegisterSlots(su, target, Target, done, r);
  }

  method SortStatus(su: Setup, lists: Lists) returns (r: Lists)
    requires StatusPart(su, lists, su.rules.Keys)
    ensures StatusListsOk(su, r)
  {
    AllRegistered(su);
    r := SortAll(lists);
  }

  method SortDomain(su: Setup, lists: Lists, arg: Arg) returns (r: Lists)
    requires DomainPart(su, lists, arg, su.rules.Keys)
    ensures DomainListsOk(su, r, arg)
  {
    AllRegistered(su);
    r := SortAll(lists);
  }

  lemma AllRegistered(su: Setup)
    ensures forall c :: StatusSubscribers(su, c) * su.rules.Keys == StatusSubscribers(su, c)
    ensures forall c, arg :: DomainSubscribers(su, c, arg) * su.rules.Keys == DomainSubscribers(su, c, arg)
  {
  }

  method RegisterStatus(su: Setup, lists: Lists, ghost done: set<nat>, r: nat) returns (after: Lists)
    requires SetupOk(su) && r in su.rules && StatusPart(su, lists, done)
    ensures StatusPart(su, after, done + {r})
  {
    after := RegisterRule(lists, su.rules[r].conds, r);
  }

  method RegisterSlots(su: Setup, lists: Lists, arg: Arg, ghost done: set<nat>, r: nat) returns (after: Lists)
    requires SetupOk(su) && r in su.rules && DomainPart(su, lists, arg, done)
    ensures DomainPart(su, after, arg, done + {r})
  {
    after := RegisterRule(lists, WatchedNames(su.rules[r], arg), r);
  }

  function Delivered(su: Setup, conds: map<string, CondState>, e: C.TimingEvent): map<string, CondState>
    requires conds.Keys == su.conds.Keys && e.cond in conds
  {
    conds[e.cond := conds[e.cond].(hm := EventStep(conds[e.cond].hm, su.conds[e.cond], e.s, e.t, e.ts).0)]
  }

  // ------------------------------------------------------------ subscriptions

  lemma StatusUnion(su: Setup, lists: Lists, conds: seq<string>)
    requires StatusListsOk(su, lists) && Elements(conds) <= su.conds.Keys
    ensures forall c | c in conds :: c in lists && StrictlySorted(lists[c])
    ensures (set c, x | c in conds && x in lists[c] :: x) == Subscribed(su, Elements(conds))
  {
    forall c | c in conds ensures c in lists && lists[c] == Listing(StatusSubscribers(su, c)) {
      assert c in Elements(conds);
    }
  }

  lemma SubscribedRules(su: Setup, conds: set<string>)
    ensures forall r | r in Subscribed(su, conds) :: r in su.rules
  {
  }

  lemma WatchingRules(su: Setup, conds: set<string>, arg: Arg)
    ensures forall r | r in Watching(su, conds, arg) :: r in su.rules && su.rules[r].where.Some?
  {
  }

  lemma DomainUnion(su: Setup, lists: Lists, conds: seq<string>, arg: Arg)
    requires DomainListsOk(su, lists, arg) && Elements(conds) <= su.conds.Keys
    ensures forall c | c in conds :: c in lists && StrictlySorted(lists[c])
    ensures (set c, x | c in conds && x in lists[c] :: x) == Watching(su, Elements(conds), arg)
  {
    forall c | c in conds ensures c in lists && lists[c] == Listing(DomainSubscribers(su, c, arg)) {
      assert c in Elements(conds);
    }
  }

  // ----------------------------------------------------------- feed, step by step

  lemma FlippedKnown(su: Setup, conds: map<string, CondState>, msg: Message)
    requires SetupOk(su) && conds.Keys == su.conds.Keys
    ensures Flipped(su, conds, msg) <= su.conds.Keys
    ensures Extended(su, conds, msg, Source) <= su.conds.Keys && Extended(su, conds, msg, Target) <= su.conds.Keys
  {
  }

  lemma BatchFlippedKnown(su: Setup, conds: map<string, CondState>, queue: multiset<C.TimingEvent>, now: int)
    requires conds.Keys == su.conds.Keys
    ensures BatchFlipped(su, conds, queue, now) <= su.conds.Keys
  {
  }

  lemma FeedResult(su: Setup, e: EngineState, msg: Message, now: int, after: EngineState,
                   status: set<string>, source: set<string>, target: set<string>)
    requires EngineOk(su, e)
    requires status == Flipped(su, e.conds, msg)
    requires source == Extended(su, e.conds, msg, Source) && target == Extended(su, e.conds, msg, Target)
    requires after.conds == FeedConds(su, e.conds, msg)
    requires after.rules == Rerun(su, after.conds, e.rules, status, source, target, now)
    requires after.queue == e.queue + multiset(PushSet(su, e.conds, msg, e.conds.Keys))
    ensures after == FeedStep(su, e, msg, now)
    ensures RerunFired(su, after.conds, e.rules, status, source, target, now) == FedFired(su, e, msg, now)
  {
  }

  lemma BatchResult(su: Setup, e: EngineState, now: int, after: EngineState)
    requires EngineOk(su, e)
    requires after.conds == BatchConds(su, e.conds, e.queue, now)
    requires after.rules
             == Evaluated(su, after.conds, e.rules, Subscribed(su, BatchFlipped(su, e.conds, e.queue, now)), now)
    requires after.queue == Later(e.queue, now)
    ensures after == BatchStep(su, e, now)
  {
  }

  datatype Change = StatusChange | SourceChange | TargetChange

  predicate Changed(su: Setup, was: map<string, CondState>, msg: Message, ch: Change, c: string)
    requires SetupOk(su) && was.Keys == su.conds.Keys && c in was
  {
    var r := React(su.conds[c], was[c], c, msg);
    match ch
    case StatusChange => r.status
    case SourceChange => r.source
    case TargetChange => r.target
  }

  /** A reaction list holds the changed conditions outside `rest`. */
  ghost predicate Reacted(su: Setup, was: map<string, CondState>, msg: Message, rest: set<string>, ch: Change,
                          list: seq<string>)
    requires SetupOk(su) && was.Keys == su.conds.Keys
  {
    forall c :: c in list <==> c in was && c !in rest && Changed(su, was, msg, ch, c)
  }

  lemma ReactedStep(su: Setup, was: map<string, CondState>, msg: Message, rest: set<string>, ch: Change,
                    list: seq<string>, c: string)
    requires SetupOk(su) && was.Keys == su.conds.Keys && c in rest && c in was && Reacted(su, was, msg, rest, ch, list)
    ensures Reacted(su, was, msg, rest - {c}, ch, list + if Changed(su, was, msg, ch, c) then [c] else [])
  {
  }

  /** The state of the matching loop with the conditions of `rest` to go. */
  ghost predicate Matched(su: Setup, was: map<string, CondState>, msg: Message, rest: set<string>,
                          q: multiset<C.TimingEvent>, cmap: map<string, CondState>, queue: multiset<C.TimingEvent>,
                          status: seq<string>, source: seq<string>, target: seq<string>)
    requires SetupOk(su) && was.Keys == su.conds.Keys
  {
    && MatchedConds(su, was, msg, rest, cmap)
    && queue == q + multiset(PushSet(su, was, msg, was.Keys - rest))
    && Reacted(su, was, msg, rest, StatusChange, status)
    && Reacted(su, was, msg, rest, SourceChange, source)
    && Reacted(su, was, msg, rest, TargetChange, target)
  }

  ghost predicate MatchedConds(su: Setup, was: map<string, CondState>, msg: Message, rest: set<string>,
                               cmap: map<string, CondState>)
    requires SetupOk(su) && was.Keys == su.conds.Keys
  {
    cmap.Keys == was.Keys &&
    forall c | c in was :: cmap[c] == if c in rest then was[c] else React(su.conds[c], was[c], c, msg).state
  }

  lemma MatchStart(su: Setup, was: map<string, CondState>, msg: Message, q: multiset<C.TimingEvent>)
    requires SetupOk(su) && was.Keys == su.conds.Keys
    ensures Matched(su, was, msg, was.Keys, q, was, q, [], [], [])
  {
    assert was.Keys - was.Keys == {};
    assert PushSet(su, was, msg, {}) == {};
  }

  lemma MatchStep(su: Setup, was: map<string, CondState>, msg: Message, rest: set<string>, q: multiset<C.TimingEvent>,
                  cmap: map<string, CondState>, queue: multiset<C.TimingEvent>,
                  status: seq<string>, source: seq<string>, target: seq<string>, c: string)
    requires SetupOk(su) && was.Keys == su.conds.Keys && rest <= was.Keys && c in rest
    requires Matched(su, was, msg, rest, q, cmap, queue, status, source, target)
    ensures c in cmap && cmap[c] == was[c]
    ensures var r := React(su.conds[c], was[c], c, msg);
            Matched(su, was, msg, rest - {c}, q, cmap[c := r.state], queue + multiset(r.pushed),
                    status + (if r.status then [c] else []), source + (if r.source then [c] else []),
                    target + (if r.target then [c] else []))
  {
    MatchStepConds(su, was, msg, rest, cmap, c);
    MatchStepQueue(su, was, msg, rest, q, queue, c);
    ReactedStep(su, was, msg, rest, StatusChange, status, c);
    ReactedStep(su, was, msg, rest, SourceChange, source, c);
    ReactedStep(su, was, msg, rest, TargetChange, target, c);
  }

  lemma MatchStepConds(su: Setup, was: map<string, CondState>, msg: Message, rest: set<string>,
                       cmap: map<string, CondState>, c: string)
    requires SetupOk(su) && was.Keys == su.conds.Keys && c in was && c in rest && MatchedConds(su, was, msg, rest, cmap)
    ensures cmap[c] == was[c]
    ensures MatchedConds(su, was, msg, rest - {c}, cmap[c := React(su.conds[c], was[c], c, msg).state])
  {
  }

  lemma MatchStepQueue(su: Setup, was: map<string, CondState>, msg: Message, rest: set<string>,
                       q: multiset<C.TimingEvent>, queue: multiset<C.TimingEvent>, c: string)
    requires SetupOk(su) && was.Keys == su.conds.Keys && rest <= was.Keys && c in rest
    requires queue == q + multiset(PushSet(su, was, msg, was.Keys - rest))
    ensures queue + multiset(React(su.conds[c], was[c], c, msg).pushed)
            == q + multiset(PushSet(su, was, msg, was.Keys - (rest - {c})))
  {
    assert was.Keys - (rest - {c}) == was.Keys - rest + {c};
    PushOne(su, was, msg, was.Keys - rest, c);
  }

  lemma MatchEnd(su: Setup, was: map<string, CondState>, msg: Message, q: multiset<C.TimingEvent>,
                 cmap: map<string, CondState>, queue: multiset<C.TimingEvent>,
                 status: seq<string>, source: seq<string>, target: seq<string>)
    requires SetupOk(su) && was.Keys == su.conds.Keys
    requires Matched(su, was, msg, {}, q, cmap, queue, status, source, target)
    ensures cmap == FeedConds(su, was, msg)
    ensures queue == q + multiset(PushSet(su, was, msg, was.Keys))
    ensures Elements(status) == Flipped(su, was, msg)
    ensures Elements(source) == Extended(su, was, msg, Source)
    ensures Elements(target) == Extended(su, was, msg, Target)
  {
    assert was.Keys - {} == was.Keys;
    assert forall c :: c in status <==> c in was && Changed(su, was, msg, StatusChange, c);
    assert forall c :: c in source <==> c in was && Changed(su, was, msg, SourceChange, c);
    assert forall c :: c in target <==> c in was && Changed(su, was, msg, TargetChange, c);
  }

  lemma PushOne(su: Setup, conds: map<string, CondState>, msg: Message, names: set<string>, c: string)
    requires SetupOk(su) && conds.Keys == su.conds.Keys && names <= conds.Keys && c in conds && c !in names
    ensures multiset(PushSet(su, conds, msg, names + {c}))
            == multiset(PushSet(su, conds, msg, names)) + multiset(React(su.conds[c], conds[c], c, msg).pushed)
  {
    PushUnion(su, conds, msg, names, c);
    PushApart(su, conds, msg, names, c);
    Disjoint(PushSet(su, conds, msg, names), React(su.conds[c], conds[c], c, msg).pushed);
  }

  lemma PushUnion(su: Setup, conds: map<string, CondState>, msg: Message, names: set<string>, c: string)
    requires SetupOk(su) && conds.Keys == su.conds.Keys && names <= conds.Keys && c in conds
    ensures PushSet(su, conds, msg, names + {c})
            == PushSet(su, conds, msg, names) + React(su.conds[c], conds[c], c, msg).pushed
  {
  }

  lemma PushApart(su: Setup, conds: map<string, CondState>, msg: Message, names: set<string>, c: string)
    requires SetupOk(su) && conds.Keys == su.conds.Keys && names <= conds.Keys && c in conds && c !in names
    ensures PushSet(su, conds, msg, names) !! React(su.conds[c], conds[c], c, msg).pushed
  {
    forall e | e in PushSet(su, conds, msg, names) ensures e.cond != c {
      var d :| d in names && e in React(su.conds[d], conds[d], d, msg).pushed;
      assert e.cond == d;
    }
  }

  lemma Disjoint(a: set<C.TimingEvent>, b: set<C.TimingEvent>)
    requires a !! b
    ensures multiset(a + b) == multiset(a) + multiset(b)
  {
  }

  lemma RecompiledNone(su: Setup, conds: map<string, CondState>, rules: map<nat, RuleState>)
    requires SetupOk(su) && conds.Keys == su.conds.Keys && RulesOk(su, rules)
    ensures Recompiled(su, conds, rules, {}) == rules
  {
  }

  lemma RecompiledStep(su: Setup, conds: map<string, CondState>, rules: map<nat, RuleState>, done: set<nat>, r: nat)
    requires SetupOk(su) && conds.Keys == su.conds.Keys && RulesOk(su, rules) && r in rules && r !in done
    ensures HasConds(conds, su.rules[r])
    ensures Recompiled(su, conds, rules, done)[r] == rules[r]
    ensures Recompiled(su, conds, rules, done + {r})
            == Recompiled(su, conds, rules, done)
               [r := RecompiledRule(su.rules[r], rules[r], ViewOf(conds, su.rules[r]))]
  {
    assert HasConds(conds, su.rules[r]);
  }

  lemma EvaluatedNone(su: Setup, conds: map<string, CondState>, rules: map<nat, RuleState>, now: int)
    requires SetupOk(su) && conds.Keys == su.conds.Keys && RulesOk(su, rules)
    ensures Evaluated(su, conds, rules, {}, now) == rules && Fired(su, conds, rules, {}, now) == {}
  {
  }

  lemma EvaluatedStep(su: Setup, conds: map<string, CondState>, rules: map<nat, RuleState>, done: set<nat>, r: nat,
                      now: int)
    requires SetupOk(su) && conds.Keys == su.conds.Keys && RulesOk(su, rules) && r in rules && r !in done
    ensures HasConds(conds, su.rules[r])
    ensures Evaluated(su, conds, rules, done, now)[r] == rules[r]
    ensures Evaluated(su, conds, rules, done + {r}, now)
            == Evaluated(su, conds, rules, done, now)
               [r := EvalStep(su.rules[r], rules[r], ViewOf(conds, su.rules[r]), now).0]
  {
    assert HasConds(conds, su.rules[r]);
  }

  lemma FiredStep(su: Setup, conds: map<string, CondState>, rules: map<nat, RuleState>, done: set<nat>, r: nat,
                  now: int)
    requires SetupOk(su) && conds.Keys == su.conds.Keys && RulesOk(su, rules) && r in rules && r !in done
    requires HasConds(conds, su.rules[r])
    ensures Fired(su, conds, rules, done, now) <= done
    ensures Fired(su, conds, rules, done + {r}, now) == Fired(su, conds, rules, done, now) +
            if EvalStep(su.rules[r], rules[r], ViewOf(conds, su.rules[r]), now).1 then {r} else {}
  {
  }

  /** The rules after the evaluation of those in `done`, and those that fired. */
  ghost predicate Evaluating(su: Setup, conds: map<string, CondState>, was: map<nat, RuleState>, done: set<nat>,
                             now: int, rules: map<nat, RuleState>, fired: seq<nat>)
    requires SetupOk(su) && conds.Keys == su.conds.Keys && RulesOk(su, was)
  {
    && rules == Evaluated(su, conds, was, done, now)
    && StrictlySorted(fired) && Elements(fired) == Fired(su, conds, was, done, now)
  }

  lemma EvaluatingStep(su: Setup, conds: map<string, CondState>, was: map<nat, RuleState>, done: set<nat>, now: int,
                       rules: map<nat, RuleState>, fired: seq<nat>, r: nat)
    requires SetupOk(su) && conds.Keys == su.conds.Keys && RulesOk(su, was)
    requires Evaluating(su, conds, was, done, now, rules, fired)
    requires r in was && HasConds(conds, su.rules[r]) && forall x | x in done :: x < r
    ensures var step := EvalStep(su.rules[r], was[r], ViewOf(conds, su.rules[r]), now);
            Evaluating(su, conds, was, done + {r}, now, rules[r := step.0], fired + if step.1 then [r] else [])
  {
    EvaluatedStep(su, conds, was, done, r, now);
    FiredStep(su, conds, was, done, r, now);
    SnocSorted(fired, done, r);
  }

  lemma SnocSorted(fired: seq<nat>, done: set<nat>, r: nat)
    requires StrictlySorted(fired) && Elements(fired) <= done && forall x | x in done :: x < r
    ensures StrictlySorted(fired + [r]) && Elements(fired + [r]) == Elements(fired) + {r}
  {
    forall j | 0 <= j < |fired| ensures fired[j] < r {
      assert fired[j] in Elements(fired);
    }
  }

  lemma FiredListing(su: Setup, conds: map<string, CondState>, was: map<nat, RuleState>, done: set<nat>, now: int,
                     rules: map<nat, RuleState>, fired: seq<nat>)
    requires SetupOk(su) && conds.Keys == su.conds.Keys && RulesOk(su, was)
    requires Evaluating(su, conds, was, done, now, rules, fired)
    ensures fired == Listing(Fired(su, conds, was, done, now))
  {
    assert forall x :: x in fired <==> x in Elements(fired);
    ListingUnique(fired, Fired(su, conds, was, done, now));
  }

  // ---------------------------------------------------------- batch, step by step

  lemma BatchNone(su: Setup, conds: map<string, CondState>, now: int)
    requires conds.Keys == su.conds.Keys
    ensures BatchConds(su, conds, multiset{}, now) == conds && BatchFlipped(su, conds, multiset{}, now) == {}
  {
    forall c | c in conds ensures BatchCond(su.conds[c], conds[c], multiset{}, now, c) == conds[c] {
      assert BatchCond(su.conds[c], conds[c], multiset{}, now, c).hm.cells == conds[c].hm.cells;
    }
  }

  lemma DeliverStep(su: Setup, conds: map<string, CondState>, done: multiset<C.TimingEvent>, now: int, e: C.TimingEvent)
    requires conds.Keys == su.conds.Keys && e.cond in conds && 1 <= e.ts < now
    ensures BatchConds(su, conds, done + multiset{e}, now) == Delivered(su, BatchConds(su, conds, done, now), e)
    ensures BatchFlipped(su, conds, done + multiset{e}, now) == BatchFlipped(su, conds, done, now) +
            if EventStep(BatchConds(su, conds, done, now)[e.cond].hm, su.conds[e.cond], e.s, e.t, e.ts).1
            then {e.cond} else {}
  {
    DeliverStepConds(su, conds, done, now, e);
    DeliverStepFlips(su, conds, done, now, e);
  }

  lemma DeliverStepConds(su: Setup, conds: map<string, CondState>, done: multiset<C.TimingEvent>, now: int,
                         e: C.TimingEvent)
    requires conds.Keys == su.conds.Keys && e.cond in conds && 1 <= e.ts < now
    ensures BatchConds(su, conds, done + multiset{e}, now) == Delivered(su, BatchConds(su, conds, done, now), e)
  {
    forall c | c in conds && c != e.cond
      ensures BatchCond(su.conds[c], conds[c], done + multiset{e}, now, c)
              == BatchCond(su.conds[c], conds[c], done, now, c)
    {
      DeliverOther(su.conds[c], conds[c], done, now, e, c);
    }
    DeliverCond(su.conds[e.cond], conds[e.cond], done, now, e);
  }

  lemma DeliverStepFlips(su: Setup, conds: map<string, CondState>, done: multiset<C.TimingEvent>, now: int,
                         e: C.TimingEvent)
    requires conds.Keys == su.conds.Keys && e.cond in conds && 1 <= e.ts < now
    ensures BatchFlipped(su, conds, done + multiset{e}, now) == BatchFlipped(su, conds, done, now) +
            if EventStep(BatchConds(su, conds, done, now)[e.cond].hm, su.conds[e.cond], e.s, e.t, e.ts).1
            then {e.cond} else {}
  {
    forall c | c in conds && c != e.cond
      ensures CondFlipped(su.conds[c], conds[c], done + multiset{e}, now, c) <==>
              CondFlipped(su.conds[c], conds[c], done, now, c)
    {
      FlippedOther(su.conds[c], conds[c], done, now, e, c);
    }
    DeliverFlips(su.conds[e.cond], conds[e.cond], done, now, e);
  }

  lemma FlippedOther(cfg: C.Config, cs: CondState, done: multiset<C.TimingEvent>, now: int, e: C.TimingEvent, c: string)
    requires c != e.cond
    ensures CondFlipped(cfg, cs, done + multiset{e}, now, c) <==> CondFlipped(cfg, cs, done, now, c)
  {
    forall k | k in cs.hm.cells
      ensures BatchCell(cfg, cs.hm.cells[k], done + multiset{e}, now, c, k.0, k.1)
              == BatchCell(cfg, cs.hm.cells[k], done, now, c, k.0, k.1)
    {
      assert C.TimingEvent(cs.hm.cells[k].tEvent, c, k.0, k.1) != e;
    }
  }

  /** The conditions after the events of `done`, and those among them that flipped. */
  ghost predicate Delivering(su: Setup, was: map<string, CondState>, done: multiset<C.TimingEvent>, now: int,
                             conds: map<string, CondState>, status: seq<string>)
    requires was.Keys == su.conds.Keys
  {
    conds == BatchConds(su, was, done, now) && Elements(status) == BatchFlipped(su, was, done, now)
  }

  /** `done` are the events taken out so far, all of them past due. */
  ghost predicate Popped(su: Setup, all: multiset<C.TimingEvent>, queue: multiset<C.TimingEvent>,
                         done: multiset<C.TimingEvent>, now: int)
  {
    QueueOk(su, all) && all == queue + done && forall e | e in done :: e.ts < now
  }

  lemma PoppedStep(su: Setup, all: multiset<C.TimingEvent>, queue: multiset<C.TimingEvent>,
                   done: multiset<C.TimingEvent>, now: int, e: C.TimingEvent)
    requires Popped(su, all, queue, done, now) && e in queue && e.ts < now
    ensures Popped(su, all, queue - multiset{e}, done + multiset{e}, now)
    ensures e.ts >= 1 && e.cond in su.conds
    ensures |queue - multiset{e}| < |queue|
  {
    assert e in all;
  }

  lemma DueOnlyAll(su: Setup, conds: map<string, CondState>, all: multiset<C.TimingEvent>,
                   queue: multiset<C.TimingEvent>, done: multiset<C.TimingEvent>, now: int)
    requires conds.Keys == su.conds.Keys && Popped(su, all, queue, done, now)
    requires forall e | e in queue :: e.ts >= now
    ensures queue == Later(all, now)
    ensures BatchConds(su, conds, done, now) == BatchConds(su, conds, all, now)
    ensures BatchFlipped(su, conds, done, now) == BatchFlipped(su, conds, all, now)
  {
    LaterUnique(all, done, queue, now);
    DueBatch(su, conds, all, done, now);
  }

  lemma DueBatch(su: Setup, conds: map<string, CondState>, all: multiset<C.TimingEvent>, done: multiset<C.TimingEvent>,
                 now: int)
    requires conds.Keys == su.conds.Keys
    requires forall e: C.TimingEvent | e.ts < now :: e in done <==> e in all
    ensures BatchConds(su, conds, done, now) == BatchConds(su, conds, all, now)
    ensures BatchFlipped(su, conds, done, now) == BatchFlipped(su, conds, all, now)
  {
    forall c | c in conds
      ensures BatchCond(su.conds[c], conds[c], done, now, c) == BatchCond(su.conds[c], conds[c], all, now, c)
      ensures CondFlipped(su.conds[c], conds[c], done, now, c) <==> CondFlipped(su.conds[c], conds[c], all, now, c)
    {
      DueOnly(su.conds[c], conds[c], done, all, now, c);
    }
  }
}
