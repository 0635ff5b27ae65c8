/** The cells by name: each holds exactly the messages its condition accepted for
    its pair of names since the last reset. */
module EngineMessages {
  import opened Options
  import opened Domains
  import opened Where
  import opened WhereFacts
  import opened Hitmaps
  import opened Rules
  import opened RuleEval
  import opened RuleFacts
  import opened Engine
  import opened EngineFacts
  import opened CellWindows
  import opened ClearedTables
  import opened EngineWindows
  import C = Cells

  // ------------------------------------------------------------------- hearing

  /** The message counts for the names x and y at a condition with these settings. */
  predicate Counts(cfg: C.Config, c: string, msg: Message, x: string, y: string)
  {
    && c in msg.accepts
    && TableKey(cfg.perSource, msg.accepts[c].0, GLOBAL_S) == x
    && TableKey(cfg.perTarget, msg.accepts[c].1, GLOBAL_T) == y
  }

  /** What one action adds to the past of a pair of names. */
  function HearStep(su: Setup, p: Past, a: Action, c: string, x: string, y: string): Past
    requires c in su.conds
  {
    match a
    case Feed(msg, _) => if Counts(su.conds[c], c, msg, x, y) then WithHit(p, msg.time) else p
    case Batch(now) => WithCheck(p, now)
    case _ => if ResetsCond(su, a, c) then Past([], []) else p
  }

  /** The times of the messages that condition c accepted for the names x and y,
      and the batches, since its last reset. It speaks of messages alone. */
  function Heard(su: Setup, acts: seq<Action>, c: string, x: string, y: string): Past
    requires c in su.conds
  {
    if acts == [] then Past([], [])
    else HearStep(su, Heard(su, acts[..|acts| - 1], c, x, y), acts[|acts| - 1], c, x, y)
  }

  /** The past of a pair of names that no message counted for. */
  function SilentStep(su: Setup, p: Past, a: Action, c: string): Past
  {
    match a
    case Feed(_, _) => p
    case Batch(now) => WithCheck(p, now)
    case _ => if ResetsCond(su, a, c) then Past([], []) else p
  }

  function Silent(su: Setup, acts: seq<Action>, c: string): (p: Past)
    ensures p.hits == []
  {
    if acts == [] then Past([], []) else SilentStep(su, Silent(su, acts[..|acts| - 1], c), acts[|acts| - 1], c)
  }

  // ------------------------------------------------------------------ agreement

  /** The cell pasts of condition c, by index, and the pasts by name: registered
      pairs agree, and neither other names nor other indices were hit. */
  ghost predicate Agrees(tables: Tables, past: CellId -> Past, heard: (string, string) -> Past, silent: Past, c: string)
  {
    && (forall x, y :: heard(x, y) ==
          if x in tables.src && y in tables.tgt then past(CellId(c, tables.src[x], tables.tgt[y])) else silent)
    && (forall s: nat, t: nat | s >= |tables.src| || t >= |tables.tgt| :: past(CellId(c, s, t)) == silent)
  }

  // --------------------------------------------------------- one condition's step

  /** What one action makes of the tables of condition c. */
  function TablesStep(su: Setup, T: Tables, a: Action, c: string): Tables
    requires c in su.conds
  {
    match a
    case Feed(msg, _) =>
      if c in msg.accepts then
        var cfg, filed := su.conds[c], msg.accepts[c];
        Tables(Register(T.src, cfg.perSource, filed.0, GLOBAL_S).0, Register(T.tgt, cfg.perTarget, filed.1, GLOBAL_T).0)
      else T
    case Batch(_) => T
    case _ => if ResetsCond(su, a, c) then NO_NAMES else T
  }

  /** The message is filed under the cell's indices. */
  predicate FiledAt(cfg: C.Config, T: Tables, msg: Message, id: CellId)
  {
    && id.cond in msg.accepts
    && Register(T.src, cfg.perSource, msg.accepts[id.cond].0, GLOBAL_S).1 == id.s
    && Register(T.tgt, cfg.perTarget, msg.accepts[id.cond].1, GLOBAL_T).1 == id.t
  }

  /** What one action adds to the past of a cell. */
  function PastStep(su: Setup, T: Tables, p: Past, a: Action, id: CellId): Past
    requires id.cond in su.conds
  {
    match a
    case Feed(msg, _) => if FiledAt(su.conds[id.cond], T, msg, id) then WithHit(p, msg.time) else p
    case Batch(now) => WithCheck(p, now)
    case _ => if ResetsCond(su, a, id.cond) then Past([], []) else p
  }

  lemma ReactTables(su: Setup, cs: CondState, msg: Message, now: int, c: string)
    requires c in su.conds && su.conds[c].Ok()
    ensures React(su.conds[c], cs, c, msg).state.hm.tables == TablesStep(su, cs.hm.tables, Action.Feed(msg, now), c)
  {
  }

  lemma FedCond(su: Setup, e: EngineState, msg: Message, now: int, c: string)
    requires EngineOk(su, e) && c in su.conds
    ensures c in FeedStep(su, e, msg, now).conds
    ensures FeedStep(su, e, msg, now).conds[c] == React(su.conds[c], e.conds[c], c, msg).state
  {
  }

  lemma BatchedCond(su: Setup, e: EngineState, now: int, c: string)
    requires EngineOk(su, e) && c in su.conds
    ensures c in BatchStep(su, e, now).conds
    ensures BatchStep(su, e, now).conds[c] == BatchCond(su.conds[c], e.conds[c], e.queue, now, c)
  {
  }

  lemma CommandCond(su: Setup, e: EngineState, a: Action, c: string)
    requires EngineOk(su, e) && !a.Feed? && !a.Batch? && c in su.conds
    ensures c in NextState(su, e, a).conds
    ensures NextState(su, e, a).conds[c] == if ResetsCond(su, a, c) then CondState(EMPTY, 0) else e.conds[c]
  {
    CommandConds(su, e, a);
  }

  /** The tables of a condition after a step. */
  lemma NextTables(su: Setup, e: EngineState, a: Action, c: string)
    requires EngineOk(su, e) && c in su.conds
    ensures c in NextState(su, e, a).conds
    ensures NextState(su, e, a).conds[c].hm.tables == TablesStep(su, e.conds[c].hm.tables, a, c)
  {
    match a
    case Feed(msg, now) =>
      FedCond(su, e, msg, now, c);
      ReactTables(su, e.conds[c], msg, now, c);
    case Batch(now) => BatchedCond(su, e, now, c);
    case _ => CommandCond(su, e, a, c);
  }

  lemma FedPast(su: Setup, e: EngineState, h: History, msg: Message, now: int, id: CellId)
    requires EngineOk(su, e) && id.cond in su.conds
    ensures NextHistory(su, e, h, Action.Feed(msg, now)).past(id)
            == PastStep(su, e.conds[id.cond].hm.tables, h.past(id), Action.Feed(msg, now), id)
  {
    assert Hit(su, e.conds, msg, id) <==> FiledAt(su.conds[id.cond], e.conds[id.cond].hm.tables, msg, id);
  }

  lemma ResetPast(su: Setup, e: EngineState, h: History, a: Action, id: CellId)
    requires EngineOk(su, e) && id.cond in su.conds && !a.Feed? && !a.Batch?
    ensures NextHistory(su, e, h, a).past(id) == if ResetsCond(su, a, id.cond) then Past([], []) else h.past(id)
  {
  }

  /** The past of a cell after a step. */
  lemma NextPast(su: Setup, e: EngineState, h: History, a: Action, id: CellId)
    requires EngineOk(su, e) && id.cond in su.conds
    ensures NextHistory(su, e, h, a).past(id) == PastStep(su, e.conds[id.cond].hm.tables, h.past(id), a, id)
  {
    match a
    case Feed(msg, now) => FedPast(su, e, h, msg, now, id);
    case Batch(now) =>
    case _ => ResetPast(su, e, h, a, id);
  }

  // -------------------------------------------------------------- agreement kept

  /** Where a pair of names stands when the message's keys are looked up. */
  lemma KeyPair(tables: Tables, cfg: C.Config, c: string, msg: Message, x: string, y: string)
    requires TableOk(tables.src, cfg.perSource, GLOBAL_S) && TableOk(tables.tgt, cfg.perTarget, GLOBAL_T)
    requires c in msg.accepts
    ensures var (src, i) := Register(tables.src, cfg.perSource, msg.accepts[c].0, GLOBAL_S);
            var (tgt, j) := Register(tables.tgt, cfg.perTarget, msg.accepts[c].1, GLOBAL_T);
            && (x in src && y in tgt ==> (src[x] == i && tgt[y] == j <==> Counts(cfg, c, msg, x, y)))
            && (x in tables.src ==> x in src && src[x] == tables.src[x])
            && (y in tables.tgt ==> y in tgt && tgt[y] == tables.tgt[y])
            && (x in src && x !in tables.src ==> src[x] >= |tables.src|)
            && (y in tgt && y !in tables.tgt ==> tgt[y] >= |tables.tgt|)
            && (x !in src || y !in tgt ==> !Counts(cfg, c, msg, x, y))
            && i < |src| && j < |tgt| && |tables.src| <= |src| && |tables.tgt| <= |tgt|
  {
    AxisFacts(tables.src, cfg.perSource, msg.accepts[c].0, GLOBAL_S);
    AxisFacts(tables.tgt, cfg.perTarget, msg.accepts[c].1, GLOBAL_T);
  }

  /** A hit on the cell of a key pair, new or known. */
  lemma HitAgrees(tables: Tables, past: CellId -> Past, heard: (string, string) -> Past, silent: Past, c: string,
                  cfg: C.Config, msg: Message, past': CellId -> Past, heard': (string, string) -> Past)
    requires TableOk(tables.src, cfg.perSource, GLOBAL_S) && TableOk(tables.tgt, cfg.perTarget, GLOBAL_T)
    requires Agrees(tables, past, heard, silent, c) && c in msg.accepts
    requires forall x, y ::
      heard'(x, y) == if Counts(cfg, c, msg, x, y) then WithHit(heard(x, y), msg.time) else heard(x, y)
    requires var i := Register(tables.src, cfg.perSource, msg.accepts[c].0, GLOBAL_S).1;
             var j := Register(tables.tgt, cfg.perTarget, msg.accepts[c].1, GLOBAL_T).1;
             forall s: nat, t: nat :: past'(CellId(c, s, t)) ==
               if s == i && t == j then WithHit(past(CellId(c, s, t)), msg.time) else past(CellId(c, s, t))
    ensures var src := Register(tables.src, cfg.perSource, msg.accepts[c].0, GLOBAL_S).0;
            var tgt := Register(tables.tgt, cfg.perTarget, msg.accepts[c].1, GLOBAL_T).0;
            Agrees(Tables(src, tgt), past', heard', silent, c)
  {
    var (src, i) := Register(tables.src, cfg.perSource, msg.accepts[c].0, GLOBAL_S);
    var (tgt, j) := Register(tables.tgt, cfg.perTarget, msg.accepts[c].1, GLOBAL_T);
    forall x, y
      ensures heard'(x, y) == if x in src && y in tgt then past'(CellId(c, src[x], tgt[y])) else silent
    {
      KeyPair(tables, cfg, c, msg, x, y);
      if x in src && y in tgt { assert heard(x, y) == past(CellId(c, src[x], tgt[y])); }
    }
    KeyPair(tables, cfg, c, msg, "", "");
  }

  ghost predicate TablesFit(cfg: C.Config, T: Tables)
  {
    TableOk(T.src, cfg.perSource, GLOBAL_S) && TableOk(T.tgt, cfg.perTarget, GLOBAL_T)
  }

  /** One action keeps the agreement. */
  lemma StepAgrees(su: Setup, T: Tables, a: Action, c: string, past: CellId -> Past, past': CellId -> Past,
                   heard: (string, string) -> Past, heard': (string, string) -> Past, silent: Past)
    requires c in su.conds && TablesFit(su.conds[c], T) && Agrees(T, past, heard, silent, c)
    requires forall s: nat, t: nat ::
      past'(CellId(c, s, t)) == PastStep(su, T, past(CellId(c, s, t)), a, CellId(c, s, t))
    requires forall x, y :: heard'(x, y) == HearStep(su, heard(x, y), a, c, x, y)
    ensures Agrees(TablesStep(su, T, a, c), past', heard', SilentStep(su, silent, a, c), c)
  {
    if a.Feed? && c in a.msg.accepts {
      HitAgrees(T, past, heard, silent, c, su.conds[c], a.msg, past', heard');
    }
  }

  ghost function HeardBy(su: Setup, acts: seq<Action>, c: string): (string, string) -> Past
    requires c in su.conds
  {
    (x, y) => Heard(su, acts, c, x, y)
  }

  /** In condition c of this state, the cells of registered names hold what was
      heard for those names; for other names nothing was. */
  ghost predicate HoldsHeard(su: Setup, acts: seq<Action>, e: EngineState, h: History, c: string)
    requires c in su.conds
  {
    c in e.conds && Agrees(e.conds[c].hm.tables, h.past, HeardBy(su, acts, c), Silent(su, acts, c), c)
  }

  lemma NextHolds(su: Setup, acts: seq<Action>, e: EngineState, h: History, c: string)
    requires EngineOk(su, e) && c in su.conds && acts != [] && HoldsHeard(su, acts[..|acts| - 1], e, h, c)
    ensures HoldsHeard(su, acts, NextState(su, e, acts[|acts| - 1]), NextHistory(su, e, h, acts[|acts| - 1]), c)
  {
    var front, a := acts[..|acts| - 1], acts[|acts| - 1];
    var T, past' := e.conds[c].hm.tables, NextHistory(su, e, h, a).past;
    assert CondStateOk(su.conds[c], e.conds[c]);
    NextTables(su, e, a, c);
    forall s: nat, t: nat
      ensures past'(CellId(c, s, t)) == PastStep(su, T, h.past(CellId(c, s, t)), a, CellId(c, s, t))
    {
      NextPast(su, e, h, a, CellId(c, s, t));
    }
    StepAgrees(su, T, a, c, h.past, past', HeardBy(su, front, c), HeardBy(su, acts, c), Silent(su, front, c));
  }

  /** In every run the cells of registered names hold what was heard for those
      names; for other names nothing was. */
  lemma {:induction false} RunHeard(su: Setup, acts: seq<Action>, c: string)
    requires SetupOk(su) && ActionsOk(acts) && c in su.conds
    ensures HoldsHeard(su, acts, Run(su, acts), RunHistory(su, acts), c)
    decreases |acts|
  {
    if acts == [] {
    } else {
      RunHeard(su, acts[..|acts| - 1], c);
      NextHolds(su, acts, Run(su, acts[..|acts| - 1]), RunHistory(su, acts[..|acts| - 1]), c);
    }
  }

  // ----------------------------------------------------------------- names heard

  /** The names under which condition c filed messages since its last reset, in
      the order in which they first came. */
  function NamesHeard(su: Setup, acts: seq<Action>, c: string, arg: Arg): seq<string>
    requires c in su.conds
  {
    if acts == [] then []
    else NamesStep(su, NamesHeard(su, acts[..|acts| - 1], c, arg), acts[|acts| - 1], c, arg)
  }

  function NamesStep(su: Setup, names: seq<string>, a: Action, c: string, arg: Arg): seq<string>
    requires c in su.conds
  {
    match a
    case Feed(msg, _) => if c in msg.accepts then Joined(names, KeyOf(su.conds[c], msg.accepts[c], arg)) else names
    case Batch(_) => names
    case _ => if ResetsCond(su, a, c) then [] else names
  }

  function Joined(names: seq<string>, x: string): seq<string>
  {
    if x in names then names else names + [x]
  }

  function KeyOf(cfg: C.Config, filed: (string, string), arg: Arg): string
  {
    if arg == Source then TableKey(cfg.perSource, filed.0, GLOBAL_S) else TableKey(cfg.perTarget, filed.1, GLOBAL_T)
  }

  /** The place of a name in a list. */
  function Position(names: seq<string>, x: string): (i: nat)
    requires x in names
    ensures i < |names| && names[i] == x
  {
    if names[0] == x then 0 else 1 + Position(names[1..], x)
  }

  /** The table gives each name of the list its place, and knows no other. */
  ghost predicate Numbers(m: map<string, nat>, names: seq<string>)
  {
    && |m| == |names| && (forall x :: x in m <==> x in names)
    && (forall i | 0 <= i < |names| :: m[names[i]] == i)
  }

  lemma NumbersPosition(m: map<string, nat>, names: seq<string>, x: string)
    requires Numbers(m, names) && x in names
    ensures m[x] == Position(names, x)
  {
  }

  lemma RegisterNumbers(m: map<string, nat>, perName: bool, name: string, shared: string, names: seq<string>)
    requires TableOk(m, perName, shared) && Numbers(m, names)
    ensures Numbers(Register(m, perName, name, shared).0, Joined(names, TableKey(perName, name, shared)))
  {
    var key := TableKey(perName, name, shared);
    RegisterAppends(m, perName, name, shared);
    if key !in m {
      assert forall x :: x in names + [key] <==> x in names || x == key;
    }
  }

  lemma StepNumbers(su: Setup, T: Tables, a: Action, c: string, arg: Arg, names: seq<string>)
    requires c in su.conds && TablesFit(su.conds[c], T) && Numbers(T.Of(arg), names)
    ensures Numbers(TablesStep(su, T, a, c).Of(arg), NamesStep(su, names, a, c, arg))
  {
    if a.Feed? && c in a.msg.accepts {
      var cfg, filed := su.conds[c], a.msg.accepts[c];
      if arg == Source {
        RegisterNumbers(T.src, cfg.perSource, filed.0, GLOBAL_S, names);
      } else {
        RegisterNumbers(T.tgt, cfg.perTarget, filed.1, GLOBAL_T, names);
      }
    }
  }

  /** In every run a table gives the names heard since the last reset their places
      in the order in which they first came, and holds no other. */
  lemma {:induction false} RunNames(su: Setup, acts: seq<Action>, c: string, arg: Arg)
    requires SetupOk(su) && ActionsOk(acts) && c in su.conds
    ensures c in Run(su, acts).conds && Numbers(Run(su, acts).conds[c].hm.tables.Of(arg), NamesHeard(su, acts, c, arg))
    decreases |acts|
  {
    if acts == [] {
    } else {
      var front, a := acts[..|acts| - 1], acts[|acts| - 1];
      RunNames(su, front, c, arg);
      var e := Run(su, front);
      assert CondStateOk(su.conds[c], e.conds[c]);
      NextTables(su, e, a, c);
      StepNumbers(su, e.conds[c].hm.tables, a, c, arg, NamesHeard(su, front, c, arg));
    }
  }

  // ------------------------------------------------------------- messages caught

  /** How many messages condition c accepted since its last reset. */
  function Accepted(su: Setup, acts: seq<Action>, c: string): nat
  {
    if acts == [] then 0 else AcceptStep(su, Accepted(su, acts[..|acts| - 1], c), acts[|acts| - 1], c)
  }

  function AcceptStep(su: Setup, n: nat, a: Action, c: string): nat
  {
    match a
    case Feed(msg, _) => if c in msg.accepts then n + 1 else n
    case Batch(_) => n
    case _ => if ResetsCond(su, a, c) then 0 else n
  }

  lemma FedCaught(su: Setup, e: EngineState, msg: Message, now: int, c: string)
    requires EngineOk(su, e) && c in su.conds
    ensures c in FeedStep(su, e, msg, now).conds
    ensures FeedStep(su, e, msg, now).conds[c].caught
            == if c in msg.accepts then e.conds[c].caught + 1 else e.conds[c].caught
  {
    FedCond(su, e, msg, now, c);
  }

  lemma BatchedCaught(su: Setup, e: EngineState, now: int, c: string)
    requires EngineOk(su, e) && c in su.conds
    ensures c in BatchStep(su, e, now).conds && BatchStep(su, e, now).conds[c].caught == e.conds[c].caught
  {
  }

  lemma CommandCaught(su: Setup, e: EngineState, a: Action, c: string)
    requires EngineOk(su, e) && c in su.conds && !a.Feed? && !a.Batch?
    ensures c in NextState(su, e, a).conds
    ensures NextState(su, e, a).conds[c].caught == if ResetsCond(su, a, c) then 0 else e.conds[c].caught
  {
    CommandConds(su, e, a);
  }

  lemma NextCaught(su: Setup, e: EngineState, a: Action, c: string)
    requires EngineOk(su, e) && c in su.conds
    ensures c in NextState(su, e, a).conds
    ensures NextState(su, e, a).conds[c].caught == AcceptStep(su, e.conds[c].caught, a, c)
  {
    match a
    case Feed(msg, now) => FedCaught(su, e, msg, now, c);
    case Batch(now) => BatchedCaught(su, e, now, c);
    case _ => CommandCaught(su, e, a, c);
  }

  /** In every run the message counter of a condition is the number of messages it
      accepted since its last reset. */
  lemma {:induction false} RunCaught(su: Setup, acts: seq<Action>, c: string)
    requires SetupOk(su) && ActionsOk(acts) && c in su.conds
    ensures c in Run(su, acts).conds && Run(su, acts).conds[c].caught == Accepted(su, acts, c)
    decreases |acts|
  {
    if acts == [] {
    } else {
      RunCaught(su, acts[..|acts| - 1], c);
      NextCaught(su, Run(su, acts[..|acts| - 1]), acts[|acts| - 1], c);
    }
  }
}
