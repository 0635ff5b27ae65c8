/** Hit maps built from the messages heard alone, and that an evaluation cannot
    tell them from the engine's own. */
module HeardMaps {
  import opened Options
  import opened Domains
  import opened Where
  import opened WhereFacts
  import opened Hitmaps
  import opened Rules
  import opened RuleSearch
  import opened RuleEval
  import opened RuleFacts
  import opened Engine
  import opened EngineFacts
  import opened CellWindows
  import opened EngineWindows
  import opened EngineMessages
  import opened EngineFirings
  import C = Cells

  // ------------------------------------------------------------- construction

  function TableHeard(names: seq<string>): map<string, nat>
  {
    map x | x in names :: Position(names, x)
  }

  /** A cell with the status and the number of messages its past gives. */
  function CellFrom(cfg: C.Config, past: Past): C.CellState
    requires cfg.Ok()
  {
    C.CellState(seq(Held(cfg, past), _ => 0), ReadsNow(cfg, past), 0)
  }

  /** The hit map of condition c as the messages heard give it. */
  function HeardMap(su: Setup, acts: seq<Action>, c: string): Hitmap
    requires c in su.conds && su.conds[c].Ok()
  {
    var S, T := NamesHeard(su, acts, c, Source), NamesHeard(su, acts, c, Target);
    Hitmap(Tables(TableHeard(S), TableHeard(T)),
           map s: nat, t: nat | s < |S| && t < |T| :: (s, t) := CellFrom(su.conds[c], Heard(su, acts, c, S[s], T[t])))
  }

  function HeardView(su: Setup, acts: seq<Action>, cfg: RuleConfig): (view: seq<Hitmap>)
    requires SetupOk(su) && forall c | c in cfg.conds :: c in su.conds
    ensures |view| == |cfg.conds|
  {
    seq(|cfg.conds|,
        i requires 0 <= i < |cfg.conds| => assert cfg.conds[i] in cfg.conds; HeardMap(su, acts, cfg.conds[i]))
  }

  // ----------------------------------------------------------- same readings

  /** The maps have the same tables, and their cells the same status and size. */
  ghost predicate SameMap(hm: Hitmap, hm': Hitmap)
  {
    && hm.tables == hm'.tables
    && forall s: nat, t: nat ::
         CellAt(hm, s, t).on == CellAt(hm', s, t).on && |CellAt(hm, s, t).msgs| == |CellAt(hm', s, t).msgs|
  }

  ghost predicate SameView(view: seq<Hitmap>, view': seq<Hitmap>)
  {
    |view| == |view'| && forall i | 0 <= i < |view| :: SameMap(view[i], view'[i])
  }

  lemma SameCell(hm: Hitmap, hm': Hitmap, s: int, t: int)
    requires SameMap(hm, hm')
    ensures On(hm, s, t) == On(hm', s, t) && Size(hm, s, t) == Size(hm', s, t)
  {
  }

  lemma {:induction false} SameRow(hm: Hitmap, hm': Hitmap, s: int, tgt: Range, t: int)
    requires SameMap(hm, hm')
    ensures RowSum(hm, s, tgt, t) == RowSum(hm', s, tgt, t)
    decreases tgt.hi - t
  {
    if t <= tgt.hi {
      SameCell(hm, hm', s, t);
      SameRow(hm, hm', s, tgt, t + 1);
    }
  }

  lemma {:induction false} SameGrid(hm: Hitmap, hm': Hitmap, src: Range, tgt: Range, s: int)
    requires SameMap(hm, hm')
    ensures GridSum(hm, src, tgt, s) == GridSum(hm', src, tgt, s)
    decreases src.hi - s
  {
    if s <= src.hi {
      SameRow(hm, hm', s, tgt, tgt.lo);
      SameGrid(hm, hm', src, tgt, s + 1);
    }
  }

  /** Counts cannot tell the maps apart. */
  lemma SameCount(hm: Hitmap, hm': Hitmap, d: CondDomain, kind: CountKind)
    requires SameMap(hm, hm')
    ensures CountOf(hm, d, kind) == CountOf(hm', d, kind)
  {
    var src, tgt := RangeOf(d.first, |hm.tables.src|), RangeOf(d.second, |hm.tables.tgt|);
    forall s, t ensures On(hm, s, t) == On(hm', s, t) {
      SameCell(hm, hm', s, t);
    }
    match kind
    case Messages => SameGrid(hm, hm', src, tgt, src.lo);
    case Sources =>
      assert (set s | src.lo <= s <= src.hi && SourceOn(hm, s, tgt))
             == set s | src.lo <= s <= src.hi && SourceOn(hm', s, tgt);
    case Targets =>
      assert (set t | tgt.lo <= t <= tgt.hi && TargetOn(hm, t, src))
             == set t | tgt.lo <= t <= tgt.hi && TargetOn(hm', t, src);
  }

  lemma SameLeaf(v: Domain, box: Domain, view: seq<Hitmap>, view': seq<Hitmap>, c: BoolCond)
    requires |v| == |box| == |view| && SameView(view, view') && !c.Group?
    ensures CondTrue(c, Scene(v, box, view)) <==> CondTrue(c, Scene(v, box, view'))
  {
    if c.idx < |view| {
      assert SameMap(view[c.idx], view'[c.idx]);
      match c
      case Status(i) => SameCell(view[i], view'[i], v[i].first, v[i].second);
      case Count(i, kind, _, _) => SameCount(view[i], view'[i], box[i], kind);
    }
  }

  lemma SameFire(cfg: RuleConfig, rs: RuleState, v: Domain, box: Domain, view: seq<Hitmap>, view': seq<Hitmap>,
                 now: int)
    requires |v| == |box| == |view| && SameView(view, view')
    ensures CanFire(cfg, rs, Scene(v, box, view), now) <==> CanFire(cfg, rs, Scene(v, box, view'), now)
  {
    var a, b := Scene(v, box, view), Scene(v, box, view');
    forall c: BoolCond | !c.Group? ensures CondTrue(c, a) <==> CondTrue(c, b) {
      SameLeaf(v, box, view, view', c);
    }
    AlikeFire(cfg, rs, a, b, false, now);
  }

  lemma SameTables(view: seq<Hitmap>, view': seq<Hitmap>)
    requires SameView(view, view')
    ensures TablesOf(view) == TablesOf(view')
  {
    forall i | 0 <= i < |view| ensures view[i].tables == view'[i].tables {
      assert SameMap(view[i], view'[i]);
    }
  }

  lemma SameCandidate(v: Domain, box: Domain, view: seq<Hitmap>, view': seq<Hitmap>, prim: seq<bool>)
    requires SameView(view, view')
    ensures Candidate(v, box, view, prim) <==> Candidate(v, box, view', prim)
  {
    forall i | 0 <= i < |view| ensures view[i].tables == view'[i].tables {
      assert SameMap(view[i], view'[i]);
    }
  }

  /** No evaluation can tell the views apart. */
  lemma SameRaises(cfg: RuleConfig, rs: RuleState, view: seq<Hitmap>, view': seq<Hitmap>, now: int)
    requires cfg.Ok() && |view| == |cfg.conds| && SameView(view, view')
    ensures SomeRaises(cfg, rs, view, now) <==> SomeRaises(cfg, rs, view', now)
  {
    SameTables(view, view');
    var a, b := RecompiledRule(cfg, rs, view), RecompiledRule(cfg, rs, view');
    assert a == b;
    forall k: nat, v | k < |a.domains| ensures Raises(cfg, a, k, v, view, now) <==> Raises(cfg, b, k, v, view', now) {
      SameCandidate(v, a.domains[k], view, view', cfg.prim);
      if Candidate(v, a.domains[k], view, cfg.prim) { SameFire(cfg, a, v, a.domains[k], view, view', now); }
    }
  }

  // ------------------------------------------------------- the engine's own maps

  lemma TableIsHeard(m: map<string, nat>, names: seq<string>)
    requires Numbers(m, names)
    ensures m == TableHeard(names)
  {
    forall x | x in names ensures m[x] == Position(names, x) {
      NumbersPosition(m, names, x);
    }
  }

  /** In every run the tables are those of the names heard. */
  lemma RunTables(su: Setup, acts: seq<Action>, c: string)
    requires SetupOk(su) && ActionsOk(acts) && c in su.conds
    ensures c in Run(su, acts).conds && Run(su, acts).conds[c].hm.tables == HeardMap(su, acts, c).tables
  {
    RunNames(su, acts, c, Source);
    RunNames(su, acts, c, Target);
    var tables := Run(su, acts).conds[c].hm.tables;
    TableIsHeard(tables.src, NamesHeard(su, acts, c, Source));
    TableIsHeard(tables.tgt, NamesHeard(su, acts, c, Target));
  }

  /** In every ordered run, at any moment, the cell of two names has the status and
      the size that the messages heard for them give. */
  lemma CellHeard(su: Setup, acts: seq<Action>, c: string, x: string, y: string)
    requires SetupOk(su) && ActionsOk(acts) && Ordered(su, acts) && c in su.conds && c in Run(su, acts).conds
    requires x in Run(su, acts).conds[c].hm.tables.src && y in Run(su, acts).conds[c].hm.tables.tgt
    ensures var hm := Run(su, acts).conds[c].hm;
            var cell, past := CellAt(hm, hm.tables.src[x], hm.tables.tgt[y]), Heard(su, acts, c, x, y);
            && cell.on == ReadsNow(su.conds[c], past) && |cell.msgs| == Held(su.conds[c], past)
            && Newest(cell.msgs, past.hits)
  {
    var e, h := Run(su, acts), RunHistory(su, acts);
    var tables := e.conds[c].hm.tables;
    var id := CellId(c, tables.src[x], tables.tgt[y]);
    RunHeard(su, acts, c);
    assert HeardBy(su, acts, c)(x, y) == h.past(id);
    RunNow(su, acts);
    assert ReadsPast(su.conds[c], e, h, id);
  }

  /** In every ordered run that has reached the end of second T, the cell of two names
      of a condition "at least (at most) n messages in ts seconds" is on exactly when
      the messages heard for them say so. */
  lemma ConfiguredHeard(su: Setup, acts: seq<Action>, T: int, c: string, x: string, y: string, n: int, atLeast: bool,
                        ts: int, perSource: bool, perTarget: bool, persistent: bool)
    requires SetupOk(su) && ActionsOk(acts) && Ordered(su, acts) && Reaches(acts, T)
    requires c in su.conds && su.conds[c] == C.MakeConfig(n, atLeast, ts, perSource, perTarget, persistent)
    requires c in Run(su, acts).conds
    requires x in Run(su, acts).conds[c].hm.tables.src && y in Run(su, acts).conds[c].hm.tables.tgt
    ensures var hm := Run(su, acts).conds[c].hm;
            CellAt(hm, hm.tables.src[x], hm.tables.tgt[y]).on <==>
              ConfiguredOn(n, atLeast, ts, persistent, Heard(su, acts, c, x, y), T)
  {
    var e, h := Run(su, acts), RunHistory(su, acts);
    var id := CellId(c, e.conds[c].hm.tables.src[x], e.conds[c].hm.tables.tgt[y]);
    RunHeard(su, acts, c);
    assert HeardBy(su, acts, c)(x, y) == h.past(id);
    RunWindow(su, acts, T);
    assert Reads(su.conds[c], e, h, T, id);
    ReadsConfigured(n, atLeast, ts, perSource, perTarget, persistent, h.past(id), T);
  }

  lemma NumberedCell(m: map<string, nat>, names: seq<string>, i: nat)
    requires Numbers(m, names)
    ensures i < |m| <==> i < |names|
    ensures i < |names| ==> names[i] in m && m[names[i]] == i
  {
  }

  /** The cells of a hit map built from messages. */
  lemma HeardMapCell(su: Setup, acts: seq<Action>, c: string, s: nat, t: nat)
    requires c in su.conds && su.conds[c].Ok()
    ensures var S, T := NamesHeard(su, acts, c, Source), NamesHeard(su, acts, c, Target);
            CellAt(HeardMap(su, acts, c), s, t)
            == if s < |S| && t < |T| then CellFrom(su.conds[c], Heard(su, acts, c, S[s], T[t])) else C.FRESH
  {
  }

  lemma FreshOutside(cfg: C.Config, hm: Hitmap, s: nat, t: nat)
    requires HitmapOk(hm, cfg) && (s >= |hm.tables.src| || t >= |hm.tables.tgt|)
    ensures CellAt(hm, s, t) == C.FRESH
  {
    assert (s, t) !in hm.cells;
  }

  lemma KnownCell(su: Setup, acts: seq<Action>, c: string, s: nat, t: nat)
    requires SetupOk(su) && ActionsOk(acts) && Ordered(su, acts) && c in su.conds && c in Run(su, acts).conds
    requires s < |NamesHeard(su, acts, c, Source)| && t < |NamesHeard(su, acts, c, Target)|
    ensures var past := Heard(su, acts, c, NamesHeard(su, acts, c, Source)[s], NamesHeard(su, acts, c, Target)[t]);
            var cell := CellAt(Run(su, acts).conds[c].hm, s, t);
            cell.on == ReadsNow(su.conds[c], past) && |cell.msgs| == Held(su.conds[c], past)
  {
    var S, T := NamesHeard(su, acts, c, Source), NamesHeard(su, acts, c, Target);
    var tables := Run(su, acts).conds[c].hm.tables;
    RunNames(su, acts, c, Source);
    RunNames(su, acts, c, Target);
    NumberedCell(tables.src, S, s);
    NumberedCell(tables.tgt, T, t);
    CellHeard(su, acts, c, S[s], T[t]);
  }

  lemma UnknownCell(su: Setup, acts: seq<Action>, c: string, s: nat, t: nat)
    requires SetupOk(su) && ActionsOk(acts) && c in su.conds && c in Run(su, acts).conds
    requires s >= |NamesHeard(su, acts, c, Source)| || t >= |NamesHeard(su, acts, c, Target)|
    ensures CellAt(Run(su, acts).conds[c].hm, s, t) == C.FRESH
  {
    RunNames(su, acts, c, Source);
    RunNames(su, acts, c, Target);
    assert CondStateOk(su.conds[c], Run(su, acts).conds[c]);
    FreshOutside(su.conds[c], Run(su, acts).conds[c].hm, s, t);
  }

  /** One cell of the engine's hit map against the one built from the messages. */
  lemma CellSame(su: Setup, acts: seq<Action>, c: string, s: nat, t: nat)
    requires SetupOk(su) && ActionsOk(acts) && Ordered(su, acts) && c in su.conds && c in Run(su, acts).conds
    ensures var cell, cell' := CellAt(Run(su, acts).conds[c].hm, s, t), CellAt(HeardMap(su, acts, c), s, t);
            cell.on == cell'.on && |cell.msgs| == |cell'.msgs|
  {
    HeardMapCell(su, acts, c, s, t);
    if s < |NamesHeard(su, acts, c, Source)| && t < |NamesHeard(su, acts, c, Target)| {
      KnownCell(su, acts, c, s, t);
    } else {
      UnknownCell(su, acts, c, s, t);
    }
  }

  lemma MapSame(su: Setup, acts: seq<Action>, c: string)
    requires SetupOk(su) && ActionsOk(acts) && Ordered(su, acts) && c in su.conds
    ensures c in Run(su, acts).conds && SameMap(Run(su, acts).conds[c].hm, HeardMap(su, acts, c))
  {
    RunTables(su, acts, c);
    forall s: nat, t: nat
      ensures CellAt(Run(su, acts).conds[c].hm, s, t).on == CellAt(HeardMap(su, acts, c), s, t).on
      ensures |CellAt(Run(su, acts).conds[c].hm, s, t).msgs| == |CellAt(HeardMap(su, acts, c), s, t).msgs|
    {
      CellSame(su, acts, c, s, t);
    }
  }

  /** In every ordered run the messages heard give the hit maps of every rule, as
      far as any evaluation can see. */
  lemma ViewSame(su: Setup, acts: seq<Action>, r: nat)
    requires SetupOk(su) && ActionsOk(acts) && Ordered(su, acts) && r in su.rules
    ensures SameView(View(su, Run(su, acts), r), HeardView(su, acts, su.rules[r]))
  {
    var cfg := su.rules[r];
    forall i | 0 <= i < |cfg.conds|
      ensures SameMap(View(su, Run(su, acts), r)[i], HeardView(su, acts, cfg)[i])
    {
      assert cfg.conds[i] in cfg.conds;
      MapSame(su, acts, cfg.conds[i]);
    }
  }
}
