/** Rules: boolean expressions over condition statuses and counts, the search
    for an assignment that raises a new alarm, and the alarm table. */
module Rules {
  import opened Domains
  import opened Where
  import opened Hitmaps
  import WhereEval

  // ----------------------------------------------------------------- counting

  datatype Range = Range(lo: int, hi: int)

  function RangeOf(p: int, size: nat): Range
  {
    if p == ANY then Range(0, size - 1) else Range(p, p)
  }

  predicate Within(i: int, r: Range)
  {
    r.lo <= i <= r.hi
  }

  datatype CountKind = Messages | Sources | Targets

  function On(hm: Hitmap, s: int, t: int): bool
  {
    s >= 0 && t >= 0 && CellAt(hm, s, t).on
  }

  function Size(hm: Hitmap, s: int, t: int): nat
  {
    if s >= 0 && t >= 0 then |CellAt(hm, s, t).msgs| else 0
  }

  function RowSum(hm: Hitmap, s: int, tgt: Range, t: int): nat
    decreases tgt.hi - t
  {
    if t > tgt.hi then 0 else Size(hm, s, t) + RowSum(hm, s, tgt, t + 1)
  }

  function GridSum(hm: Hitmap, src: Range, tgt: Range, s: int): nat
    decreases src.hi - s
  {
    if s > src.hi then 0 else RowSum(hm, s, tgt, tgt.lo) + GridSum(hm, src, tgt, s + 1)
  }

  predicate SourceOn(hm: Hitmap, s: int, tgt: Range)
  {
    exists t | tgt.lo <= t <= tgt.hi :: On(hm, s, t)
  }

  predicate TargetOn(hm: Hitmap, t: int, src: Range)
  {
    exists s | src.lo <= s <= src.hi :: On(hm, s, t)
  }

  /** Messages held in the box, or sources (targets) of the box with an on cell. */
  function CountOf(hm: Hitmap, d: CondDomain, kind: CountKind): nat
  {
    var src, tgt := RangeOf(d.first, |hm.tables.src|), RangeOf(d.second, |hm.tables.tgt|);
    match kind
    case Messages => GridSum(hm, src, tgt, src.lo)
    case Sources => |set s | src.lo <= s <= src.hi && SourceOn(hm, s, tgt)|
    case Targets => |set t | tgt.lo <= t <= tgt.hi && TargetOn(hm, t, src)|
  }

  /** The messages of a rectangle of cells. */
  function SumOver(hm: Hitmap, src: Range, tgt: Range): nat
  {
    GridSum(hm, src, tgt, src.lo)
  }

  /** The sum over the cells: nothing for no cells, the buffer's size for one, and
      adding up however the sources or the targets are divided. */
  lemma SumLaws(hm: Hitmap, src: Range, tgt: Range, s: int, t: int)
    ensures src.lo > src.hi || tgt.lo > tgt.hi ==> SumOver(hm, src, tgt) == 0
    ensures s >= 0 && t >= 0 ==> SumOver(hm, Range(s, s), Range(t, t)) == |CellAt(hm, s, t).msgs|
    ensures src.lo <= s <= src.hi + 1 ==>
              SumOver(hm, src, tgt) == SumOver(hm, Range(src.lo, s - 1), tgt) + SumOver(hm, Range(s, src.hi), tgt)
    ensures tgt.lo <= t <= tgt.hi + 1 ==>
              SumOver(hm, src, tgt) == SumOver(hm, src, Range(tgt.lo, t - 1)) + SumOver(hm, src, Range(t, tgt.hi))
  {
    if tgt.lo > tgt.hi { NoTargets(hm, src, tgt, src.lo); }
    OneCell(hm, s, t);
    if src.lo <= s <= src.hi + 1 { SplitSources(hm, src, tgt, s, src.lo); }
    if tgt.lo <= t <= tgt.hi + 1 { SplitTargets(hm, src, tgt, t, src.lo); }
  }

  lemma OneCell(hm: Hitmap, s: int, t: int)
    ensures SumOver(hm, Range(s, s), Range(t, t)) == Size(hm, s, t)
  {
    assert RowSum(hm, s, Range(t, t), t + 1) == 0 && GridSum(hm, Range(s, s), Range(t, t), s + 1) == 0;
  }

  lemma {:induction false} NoTargets(hm: Hitmap, src: Range, tgt: Range, s: int)
    requires tgt.lo > tgt.hi
    ensures GridSum(hm, src, tgt, s) == 0
    decreases src.hi - s
  {
    if s <= src.hi { NoTargets(hm, src, tgt, s + 1); }
  }

  lemma {:induction false} SplitSources(hm: Hitmap, src: Range, tgt: Range, at: int, s: int)
    requires s <= at <= src.hi + 1
    ensures GridSum(hm, src, tgt, s)
            == GridSum(hm, Range(src.lo, at - 1), tgt, s) + GridSum(hm, Range(at, src.hi), tgt, at)
    decreases at - s
  {
    if s < at {
      SplitSources(hm, src, tgt, at, s + 1);
    } else {
      SameUpTo(hm, src, Range(at, src.hi), tgt, at);
    }
  }

  /** Only the end of the source range matters. */
  lemma {:induction false} SameUpTo(hm: Hitmap, src: Range, src': Range, tgt: Range, s: int)
    requires src.hi == src'.hi
    ensures GridSum(hm, src, tgt, s) == GridSum(hm, src', tgt, s)
    decreases src.hi - s
  {
    if s <= src.hi { SameUpTo(hm, src, src', tgt, s + 1); }
  }

  lemma {:induction false} SplitRow(hm: Hitmap, s: int, tgt: Range, at: int, t: int)
    requires t <= at <= tgt.hi + 1
    ensures RowSum(hm, s, tgt, t) == RowSum(hm, s, Range(tgt.lo, at - 1), t) + RowSum(hm, s, Range(at, tgt.hi), at)
    decreases at - t
  {
    if t < at {
      SplitRow(hm, s, tgt, at, t + 1);
    } else {
      SameRowUpTo(hm, s, tgt, Range(at, tgt.hi), at);
    }
  }

  lemma {:induction false} SameRowUpTo(hm: Hitmap, s: int, tgt: Range, tgt': Range, t: int)
    requires tgt.hi == tgt'.hi
    ensures RowSum(hm, s, tgt, t) == RowSum(hm, s, tgt', t)
    decreases tgt.hi - t
  {
    if t <= tgt.hi { SameRowUpTo(hm, s, tgt, tgt', t + 1); }
  }

  lemma {:induction false} SplitTargets(hm: Hitmap, src: Range, tgt: Range, at: int, s: int)
    requires tgt.lo <= at <= tgt.hi + 1
    ensures GridSum(hm, src, tgt, s)
            == GridSum(hm, src, Range(tgt.lo, at - 1), s) + GridSum(hm, src, Range(at, tgt.hi), s)
    decreases src.hi - s
  {
    if s <= src.hi {
      SplitRow(hm, s, tgt, at, tgt.lo);
      SplitTargets(hm, src, tgt, at, s + 1);
    }
  }

  method AlarmCount(hm: Hitmap, d: CondDomain, kind: CountKind) returns (r: Result<nat>)
    ensures r.Throw? <==> CondIsNull(d)
    ensures r.Ok? ==> r.value == CountOf(hm, d, kind)
    ensures var src, tgt := RangeOf(d.first, |hm.tables.src|), RangeOf(d.second, |hm.tables.tgt|);
            r.Ok? ==>
              match kind
              case Messages => r.value == SumOver(hm, src, tgt)
              case Sources => r.value == |set s | src.lo <= s <= src.hi && SourceOn(hm, s, tgt)|
              case Targets => r.value == |set t | tgt.lo <= t <= tgt.hi && TargetOn(hm, t, src)|
  {
    if CondIsNull(d) { return Throw("get_cond_range: NIL domain"); }
    var src, tgt := RangeOf(d.first, |hm.tables.src|), RangeOf(d.second, |hm.tables.tgt|);
    var count: nat;
    match kind {
      case Messages => count := CountMessages(hm, src, tgt);
      case Sources => count := CountSources(hm, src, tgt);
      case Targets => count := CountTargets(hm, src, tgt);
    }
    return Ok(count);
  }

  method CountMessages(hm: Hitmap, src: Range, tgt: Range) returns (count: nat)
    ensures count == GridSum(hm, src, tgt, src.lo)
  {
    count := 0;
    var s := src.lo;
    while s <= src.hi
      invariant count + GridSum(hm, src, tgt, s) == GridSum(hm, src, tgt, src.lo)
    {
      var t := tgt.lo;
      ghost var before := count;
      while t <= tgt.hi
        invariant count + RowSum(hm, s, tgt, t) == before + RowSum(hm, s, tgt, tgt.lo)
      {
        count := count + Size(hm, s, t);
        t := t + 1;
      }
      s := s + 1;
    }
  }

  method CountSources(hm: Hitmap, src: Range, tgt: Range) returns (count: nat)
    ensures count == |set s | src.lo <= s <= src.hi && SourceOn(hm, s, tgt)|
  {
    count := 0;
    var s := src.lo;
    ghost var found: set<int> := {};
    while s <= src.hi
      invariant src.lo <= s && (s <= src.hi + 1 || s == src.lo)
      invariant found == set x | src.lo <= x < s && SourceOn(hm, x, tgt)
      invariant count == |found|
    {
      var t := tgt.lo;
      while t <= tgt.hi
        invariant tgt.lo <= t
        invariant forall y | tgt.lo <= y < t :: !On(hm, s, y)
      {
        if On(hm, s, t) {
          count := count + 1;
          break;
        }
        t := t + 1;
      }
      if SourceOn(hm, s, tgt) { found := found + {s}; }
      s := s + 1;
    }
    assert found == set x | src.lo <= x <= src.hi && SourceOn(hm, x, tgt);
  }

  method CountTargets(hm: Hitmap, src: Range, tgt: Range) returns (count: nat)
    ensures count == |set t | tgt.lo <= t <= tgt.hi && TargetOn(hm, t, src)|
  {
    count := 0;
    var t := tgt.lo;
    ghost var found: set<int> := {};
    while t <= tgt.hi
      invariant tgt.lo <= t && (t <= tgt.hi + 1 || t == tgt.lo)
      invariant found == set x | tgt.lo <= x < t && TargetOn(hm, x, src)
      invariant count == |found|
    {
      var s := src.lo;
      while s <= src.hi
        invariant src.lo <= s
        invariant forall y | src.lo <= y < s :: !On(hm, y, t)
      {
        if On(hm, s, t) {
          count := count + 1;
          break;
        }
        s := s + 1;
      }
      if TargetOn(hm, t, src) { found := found + {t}; }
      t := t + 1;
    }
    assert found == set x | tgt.lo <= x <= tgt.hi && TargetOn(hm, x, src);
  }

  // ------------------------------------------------------ boolean expressions

  datatype CompareOp = Lt | Le | Eq | Ne | Ge | Gt

  function Compare(op: CompareOp, v: real, rhv: real): bool
  {
    match op
    case Lt => v < rhv
    case Le => v <= rhv
    case Eq => v == rhv
    case Ne => v != rhv
    case Ge => v >= rhv
    case Gt => v > rhv
  }

  /** Below, at and above the right-hand value, exactly the operators hold that one
      expects. */
  lemma CompareMeaning(v: real, rhv: real)
    ensures v < rhv ==> forall op :: Compare(op, v, rhv) <==> op in {Lt, Le, Ne}
    ensures v == rhv ==> forall op :: Compare(op, v, rhv) <==> op in {Le, Eq, Ge}
    ensures v > rhv ==> forall op :: Compare(op, v, rhv) <==> op in {Ge, Gt, Ne}
  {
  }

  datatype BoolExpr = AnyOf(ands: seq<BoolAnd>)

  datatype BoolAnd = AllOf(conds: seq<BoolCond>)

  datatype BoolCond =
    | Group(expr: BoolExpr)
    | Status(idx: nat)
    | Count(idx: nat, kind: CountKind, op: CompareOp, rhv: real)

  /** What one evaluation looks at: a value and a box for each condition, and
      the conditions' hit maps. */
  datatype Scene = Scene(value: Domain, box: Domain, view: seq<Hitmap>) {
    predicate Ok() { |value| == |box| == |view| }
  }

  predicate BoolOk(e: BoolExpr, prim: seq<bool>)
  {
    forall x | x in e.ands :: BoolAndOk(x, prim)
  }

  predicate BoolAndOk(x: BoolAnd, prim: seq<bool>)
  {
    forall c | c in x.conds :: BoolCondOk(c, prim)
  }

  /** A plain status makes its condition primitive. */
  predicate BoolCondOk(c: BoolCond, prim: seq<bool>)
  {
    match c
    case Group(e) => BoolOk(e, prim)
    case Status(i) => i < |prim| && prim[i]
    case Count(i, _, _, _) => i < |prim|
  }

  predicate ExprTrue(e: BoolExpr, sc: Scene)
  {
    exists x | x in e.ands :: AndTrue(x, sc)
  }

  predicate AndTrue(x: BoolAnd, sc: Scene)
  {
    forall c | c in x.conds :: CondTrue(c, sc)
  }

  predicate CondTrue(c: BoolCond, sc: Scene)
  {
    match c
    case Group(e) => ExprTrue(e, sc)
    case Status(i) => i < |sc.value| && i < |sc.view| && On(sc.view[i], sc.value[i].first, sc.value[i].second)
    case Count(i, kind, op, rhv) =>
      i < |sc.box| && i < |sc.view| && Compare(op, CountOf(sc.view[i], sc.box[i], kind) as real, rhv)
  }

  // ---------------------------------------------- the alarm left by evaluation

  /** The leaves a short-circuit evaluation reaches, in order. */
  function VisitExpr(ands: seq<BoolAnd>, sc: Scene): seq<BoolCond>
  {
    if ands == [] then []
    else VisitAnd(ands[0].conds, sc) + if AndTrue(ands[0], sc) then [] else VisitExpr(ands[1..], sc)
  }

  function VisitAnd(conds: seq<BoolCond>, sc: Scene): seq<BoolCond>
    decreases conds, 1
  {
    if conds == [] then []
    else VisitCond(conds[0], sc) + if CondTrue(conds[0], sc) then VisitAnd(conds[1..], sc) else []
  }

  function VisitCond(c: BoolCond, sc: Scene): seq<BoolCond>
    decreases c, 0
  {
    match c
    case Group(e) => VisitExpr(e.ands, sc)
    case _ => [c]
  }

  predicate CountSeen(seen: seq<BoolCond>, i: nat)
  {
    exists c | c in seen :: c.Count? && c.idx == i
  }

  /** The alarm key after visiting the leaves `seen`: the whole box for counted
      conditions, the value for tested ones, null for the rest. */
  function AlarmOf(seen: seq<BoolCond>, sc: Scene): Domain
    requires sc.Ok()
  {
    seq(|sc.value|, i requires 0 <= i < |sc.value| =>
      if CountSeen(seen, i) then sc.box[i]
      else if Status(i) in seen then sc.value[i]
      else NULL_COND)
  }

  function AlarmKey(e: BoolExpr, sc: Scene): Domain
    requires sc.Ok()
  {
    AlarmOf(VisitExpr(e.ands, sc), sc)
  }

  /** The boxes are not null, and primitive conditions have real indices. */
  predicate SceneOk(sc: Scene, prim: seq<bool>)
  {
    && sc.Ok() && |prim| == |sc.value|
    && forall i | 0 <= i < |prim| ::
         !CondIsNull(sc.box[i]) && (prim[i] ==> sc.value[i].first >= 0 && sc.value[i].second >= 0)
  }

  lemma MarkLeaf(seen: seq<BoolCond>, c: BoolCond, sc: Scene)
    requires sc.Ok() && !c.Group? && c.idx < |sc.value|
    ensures AlarmOf(seen + [c], sc) ==
            if c.Count? then AlarmOf(seen, sc)[c.idx := sc.box[c.idx]]
            else if CountSeen(seen, c.idx) then AlarmOf(seen, sc)
            else AlarmOf(seen, sc)[c.idx := sc.value[c.idx]]
  {
    assert forall x :: x in seen + [c] <==> x in seen || x == c;
    forall i: nat ensures CountSeen(seen + [c], i) <==> CountSeen(seen, i) || (c.Count? && c.idx == i) {
      if CountSeen(seen, i) {
        var x :| x in seen && x.Count? && x.idx == i;
        assert x in seen + [c];
      }
      if c.Count? && c.idx == i { assert c in seen + [c]; }
    }
  }

  method EvaluateCond(c: BoolCond, prim: seq<bool>, sc: Scene, alarm: Domain, ghost seen: seq<BoolCond>)
    returns (r: bool, alarm': Domain)
    requires BoolCondOk(c, prim) && SceneOk(sc, prim) && alarm == AlarmOf(seen, sc)
    ensures r == CondTrue(c, sc)
    ensures alarm' == AlarmOf(seen + VisitCond(c, sc), sc)
    decreases c, 0
  {
    match c {
      case Group(e) =>
        r, alarm' := EvaluateExpr(e, prim, sc, alarm, seen);
      case Status(i) =>
        MarkLeaf(seen, c, sc);
        alarm' := alarm;
        if CondIsNull(alarm'[i]) { alarm' := alarm'[i := sc.value[i]]; }
        assert alarm' == AlarmOf(seen + [c], sc);
        r := On(sc.view[i], sc.value[i].first, sc.value[i].second);
      case Count(i, kind, op, rhv) =>
        MarkLeaf(seen, c, sc);
        alarm' := alarm[i := sc.box[i]];
        var n := AlarmCount(sc.view[i], sc.box[i], kind);
        r := Compare(op, n.value as real, rhv);
    }
  }

  method EvaluateAnd(x: BoolAnd, prim: seq<bool>, sc: Scene, alarm: Domain, ghost seen: seq<BoolCond>)
    returns (r: bool, alarm': Domain)
    requires BoolAndOk(x, prim) && SceneOk(sc, prim) && alarm == AlarmOf(seen, sc)
    ensures r == AndTrue(x, sc)
    ensures alarm' == AlarmOf(seen + VisitAnd(x.conds, sc), sc)
    decreases x, 1
  {
    alarm' := alarm;
    ghost var done := seen;
    ghost var whole := seen + VisitAnd(x.conds, sc);
    assert x.conds[0..] == x.conds;
    for i := 0 to |x.conds|
      invariant forall k | 0 <= k < i :: CondTrue(x.conds[k], sc)
      invariant alarm' == AlarmOf(done, sc)
      invariant Visiting(done, x.conds, i, sc, whole)
    {
      assert x.conds[i] in x.conds;
      AndVisitStep(done, x.conds, i, sc, whole);
      var b: bool;
      b, alarm' := EvaluateCond(x.conds[i], prim, sc, alarm', done);
      done := done + VisitCond(x.conds[i], sc);
      if !b {
        assert done == whole;
        return false, alarm';
      }
    }
    assert x.conds[|x.conds|..] == [] && done + [] == done;
    r := true;
  }

  /** The leaves in `done`, followed by those from condition i on, are all of them. */
  predicate Visiting(done: seq<BoolCond>, conds: seq<BoolCond>, i: nat, sc: Scene, whole: seq<BoolCond>)
    requires i <= |conds|
  {
    done + VisitAnd(conds[i..], sc) == whole
  }

  lemma AndVisitStep(done: seq<BoolCond>, conds: seq<BoolCond>, i: nat, sc: Scene, whole: seq<BoolCond>)
    requires i < |conds| && Visiting(done, conds, i, sc, whole)
    ensures var next := done + VisitCond(conds[i], sc);
            if CondTrue(conds[i], sc) then Visiting(next, conds, i + 1, sc, whole) else next == whole
  {
    assert conds[i..][1..] == conds[i + 1..];
    var tail := if CondTrue(conds[i], sc) then VisitAnd(conds[i + 1..], sc) else [];
    WhereEval.Assoc(done, VisitCond(conds[i], sc), tail);
  }

  /** The same for the alternatives of a disjunction. */
  predicate VisitingAny(done: seq<BoolCond>, ands: seq<BoolAnd>, i: nat, sc: Scene, whole: seq<BoolCond>)
    requires i <= |ands|
  {
    done + VisitExpr(ands[i..], sc) == whole
  }

  lemma OrVisitStep(done: seq<BoolCond>, ands: seq<BoolAnd>, i: nat, sc: Scene, whole: seq<BoolCond>)
    requires i < |ands| && VisitingAny(done, ands, i, sc, whole)
    ensures var next := done + VisitAnd(ands[i].conds, sc);
            if AndTrue(ands[i], sc) then next == whole else VisitingAny(next, ands, i + 1, sc, whole)
  {
    assert ands[i..][1..] == ands[i + 1..];
    var tail := if AndTrue(ands[i], sc) then [] else VisitExpr(ands[i + 1..], sc);
    WhereEval.Assoc(done, VisitAnd(ands[i].conds, sc), tail);
  }

  method EvaluateExpr(e: BoolExpr, prim: seq<bool>, sc: Scene, alarm: Domain, ghost seen: seq<BoolCond>)
    returns (r: bool, alarm': Domain)
    requires BoolOk(e, prim) && SceneOk(sc, prim) && alarm == AlarmOf(seen, sc)
    ensures r == ExprTrue(e, sc)
    ensures alarm' == AlarmOf(seen + VisitExpr(e.ands, sc), sc)
    decreases e, 2
  {
    alarm' := alarm;
    ghost var done := seen;
    ghost var whole := seen + VisitExpr(e.ands, sc);
    assert e.ands[0..] == e.ands;
    for i := 0 to |e.ands|
      invariant forall k | 0 <= k < i :: !AndTrue(e.ands[k], sc)
      invariant alarm' == AlarmOf(done, sc)
      invariant VisitingAny(done, e.ands, i, sc, whole)
    {
      assert e.ands[i] in e.ands;
      OrVisitStep(done, e.ands, i, sc, whole);
      var b: bool;
      b, alarm' := EvaluateAnd(e.ands[i], prim, sc, alarm', done);
      done := done + VisitAnd(e.ands[i].conds, sc);
      if b {
        assert done == whole;
        return true, alarm';
      }
    }
    assert done == whole;
    r := false;
  }
}
