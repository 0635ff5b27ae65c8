/** WHERE clauses: their syntax trees, what they say about an assignment of
    table indices to the rule's conditions, and the boxes they compile to. */
module Where {
  import opened Options
  import opened Domains
  import opened Ordering

  // ----------------------------------------------------------------- syntax

  /** The source and target name tables of one condition. */
  datatype Tables = Tables(src: map<string, nat>, tgt: map<string, nat>) {
    function Of(arg: Arg): map<string, nat>
    {
      if arg == Source then src else tgt
    }
  }

  /** `cond.$s` or `cond.$t`, by the condition's position in the rule. */
  datatype Slot = Slot(idx: nat, arg: Arg)

  datatype Expr = Or(ands: seq<AndExpr>)

  datatype AndExpr = And(conds: seq<Cond>)

  /** A parenthesised expression, or `slot = slot = ... [= 'str']`; an empty
      `str` means that no literal was given. */
  datatype Cond = Paren(expr: Expr) | Equal(slots: seq<Slot>, str: string)

  /** What the parser guarantees: every equality lists a slot, and every slot
      is a condition of the rule. */
  predicate ExprOk(e: Expr, n: nat)
  {
    forall x | x in e.ands :: AndOk(x, n)
  }

  predicate AndOk(x: AndExpr, n: nat)
  {
    forall c | c in x.conds :: CondOk(c, n)
  }

  predicate CondOk(c: Cond, n: nat)
  {
    match c
    case Paren(e) => ExprOk(e, n)
    case Equal(slots, _) => slots != [] && SlotsOk(slots, n)
  }

  predicate SlotsOk(slots: seq<Slot>, n: nat)
  {
    forall sl | sl in slots :: sl.idx < n
  }

  // ---------------------------------------------------------------- reading

  function TableOf(T: seq<Tables>, sl: Slot): map<string, nat>
    requires sl.idx < |T|
  {
    T[sl.idx].Of(sl.arg)
  }

  function IndexAt(a: Domain, sl: Slot): int
    requires sl.idx < |a|
  {
    if sl.arg == Source then a[sl.idx].first else a[sl.idx].second
  }

  /** Under the assignment `a`, the slot holds the string `s`. */
  predicate Names(T: seq<Tables>, a: Domain, sl: Slot, s: string)
    requires sl.idx < |T| == |a|
  {
    s in TableOf(T, sl) && TableOf(T, sl)[s] == IndexAt(a, sl)
  }

  predicate AllName(T: seq<Tables>, a: Domain, slots: seq<Slot>, s: string)
    requires SlotsOk(slots, |T|) && |a| == |T|
  {
    forall sl | sl in slots :: Names(T, a, sl, s)
  }

  /** No later slot of the list belongs to the same condition. */
  predicate LastWrite(slots: seq<Slot>, i: nat)
    requires i < |slots|
  {
    forall j | i < j < |slots| :: slots[j].idx != slots[i].idx
  }

  /** What a literal list says when a later slot of a condition overwrites an
      earlier one: every slot's table knows the literal, but only the last slot
      of each condition is constrained to it. */
  predicate LastName(T: seq<Tables>, a: Domain, slots: seq<Slot>, s: string)
    requires SlotsOk(slots, |T|) && |a| == |T|
  {
    && (forall sl | sl in slots :: s in TableOf(T, sl))
    && (forall i: nat | i < |slots| && LastWrite(slots, i) :: Names(T, a, slots[i], s))
  }

  /** Logical: every listed slot is constrained. Overwriting: as LastName. */
  datatype Reading = Logical | Overwriting

  ghost predicate ExprHolds(e: Expr, T: seq<Tables>, a: Domain, rd: Reading)
    requires ExprOk(e, |T|) && |a| == |T|
  {
    exists x | x in e.ands :: AndHolds(x, T, a, rd)
  }

  ghost predicate AndHolds(x: AndExpr, T: seq<Tables>, a: Domain, rd: Reading)
    requires AndOk(x, |T|) && |a| == |T|
  {
    x.conds != [] && forall c | c in x.conds :: CondHolds(c, T, a, rd)
  }

  ghost predicate CondHolds(c: Cond, T: seq<Tables>, a: Domain, rd: Reading)
    requires CondOk(c, |T|) && |a| == |T|
  {
    match c
    case Paren(e) => ExprHolds(e, T, a, rd)
    case Equal(slots, str) =>
      if str == "" then exists s :: AllName(T, a, slots, s)
      else if rd == Logical then AllName(T, a, slots, str)
      else LastName(T, a, slots, str)
  }

  // ------------------------------------------------------------ compilation

  /** The literal form: each slot overwrites its condition's pattern. */
  function LiteralBox(slots: seq<Slot>, str: string, T: seq<Tables>, d: Domain): (r: Option<Domain>)
    requires SlotsOk(slots, |T|) && |d| == |T|
    ensures r.Some? ==> |r.value| == |d|
  {
    if slots == [] then Some(d)
    else if str !in TableOf(T, slots[0]) then None
    else
      var i := TableOf(T, slots[0])[str];
      LiteralBox(slots[1..], str, T, d[slots[0].idx := CondOf(i, slots[0].arg)])
  }

  /** The form without literal, for one candidate string: each slot narrows
      its condition's pattern. */
  function NameBox(slots: seq<Slot>, s: string, T: seq<Tables>, d: Domain): (r: Option<Domain>)
    requires SlotsOk(slots, |T|) && |d| == |T|
    ensures r.Some? ==> |r.value| == |d|
  {
    if slots == [] then Some(d)
    else if s !in TableOf(T, slots[0]) then None
    else
      var i := TableOf(T, slots[0])[s];
      var p := IntersectCond(d[slots[0].idx], CondOf(i, slots[0].arg));
      if CondIsNull(p) then None else NameBox(slots[1..], s, T, d[slots[0].idx := p])
  }

  function NameBoxes(slots: seq<Slot>, names: seq<string>, T: seq<Tables>): (r: seq<Domain>)
    requires SlotsOk(slots, |T|)
    ensures Widths(r, |T|)
  {
    if names == [] then []
    else
      var box := NameBox(slots, names[0], T, AnyDomain(|T|));
      (if box.Some? then [box.value] else []) + NameBoxes(slots, names[1..], T)
  }

  ghost function EqualBoxes(slots: seq<Slot>, str: string, T: seq<Tables>): (r: seq<Domain>)
    requires slots != [] && SlotsOk(slots, |T|)
    ensures Widths(r, |T|)
  {
    if str != "" then
      var box := LiteralBox(slots, str, T, AnyDomain(|T|));
      if box.Some? then [box.value] else []
    else
      NameBoxes(slots, SortedKeys(TableOf(T, slots[0]).Keys), T)
  }

  predicate Widths(ds: seq<Domain>, n: nat)
  {
    forall i | 0 <= i < |ds| :: |ds[i]| == n
  }

  /** One box against each box of a list. */
  function Row(d: Domain, ws: seq<Domain>): (r: seq<Domain>)
    requires Widths(ws, |d|)
  {
    seq(|ws|, j requires 0 <= j < |ws| => assert ws[j] in ws; Intersect(d, ws[j]))
  }

  /** All pairwise intersections, row after row. */
  function Products(ds: seq<Domain>, ws: seq<Domain>, n: nat): (r: seq<Domain>)
    requires Widths(ds, n) && Widths(ws, n)
  {
    if ds == [] then [] else Row(ds[0], ws) + Products(ds[1..], ws, n)
  }

  function DropNulls(ds: seq<Domain>): (r: seq<Domain>)
    ensures forall b | b in r :: b in ds && b != NULL_DOMAIN
  {
    if ds == [] then []
    else (if ds[0] == NULL_DOMAIN then [] else [ds[0]]) + DropNulls(ds[1..])
  }

  lemma ProductsWidths(ds: seq<Domain>, ws: seq<Domain>, n: nat)
    requires Widths(ds, n) && Widths(ws, n)
    ensures forall b | b in Products(ds, ws, n) :: b == NULL_DOMAIN || |b| == n
  {
    if ds != [] {
      ProductsWidths(ds[1..], ws, n);
    }
  }

  function Meet(ds: seq<Domain>, ws: seq<Domain>, n: nat): (r: seq<Domain>)
    requires Widths(ds, n) && Widths(ws, n)
    ensures Widths(r, n)
  {
    ProductsWidths(ds, ws, n);
    var r := DropNulls(Products(ds, ws, n));
    assert forall i | 0 <= i < |r| :: r[i] in r;
    r
  }

  /** and_merge: an empty left list counts as "no constraint yet". */
  function AndMerge(ds: seq<Domain>, ws: seq<Domain>, n: nat): (r: seq<Domain>)
    requires Widths(ds, n) && Widths(ws, n)
    ensures Widths(r, n)
  {
    if ds == [] then ws else if ws == [] then [] else Meet(ds, ws, n)
  }

  ghost function CompileExpr(e: Expr, T: seq<Tables>): (r: seq<Domain>)
    requires ExprOk(e, |T|) && |T| > 0
    ensures Widths(r, |T|)
  {
    CompileOr(e.ands, T)
  }

  ghost function CompileOr(ands: seq<AndExpr>, T: seq<Tables>): (r: seq<Domain>)
    requires |T| > 0 && forall x | x in ands :: AndOk(x, |T|)
    ensures Widths(r, |T|)
  {
    if ands == [] then []
    else
      assert AndOk(ands[0], |T|);
      FoldAnd(ands[0].conds, [], T) + CompileOr(ands[1..], T)
  }

  /** The conjunction loop from the box list `acc`, stopping at the first
      empty result. */
  ghost function FoldAnd(conds: seq<Cond>, acc: seq<Domain>, T: seq<Tables>): (r: seq<Domain>)
    requires |T| > 0 && Widths(acc, |T|) && forall c | c in conds :: CondOk(c, |T|)
    ensures Widths(r, |T|)
    decreases conds
  {
    if conds == [] then acc
    else
      var d := AndMerge(acc, CompileCond(conds[0], T), |T|);
      if d == [] then [] else FoldAnd(conds[1..], d, T)
  }

  ghost function CompileCond(c: Cond, T: seq<Tables>): (r: seq<Domain>)
    requires |T| > 0 && CondOk(c, |T|)
    ensures Widths(r, |T|)
  {
    match c
    case Paren(e) => CompileExpr(e, T)
    case Equal(slots, str) => EqualBoxes(slots, str, T)
  }
}
