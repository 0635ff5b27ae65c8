/** The evaluator of WHERE clauses: the loops of ma_domain_cond, ma_domain_andexpr
    and ma_domain_expr, proved against the compilation functions. */
module WhereEval {
  import opened Options
  import opened Domains
  import opened Ordering
  import opened Where
  import opened WhereMeaning

  // -------------------------------------------------------------- and_merge

  function Copies(d: Domain, k: nat): seq<Domain>
  {
    seq(k, _ => d)
  }

  /** Every box repeated k times. */
  function Expanded(ds: seq<Domain>, k: nat): seq<Domain>
  {
    if ds == [] then [] else Copies(ds[0], k) + Expanded(ds[1..], k)
  }

  lemma {:induction false} ExpandedSnoc(ds: seq<Domain>, d: Domain, k: nat)
    ensures Expanded(ds + [d], k) == Expanded(ds, k) + Copies(d, k)
  {
    if ds == [] {
      assert ds + [d] == [d];
    } else {
      assert (ds + [d])[1..] == ds[1..] + [d];
      ExpandedSnoc(ds[1..], d, k);
    }
  }

  method Expand(ds: seq<Domain>, k: nat) returns (r: seq<Domain>)
    requires k > 0
    ensures r == Expanded(ds, k)
  {
    r := ds;
    var i := 0;
    ghost var done := 0;
    while i < |r|
      invariant 0 <= done <= |ds| && 0 <= i <= |r|
      invariant r[..i] == Expanded(ds[..done], k)
      invariant r[i..] == ds[done..]
      decreases |ds| - done
    {
      assert r[i] == r[i..][0] == ds[done];
      ExpandedSnoc(ds[..done], ds[done], k);
      assert ds[..done + 1] == ds[..done] + [ds[done]];
      ghost var before := r;
      r := r[..i] + Copies(r[i], k - 1) + r[i..];
      assert r == before[..i] + Copies(ds[done], k) + before[i + 1..];
      assert before[i + 1..] == before[i..][1..] == ds[done + 1..];
      i := i + k;
      done := done + 1;
    }
    assert ds[..done] == ds;
  }

  lemma {:induction false} ExpandedLength(ds: seq<Domain>, k: nat, n: nat)
    requires Widths(ds, n)
    ensures Widths(Expanded(ds, k), n)
  {
    if ds != [] {
      ExpandedLength(ds[1..], k, n);
      assert forall b | b in Copies(ds[0], k) :: b == ds[0] && ds[0] in ds;
    }
  }

  /** The cyclic walk: from position j of the worksheet on, each box meets the
      next worksheet entry, wrapping around. */
  function Cyclic(ds: seq<Domain>, ws: seq<Domain>, j: nat, n: nat): (r: seq<Domain>)
    requires Widths(ds, n) && Widths(ws, n) && ws != [] && j <= |ws|
    ensures |r| == |ds|
    decreases |ds|
  {
    if ds == [] then []
    else
      var k := if j == |ws| then 0 else j;
      assert ds[0] in ds && ws[k] in ws;
      [Intersect(ds[0], ws[k])] + Cyclic(ds[1..], ws, k + 1, n)
  }

  lemma CyclicHead(d: Domain, rest: seq<Domain>, ws: seq<Domain>, j: nat, n: nat)
    requires |d| == n && Widths(rest, n) && Widths(ws, n) && j < |ws|
    ensures Widths([d] + rest, n)
    ensures ws[j] in ws && Cyclic([d] + rest, ws, j, n) == [Intersect(d, ws[j])] + Cyclic(rest, ws, j + 1, n)
  {
    assert ([d] + rest)[1..] == rest;
  }

  lemma {:induction false} CyclicRow(d: Domain, rest: seq<Domain>, ws: seq<Domain>, j: nat, n: nat)
    requires |d| == n && Widths(rest, n) && Widths(ws, n) && ws != [] && j <= |ws|
    ensures Widths(Copies(d, |ws| - j) + rest, n)
    ensures Cyclic(Copies(d, |ws| - j) + rest, ws, j, n) == Row(d, ws)[j..] + Cyclic(rest, ws, |ws|, n)
    decreases |ws| - j
  {
    if j == |ws| {
      assert Copies(d, 0) + rest == rest;
    } else {
      var tail := Copies(d, |ws| - (j + 1)) + rest;
      CyclicRow(d, rest, ws, j + 1, n);
      CyclicHead(d, tail, ws, j, n);
      assert Copies(d, |ws| - j) + rest == [d] + tail;
      assert Row(d, ws)[j..] == [Row(d, ws)[j]] + Row(d, ws)[j + 1..];
      Assoc([Row(d, ws)[j]], Row(d, ws)[j + 1..], Cyclic(rest, ws, |ws|, n));
    }
  }

  lemma Assoc<X>(a: seq<X>, b: seq<X>, c: seq<X>)
    ensures a + (b + c) == (a + b) + c
  {
  }

  lemma CyclicWrap(ds: seq<Domain>, ws: seq<Domain>, n: nat)
    requires Widths(ds, n) && Widths(ws, n) && ws != []
    ensures Cyclic(ds, ws, 0, n) == Cyclic(ds, ws, |ws|, n)
  {
  }

  /** Expansion followed by the cyclic walk lists the products in row-major
      order. */
  lemma {:induction false} CyclicProducts(ds: seq<Domain>, ws: seq<Domain>, n: nat)
    requires Widths(ds, n) && Widths(ws, n) && ws != []
    ensures Widths(Expanded(ds, |ws|), n)
    ensures Cyclic(Expanded(ds, |ws|), ws, 0, n) == Products(ds, ws, n)
  {
    if ds != [] {
      CyclicProducts(ds[1..], ws, n);
      ExpandedLength(ds[1..], |ws|, n);
      CyclicRow(ds[0], Expanded(ds[1..], |ws|), ws, 0, n);
      CyclicWrap(Expanded(ds[1..], |ws|), ws, n);
    }
  }

  method IntersectCyclic(ds: seq<Domain>, ws: seq<Domain>, n: nat) returns (r: seq<Domain>)
    requires Widths(ds, n) && Widths(ws, n) && ws != []
    ensures r == Cyclic(ds, ws, 0, n)
  {
    ghost var whole := Cyclic(ds, ws, 0, n);
    r := ds;
    var i, j := 0, 0;
    while i < |r|
      invariant 0 <= i <= |r| == |ds| == |whole| && 0 <= j <= |ws|
      invariant forall k | 0 <= k < i :: r[k] == whole[k]
      invariant forall k | i <= k < |r| :: r[k] == ds[k]
      invariant Widths(ds[i..], n) && whole[i..] == Cyclic(ds[i..], ws, j, n)
    {
      if j == |ws| { j := 0; }
      assert ds[i..] == [ds[i]] + ds[i + 1..] && ds[i] in ds;
      CyclicHead(ds[i], ds[i + 1..], ws, j, n);
      assert whole[i] == whole[i..][0] && whole[i + 1..] == whole[i..][1..];
      var m := IntersectDomain(r[i], ws[j]);
      r := r[i := m.value];
      i, j := i + 1, j + 1;
    }
  }

  method RemoveNulls(ds: seq<Domain>) returns (r: seq<Domain>)
    ensures r == DropNulls(ds)
  {
    r := [];
    for i := 0 to |ds|
      invariant r + DropNulls(ds[i..]) == DropNulls(ds)
    {
      assert ds[i..][1..] == ds[i + 1..];
      if ds[i] != NULL_DOMAIN {
        r := r + [ds[i]];
      }
    }
  }

  method MergeInPlace(domains: seq<Domain>, worksheet: seq<Domain>, n: nat) returns (r: seq<Domain>)
    requires Widths(domains, n) && Widths(worksheet, n)
    ensures r == AndMerge(domains, worksheet, n)
  {
    if domains == [] { return worksheet; }
    if worksheet == [] { return []; }
    r := Expand(domains, |worksheet|);
    ExpandedLength(domains, |worksheet|, n);
    CyclicProducts(domains, worksheet, n);
    r := IntersectCyclic(r, worksheet, n);
    r := RemoveNulls(r);
  }

  // -------------------------------------------------------------- equalities

  method EvaluateLiteral(slots: seq<Slot>, str: string, T: seq<Tables>) returns (worksheet: seq<Domain>)
    requires slots != [] && SlotsOk(slots, |T|) && str != ""
    ensures worksheet == EqualBoxes(slots, str, T)
  {
    worksheet := [];
    var domain := AnyDomain(|T|);
    var keep := true;
    var i := 0;
    while i < |slots|
      invariant 0 <= i <= |slots| && |domain| == |T| && keep
      invariant LiteralBox(slots[i..], str, T, domain) == LiteralBox(slots, str, T, AnyDomain(|T|))
    {
      assert slots[i] in slots && slots[i..][1..] == slots[i + 1..];
      var table := TableOf(T, slots[i]);
      if str !in table {
        keep := false;
        break;
      }
      domain := domain[slots[i].idx := CondOf(table[str], slots[i].arg)];
      i := i + 1;
    }
    if keep { worksheet := [domain]; }
  }

  method EvaluateName(slots: seq<Slot>, s: string, T: seq<Tables>) returns (box: Option<Domain>)
    requires slots != [] && SlotsOk(slots, |T|) && s in TableOf(T, slots[0])
    ensures box == NameBox(slots, s, T, AnyDomain(|T|))
  {
    var domain := AnyDomain(|T|);
    // the string comes from the first slot's own table: no lookup, no null check
    var first := CondOf(TableOf(T, slots[0])[s], slots[0].arg);
    domain := domain[slots[0].idx := IntersectCond(domain[slots[0].idx], first)];
    var i := 1;
    while i < |slots|
      invariant 1 <= i <= |slots| && |domain| == |T|
      invariant NameBox(slots[i..], s, T, domain) == NameBox(slots, s, T, AnyDomain(|T|))
    {
      assert slots[i] in slots && slots[i..][1..] == slots[i + 1..];
      var table := TableOf(T, slots[i]);
      if s !in table { return None; }
      var p := IntersectCond(domain[slots[i].idx], CondOf(table[s], slots[i].arg));
      domain := domain[slots[i].idx := p];
      if CondIsNull(p) { return None; }
      i := i + 1;
    }
    return Some(domain);
  }

  /** One round of the iteration over the first slot's table. */
  lemma NamesStep(done: seq<Domain>, slots: seq<Slot>, rest: set<string>, s: string, T: seq<Tables>)
    requires slots != [] && SlotsOk(slots, |T|) && IsLeast(s, rest)
    ensures var box := NameBox(slots, s, T, AnyDomain(|T|));
            done + NameBoxes(slots, SortedKeys(rest), T) ==
            (done + if box.Some? then [box.value] else []) + NameBoxes(slots, SortedKeys(rest - {s}), T)
  {
    var box := NameBox(slots, s, T, AnyDomain(|T|));
    var keys := SortedKeys(rest - {s});
    SortedKeysStep(rest, s);
    assert ([s] + keys)[1..] == keys;
    Assoc(done, if box.Some? then [box.value] else [], NameBoxes(slots, keys, T));
  }

  method EvaluateNames(slots: seq<Slot>, T: seq<Tables>) returns (worksheet: seq<Domain>)
    requires slots != [] && SlotsOk(slots, |T|)
    ensures worksheet == EqualBoxes(slots, "", T)
    ensures exists names: seq<string> :: NamedBoxes(worksheet, slots, names, T) && CharsAscending(names)
  {
    worksheet := [];
    // the iteration of a std::map: ascending keys
    var rest := TableOf(T, slots[0]).Keys;
    ghost var whole := EqualBoxes(slots, "", T);
    while rest != {}
      invariant rest <= TableOf(T, slots[0]).Keys
      invariant worksheet + NameBoxes(slots, SortedKeys(rest), T) == whole
      decreases |rest|
    {
      LeastExists(rest);
      var s :| IsLeast(s, rest);
      NamesStep(worksheet, slots, rest, s, T);
      var box := EvaluateName(slots, s, T);
      worksheet := worksheet + if box.Some? then [box.value] else [];
      rest := rest - {s};
    }
    assert SortedKeys(rest) == [];
    ghost var names := EqualBoxesOrder(slots, T);
  }

  // ------------------------------------------------------------------- trees

  method EvaluateCond(c: Cond, domains: seq<Domain>, T: seq<Tables>) returns (r: seq<Domain>)
    requires |T| > 0 && CondOk(c, |T|) && Widths(domains, |T|)
    ensures r == AndMerge(domains, CompileCond(c, T), |T|)
    decreases c, 0
  {
    var worksheet: seq<Domain>;
    match c {
      case Paren(e) => worksheet := EvaluateExpr(e, [], T);
      case Equal(slots, str) =>
        if str != "" {
          worksheet := EvaluateLiteral(slots, str, T);
        } else {
          worksheet := EvaluateNames(slots, T);
        }
    }
    assert worksheet == CompileCond(c, T);
    r := MergeInPlace(domains, worksheet, |T|);
  }

  method EvaluateAnd(x: AndExpr, domains: seq<Domain>, T: seq<Tables>) returns (r: seq<Domain>)
    requires |T| > 0 && AndOk(x, |T|)
    ensures r == domains + FoldAnd(x.conds, [], T)
    decreases x, 1
  {
    var mine: seq<Domain> := [];
    var i := 0;
    while i < |x.conds|
      invariant 0 <= i <= |x.conds| && Widths(mine, |T|)
      invariant FoldAnd(x.conds[i..], mine, T) == FoldAnd(x.conds, [], T)
    {
      assert x.conds[i] in x.conds && x.conds[i..][1..] == x.conds[i + 1..];
      mine := EvaluateCond(x.conds[i], mine, T);
      if mine == [] { return domains; }
      i := i + 1;
    }
    r := domains + mine;
  }

  lemma OrStep(done: seq<Domain>, ands: seq<AndExpr>, i: nat, T: seq<Tables>)
    requires |T| > 0 && i < |ands| && forall x | x in ands :: AndOk(x, |T|)
    ensures AndOk(ands[i], |T|)
    ensures done + CompileOr(ands[i..], T) == (done + FoldAnd(ands[i].conds, [], T)) + CompileOr(ands[i + 1..], T)
  {
    assert AndOk(ands[i], |T|) && ands[i..][1..] == ands[i + 1..];
    Assoc(done, FoldAnd(ands[i].conds, [], T), CompileOr(ands[i + 1..], T));
  }

  method EvaluateExpr(e: Expr, domains: seq<Domain>, T: seq<Tables>) returns (r: seq<Domain>)
    requires |T| > 0 && ExprOk(e, |T|)
    ensures r == domains + CompileExpr(e, T)
    decreases e, 2
  {
    r := domains;
    ghost var whole := domains + CompileExpr(e, T);
    assert e.ands[0..] == e.ands;
    for i := 0 to |e.ands|
      invariant r + CompileOr(e.ands[i..], T) == whole
    {
      OrStep(r, e.ands, i, T);
      r := EvaluateAnd(e.ands[i], r, T);
    }
  }
}
