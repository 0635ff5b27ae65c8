/** The boxes a WHERE clause compiles to denote exactly what the clause says. */
module WhereMeaning {
  import opened Options
  import opened Domains
  import opened Ordering
  import opened Where

  // ------------------------------------------------------------- box lists

  lemma InAnyConcat(a: Domain, xs: seq<Domain>, ys: seq<Domain>)
    ensures InAny(a, xs + ys) <==> InAny(a, xs) || InAny(a, ys)
  {
    if InAny(a, xs) {
      var k :| 0 <= k < |xs| && In(a, xs[k]);
      assert In(a, (xs + ys)[k]);
    }
    if InAny(a, ys) {
      var k :| 0 <= k < |ys| && In(a, ys[k]);
      assert In(a, (xs + ys)[|xs| + k]);
    }
  }

  lemma InAnyHead(a: Domain, ds: seq<Domain>)
    requires ds != []
    ensures InAny(a, ds) <==> In(a, ds[0]) || InAny(a, ds[1..])
  {
    assert ds == [ds[0]] + ds[1..];
    InAnyConcat(a, [ds[0]], ds[1..]);
    assert InAny(a, [ds[0]]) <==> In(a, [ds[0]][0]);
  }

  lemma RowMeaning(a: Domain, d: Domain, ws: seq<Domain>)
    requires |d| > 0 && Widths(ws, |d|) && Concrete(a)
    ensures InAny(a, Row(d, ws)) <==> In(a, d) && InAny(a, ws)
  {
    forall j | 0 <= j < |ws| ensures In(a, Row(d, ws)[j]) <==> In(a, d) && In(a, ws[j]) {
      assert ws[j] in ws;
      IntersectMeaning(a, d, ws[j]);
    }
    if InAny(a, ws) {
      var j :| 0 <= j < |ws| && In(a, ws[j]);
      assert In(a, Row(d, ws)[j]) <==> In(a, d);
    }
  }

  lemma {:induction false} ProductsMeaning(a: Domain, ds: seq<Domain>, ws: seq<Domain>, n: nat)
    requires n > 0 && Widths(ds, n) && Widths(ws, n) && Concrete(a)
    ensures InAny(a, Products(ds, ws, n)) <==> InAny(a, ds) && InAny(a, ws)
  {
    if ds != [] {
      ProductsMeaning(a, ds[1..], ws, n);
      RowMeaning(a, ds[0], ws);
      InAnyHead(a, ds);
      InAnyConcat(a, Row(ds[0], ws), Products(ds[1..], ws, n));
    }
  }

  lemma {:induction false} DropNullsMeaning(a: Domain, ds: seq<Domain>)
    requires Concrete(a) && a != []
    ensures InAny(a, DropNulls(ds)) <==> InAny(a, ds)
  {
    if ds != [] {
      DropNullsMeaning(a, ds[1..]);
      InAnyHead(a, ds);
      var head := if ds[0] == NULL_DOMAIN then [] else [ds[0]];
      InAnyConcat(a, head, DropNulls(ds[1..]));
      if ds[0] == NULL_DOMAIN {
        assert CondIsNull(NULL_DOMAIN[0]);
        NullIsEmpty(a, NULL_DOMAIN);
      } else {
        assert InAny(a, [ds[0]]) <==> In(a, [ds[0]][0]);
      }
    }
  }

  /** The pairwise meet of two box lists denotes the intersection of their
      unions, and holds no null box. */
  lemma MeetMeaning(a: Domain, ds: seq<Domain>, ws: seq<Domain>, n: nat)
    requires n > 0 && Widths(ds, n) && Widths(ws, n) && |a| == n && Concrete(a)
    ensures InAny(a, Meet(ds, ws, n)) <==> InAny(a, ds) && InAny(a, ws)
  {
    ProductsMeaning(a, ds, ws, n);
    DropNullsMeaning(a, Products(ds, ws, n));
  }

  lemma {:induction false} MeetNonNull(ds: seq<Domain>, ws: seq<Domain>, n: nat)
    requires n > 0 && Widths(ds, n) && Widths(ws, n)
    ensures forall b | b in Meet(ds, ws, n) :: !IsNull(b)
  {
    ProductsNonNull(ds, ws, n);
  }

  lemma {:induction false} ProductsNonNull(ds: seq<Domain>, ws: seq<Domain>, n: nat)
    requires n > 0 && Widths(ds, n) && Widths(ws, n)
    ensures forall b | b in Products(ds, ws, n) :: b == NULL_DOMAIN || !IsNull(b)
  {
    if ds != [] {
      ProductsNonNull(ds[1..], ws, n);
      forall b | b in Row(ds[0], ws) ensures b == NULL_DOMAIN || !IsNull(b) {
        var j :| 0 <= j < |ws| && b == Row(ds[0], ws)[j];
        assert b == Intersect(ds[0], ws[j]);
      }
    }
  }

  /** Row-major order: entry i * |ws| + j is the intersection of the i-th left
      box with the j-th right box. */
  lemma {:induction false} ProductsOrder(ds: seq<Domain>, ws: seq<Domain>, n: nat, i: nat, j: nat) returns (p: nat)
    requires Widths(ds, n) && Widths(ws, n)
    requires i < |ds| && j < |ws|
    ensures p == i * |ws| + j && p < |Products(ds, ws, n)|
    ensures |ds[i]| == |ws[j]| && Products(ds, ws, n)[p] == Intersect(ds[i], ws[j])
    decreases i
  {
    assert ds[i] in ds && ws[j] in ws;
    if i == 0 {
      p := j;
      assert Products(ds, ws, n)[p] == Row(ds[0], ws)[j];
    } else {
      var q := ProductsOrder(ds[1..], ws, n, i - 1, j);
      ProductsTail(ds, ws, n, q);
      p := |ws| + q;
      Distribute(i, |ws|);
    }
  }

  lemma Distribute(i: int, w: int)
    ensures i * w == w + (i - 1) * w
  {
  }

  lemma ProductsTail(ds: seq<Domain>, ws: seq<Domain>, n: nat, p: nat)
    requires Widths(ds, n) && Widths(ws, n)
    requires ds != [] && p < |Products(ds[1..], ws, n)|
    ensures |ws| + p < |Products(ds, ws, n)|
    ensures Products(ds, ws, n)[|ws| + p] == Products(ds[1..], ws, n)[p]
  {
  }

  lemma {:induction false} ProductsLength(ds: seq<Domain>, ws: seq<Domain>, n: nat)
    requires Widths(ds, n) && Widths(ws, n)
    ensures |Products(ds, ws, n)| == |ds| * |ws|
  {
    if ds != [] {
      ProductsLength(ds[1..], ws, n);
      assert |ds| * |ws| == |ws| + (|ds| - 1) * |ws|;
    }
  }

  // --------------------------------------------------------------- equality

  lemma {:induction false} LiteralBoxMeaning(slots: seq<Slot>, str: string, T: seq<Tables>, d: Domain, a: Domain)
    requires SlotsOk(slots, |T|) && |d| == |T| == |a| && Concrete(a)
    ensures LiteralBox(slots, str, T, d).Some? <==> forall sl | sl in slots :: str in TableOf(T, sl)
    ensures LiteralBox(slots, str, T, d).Some? ==>
              (In(a, LiteralBox(slots, str, T, d).value) <==>
               && (forall i: nat | i < |slots| && LastWrite(slots, i) :: Names(T, a, slots[i], str))
               && (forall k | 0 <= k < |a| && (forall sl | sl in slots :: sl.idx != k) :: InCond(a[k], d[k])))
  {
    if slots != [] && str in TableOf(T, slots[0]) {
      var rest := slots[1..];
      var d' := d[slots[0].idx := CondOf(TableOf(T, slots[0])[str], slots[0].arg)];
      LiteralBoxMeaning(rest, str, T, d', a);
      assert forall sl :: sl in slots <==> sl == slots[0] || sl in rest;
      if LiteralBox(rest, str, T, d').Some? {
        LiteralStep(slots, str, T, d, d', a);
      }
    }
  }

  /** One overwriting step, in both directions. */
  lemma LiteralStep(slots: seq<Slot>, str: string, T: seq<Tables>, d: Domain, d': Domain, a: Domain)
    requires slots != [] && SlotsOk(slots, |T|) && |d| == |T| == |a| && Concrete(a)
    requires forall sl | sl in slots :: str in TableOf(T, sl)
    requires d' == d[slots[0].idx := CondOf(TableOf(T, slots[0])[str], slots[0].arg)]
    ensures (&& (forall i: nat | i < |slots| && LastWrite(slots, i) :: Names(T, a, slots[i], str))
             && (forall k | 0 <= k < |a| && (forall sl | sl in slots :: sl.idx != k) :: InCond(a[k], d[k])))
            <==>
            (&& (forall i: nat | i < |slots[1..]| && LastWrite(slots[1..], i) :: Names(T, a, slots[1..][i], str))
             && (forall k | 0 <= k < |a| && (forall sl | sl in slots[1..] :: sl.idx != k) :: InCond(a[k], d'[k])))
  {
    var rest := slots[1..];
    var c := slots[0].idx;
    assert forall i: nat | i < |rest| :: LastWrite(rest, i) <==> LastWrite(slots, i + 1);
    assert forall sl :: sl in slots <==> sl == slots[0] || sl in rest;
    assert InCond(a[c], d'[c]) <==> Names(T, a, slots[0], str);
    assert LastWrite(slots, 0) <==> forall sl | sl in rest :: sl.idx != c;
    if && (forall i: nat | i < |rest| && LastWrite(rest, i) :: Names(T, a, rest[i], str))
       && (forall k | 0 <= k < |a| && (forall sl | sl in rest :: sl.idx != k) :: InCond(a[k], d'[k]))
    {
      forall i: nat | i < |slots| && LastWrite(slots, i) ensures Names(T, a, slots[i], str) {
        if i > 0 { assert LastWrite(rest, i - 1); }
      }
      forall k | 0 <= k < |a| && (forall sl | sl in slots :: sl.idx != k) ensures InCond(a[k], d[k]) {
        assert slots[0] in slots;
        assert InCond(a[k], d'[k]);
      }
    }
    if && (forall i: nat | i < |slots| && LastWrite(slots, i) :: Names(T, a, slots[i], str))
       && (forall k | 0 <= k < |a| && (forall sl | sl in slots :: sl.idx != k) :: InCond(a[k], d[k]))
    {
      forall i: nat | i < |rest| && LastWrite(rest, i) ensures Names(T, a, rest[i], str) {
        assert LastWrite(slots, i + 1);
      }
      forall k | 0 <= k < |a| && (forall sl | sl in rest :: sl.idx != k) ensures InCond(a[k], d'[k]) {
        if k != c { assert forall sl | sl in slots :: sl.idx != k; }
      }
    }
  }

  lemma {:induction false} NameBoxMeaning(slots: seq<Slot>, s: string, T: seq<Tables>, d: Domain, a: Domain)
    requires SlotsOk(slots, |T|) && |d| == |T| == |a| && Concrete(a)
    ensures (NameBox(slots, s, T, d).Some? && In(a, NameBox(slots, s, T, d).value))
            <==> In(a, d) && AllName(T, a, slots, s)
  {
    if slots != [] && s in TableOf(T, slots[0]) {
      var c := slots[0].idx;
      var q := CondOf(TableOf(T, slots[0])[s], slots[0].arg);
      var p := IntersectCond(d[c], q);
      IntersectCondMeaning(a[c], d[c], q);
      assert InCond(a[c], q) <==> Names(T, a, slots[0], s);
      assert AllName(T, a, slots, s) <==> Names(T, a, slots[0], s) && AllName(T, a, slots[1..], s);
      if !CondIsNull(p) {
        var d' := d[c := p];
        NameBoxMeaning(slots[1..], s, T, d', a);
        assert In(a, d') <==> In(a, d) && InCond(a[c], q) by {
          assert forall k | 0 <= k < |a| && k != c :: d'[k] == d[k];
        }
      }
    }
  }

  lemma InAnyDomain(a: Domain, n: nat)
    requires |a| == n
    ensures In(a, AnyDomain(n))
  {
  }

  lemma {:induction false} NameBoxesMeaning(slots: seq<Slot>, names: seq<string>, T: seq<Tables>, a: Domain)
    requires SlotsOk(slots, |T|) && |a| == |T| && Concrete(a)
    ensures InAny(a, NameBoxes(slots, names, T)) <==> exists s :: s in names && AllName(T, a, slots, s)
  {
    if names != [] {
      var box := NameBox(slots, names[0], T, AnyDomain(|T|));
      NameBoxMeaning(slots, names[0], T, AnyDomain(|T|), a);
      InAnyDomain(a, |T|);
      NameBoxesMeaning(slots, names[1..], T, a);
      var head := if box.Some? then [box.value] else [];
      InAnyConcat(a, head, NameBoxes(slots, names[1..], T));
      assert InAny(a, head) <==> box.Some? && In(a, box.value) by {
        if box.Some? { assert head[0] == box.value; }
      }
      assert forall s :: s in names <==> s == names[0] || s in names[1..];
    }
  }

  lemma EqualMeaning(slots: seq<Slot>, str: string, T: seq<Tables>, a: Domain)
    requires slots != [] && SlotsOk(slots, |T|) && |a| == |T| && Concrete(a)
    ensures InAny(a, EqualBoxes(slots, str, T)) <==> CondHolds(Equal(slots, str), T, a, Overwriting)
  {
    if str != "" {
      var box := LiteralBox(slots, str, T, AnyDomain(|T|));
      LiteralBoxMeaning(slots, str, T, AnyDomain(|T|), a);
      if box.Some? { assert InAny(a, [box.value]) <==> In(a, [box.value][0]); }
    } else {
      var keys := SortedKeys(TableOf(T, slots[0]).Keys);
      NameBoxesMeaning(slots, keys, T, a);
      forall s | AllName(T, a, slots, s) ensures s in keys {
        assert Names(T, a, slots[0], s);
      }
    }
  }

  /** The box admits exactly the assignments at which every slot holds the name. */
  ghost predicate BoxOf(box: Domain, slots: seq<Slot>, name: string, T: seq<Tables>)
    requires SlotsOk(slots, |T|)
  {
    forall a: Domain | |a| == |T| && Concrete(a) :: In(a, box) <==> AllName(T, a, slots, name)
  }

  /** Each box of the list belongs to the name at its place. */
  ghost predicate NamedBoxes(boxes: seq<Domain>, slots: seq<Slot>, names: seq<string>, T: seq<Tables>)
    requires SlotsOk(slots, |T|)
  {
    |boxes| == |names| && forall i | 0 <= i < |boxes| :: BoxOf(boxes[i], slots, names[i], T)
  }

  lemma {:induction false} NameBoxesOrder(slots: seq<Slot>, keys: seq<string>, T: seq<Tables>)
    returns (names: seq<string>)
    requires SlotsOk(slots, |T|) && Ascending(keys)
    ensures Ascending(names) && (forall s | s in names :: s in keys)
    ensures NamedBoxes(NameBoxes(slots, keys, T), slots, names, T)
  {
    names := [];
    if keys != [] {
      var box := NameBox(slots, keys[0], T, AnyDomain(|T|));
      names := NameBoxesOrder(slots, keys[1..], T);
      if box.Some? {
        forall a: Domain | |a| == |T| && Concrete(a) ensures In(a, box.value) <==> AllName(T, a, slots, keys[0]) {
          NameBoxMeaning(slots, keys[0], T, AnyDomain(|T|), a);
          InAnyDomain(a, |T|);
        }
        assert BoxOf(box.value, slots, keys[0], T);
        forall i | 0 <= i < |names| ensures Less(keys[0], names[i]) {
          assert names[i] in names;
          var j :| 0 <= j < |keys[1..]| && keys[1..][j] == names[i];
          assert Less(keys[0], keys[j + 1]);
        }
        names := [keys[0]] + names;
      }
    }
  }

  ghost predicate CharsAscending(names: seq<string>)
  {
    forall i, j | 0 <= i < j < |names| :: CharsLess(names[i], names[j])
  }

  /** The boxes of an equality without literal stand in the order of the names they
      belong to, ascending character by character. */
  lemma EqualBoxesOrder(slots: seq<Slot>, T: seq<Tables>) returns (names: seq<string>)
    requires slots != [] && SlotsOk(slots, |T|)
    ensures NamedBoxes(EqualBoxes(slots, "", T), slots, names, T) && CharsAscending(names)
  {
    names := NameBoxesOrder(slots, SortedKeys(TableOf(T, slots[0]).Keys), T);
    forall i, j | 0 <= i < j < |names| ensures CharsLess(names[i], names[j]) { LessMeaning(names[i], names[j]); }
  }

  // ------------------------------------------------------------------ trees

  /** The compiled boxes of a WHERE clause cover exactly the assignments that
      satisfy the clause (literal lists read with overwriting). */
  lemma {:induction false} CompileMeaning(e: Expr, T: seq<Tables>, a: Domain)
    requires ExprOk(e, |T|) && |T| > 0 && |a| == |T| && Concrete(a)
    ensures InAny(a, CompileExpr(e, T)) <==> ExprHolds(e, T, a, Overwriting)
    decreases e, 1
  {
    OrMeaning(e.ands, T, a);
  }

  lemma {:induction false} OrMeaning(ands: seq<AndExpr>, T: seq<Tables>, a: Domain)
    requires |T| > 0 && |a| == |T| && Concrete(a) && forall x | x in ands :: AndOk(x, |T|)
    ensures InAny(a, CompileOr(ands, T)) <==> exists x :: x in ands && AndHolds(x, T, a, Overwriting)
    decreases ands, 0
  {
    if ands != [] {
      var x := ands[0];
      assert AndOk(x, |T|);
      FoldAndMeaning(x.conds, [], T, a);
      OrMeaning(ands[1..], T, a);
      InAnyConcat(a, FoldAnd(x.conds, [], T), CompileOr(ands[1..], T));
      assert AndHolds(x, T, a, Overwriting) <==> InAny(a, FoldAnd(x.conds, [], T));
      assert forall y :: y in ands <==> y == x || y in ands[1..];
    }
  }

  lemma AndMergeMeaning(a: Domain, ds: seq<Domain>, ws: seq<Domain>, n: nat)
    requires Widths(ds, n) && Widths(ws, n) && |a| == n > 0 && Concrete(a)
    ensures InAny(a, AndMerge(ds, ws, n)) <==> (ds == [] || InAny(a, ds)) && InAny(a, ws)
  {
    MeetMeaning(a, ds, ws, n);
  }

  lemma {:induction false} FoldAndMeaning(conds: seq<Cond>, acc: seq<Domain>, T: seq<Tables>, a: Domain)
    requires |T| > 0 && Widths(acc, |T|) && forall c | c in conds :: CondOk(c, |T|)
    requires |a| == |T| && Concrete(a)
    ensures InAny(a, FoldAnd(conds, acc, T)) <==>
            && (conds == [] || acc != [] ==> InAny(a, acc))
            && (forall c | c in conds :: CondHolds(c, T, a, Overwriting))
    decreases conds, 0
  {
    if conds != [] {
      var c := conds[0];
      CondMeaning(c, T, a);
      var d := AndMerge(acc, CompileCond(c, T), |T|);
      AndMergeMeaning(a, acc, CompileCond(c, T), |T|);
      assert forall y :: y in conds <==> y == c || y in conds[1..];
      if d != [] {
        FoldAndMeaning(conds[1..], d, T, a);
      }
    }
  }

  lemma {:induction false} CondMeaning(c: Cond, T: seq<Tables>, a: Domain)
    requires |T| > 0 && CondOk(c, |T|) && |a| == |T| && Concrete(a)
    ensures InAny(a, CompileCond(c, T)) <==> CondHolds(c, T, a, Overwriting)
    decreases c, 0
  {
    match c
    case Paren(e) => CompileMeaning(e, T, a);
    case Equal(slots, str) => EqualMeaning(slots, str, T, a);
  }
}
