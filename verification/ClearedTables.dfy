/** What clearing the tables of some conditions does to a compiled clause. */
module ClearedTables {
  import opened Options
  import opened Domains
  import opened Ordering
  import opened Where
  import opened WhereFacts

  const NO_NAMES := Tables(map[], map[])

  /** The tables once the conditions at these positions were reset. */
  function Cleared(T: seq<Tables>, dead: set<nat>): (U: seq<Tables>)
    ensures |U| == |T|
  {
    seq(|T|, i requires 0 <= i < |T| => if i in dead then NO_NAMES else T[i])
  }

  // ----------------------------------------------------------------- pruning

  /** The equality mentions a reset condition. */
  predicate Touches(c: Cond, dead: set<nat>)
  {
    c.Equal? && exists i | 0 <= i < |c.slots| :: c.slots[i].idx in dead
  }

  /** Some equality that stands directly in the conjunction does. */
  predicate Kills(conds: seq<Cond>, dead: set<nat>)
  {
    exists i | 0 <= i < |conds| :: Touches(conds[i], dead)
  }

  /** The clause without the disjuncts, at any depth, that mention a reset
      condition. */
  function Pruned(e: Expr, dead: set<nat>): Expr
  {
    Or(PrunedOr(e.ands, dead))
  }

  function PrunedOr(ands: seq<AndExpr>, dead: set<nat>): seq<AndExpr>
  {
    if ands == [] then []
    else (if Kills(ands[0].conds, dead) then [] else [And(PrunedAnd(ands[0].conds, dead))]) + PrunedOr(ands[1..], dead)
  }

  function PrunedAnd(conds: seq<Cond>, dead: set<nat>): seq<Cond>
  {
    if conds == [] then [] else [PrunedCond(conds[0], dead)] + PrunedAnd(conds[1..], dead)
  }

  function PrunedCond(c: Cond, dead: set<nat>): Cond
  {
    if c.Paren? then Paren(Pruned(c.expr, dead)) else c
  }

  lemma {:induction false} PrunedOk(e: Expr, dead: set<nat>, n: nat)
    requires ExprOk(e, n)
    ensures ExprOk(Pruned(e, dead), n)
    decreases e, 1
  {
    PrunedOrOk(e.ands, dead, n);
  }

  lemma {:induction false} PrunedOrOk(ands: seq<AndExpr>, dead: set<nat>, n: nat)
    requires forall x | x in ands :: AndOk(x, n)
    ensures forall x | x in PrunedOr(ands, dead) :: AndOk(x, n)
    decreases ands, 0
  {
    if ands != [] {
      assert AndOk(ands[0], n);
      PrunedAndOk(ands[0].conds, dead, n);
      PrunedOrOk(ands[1..], dead, n);
    }
  }

  lemma {:induction false} PrunedAndOk(conds: seq<Cond>, dead: set<nat>, n: nat)
    requires forall c | c in conds :: CondOk(c, n)
    ensures forall c | c in PrunedAnd(conds, dead) :: CondOk(c, n)
    decreases conds, 0
  {
    if conds != [] {
      PrunedCondOk(conds[0], dead, n);
      PrunedAndOk(conds[1..], dead, n);
    }
  }

  lemma {:induction false} PrunedCondOk(c: Cond, dead: set<nat>, n: nat)
    requires CondOk(c, n)
    ensures CondOk(PrunedCond(c, dead), n)
    decreases c, 0
  {
    if c.Paren? { PrunedOk(c.expr, dead, n); }
  }

  // ------------------------------------------------- compiling without a table

  lemma {:induction false} DeadLiteral(slots: seq<Slot>, str: string, U: seq<Tables>, d: Domain, i: nat)
    requires SlotsOk(slots, |U|) && |d| == |U| && i < |slots| && U[slots[i].idx] == NO_NAMES
    ensures LiteralBox(slots, str, U, d) == None
  {
    if i > 0 && str in TableOf(U, slots[0]) {
      var k := TableOf(U, slots[0])[str];
      DeadLiteral(slots[1..], str, U, d[slots[0].idx := CondOf(k, slots[0].arg)], i - 1);
    }
  }

  lemma {:induction false} DeadName(slots: seq<Slot>, s: string, U: seq<Tables>, d: Domain, i: nat)
    requires SlotsOk(slots, |U|) && |d| == |U| && i < |slots| && U[slots[i].idx] == NO_NAMES
    ensures NameBox(slots, s, U, d) == None
  {
    if i > 0 && s in TableOf(U, slots[0]) {
      var p := IntersectCond(d[slots[0].idx], CondOf(TableOf(U, slots[0])[s], slots[0].arg));
      DeadName(slots[1..], s, U, d[slots[0].idx := p], i - 1);
    }
  }

  lemma {:induction false} DeadNames(slots: seq<Slot>, names: seq<string>, U: seq<Tables>, i: nat)
    requires SlotsOk(slots, |U|) && i < |slots| && U[slots[i].idx] == NO_NAMES
    ensures NameBoxes(slots, names, U) == []
  {
    if names != [] {
      DeadName(slots, names[0], U, AnyDomain(|U|), i);
      DeadNames(slots, names[1..], U, i);
    }
  }

  /** An equality over a reset condition has no box. */
  lemma DeadCond(c: Cond, T: seq<Tables>, dead: set<nat>)
    requires |T| > 0 && CondOk(c, |T|) && Touches(c, dead)
    ensures CompileCond(c, Cleared(T, dead)) == []
  {
    var U := Cleared(T, dead);
    var i: nat :| i < |c.slots| && c.slots[i].idx in dead;
    DeadLiteral(c.slots, c.str, U, AnyDomain(|U|), i);
    DeadNames(c.slots, SortedKeys(TableOf(U, c.slots[0]).Keys), U, i);
  }

  /** And so has the conjunction it stands in. */
  lemma {:induction false} DeadFold(conds: seq<Cond>, acc: seq<Domain>, T: seq<Tables>, dead: set<nat>)
    requires |T| > 0 && Widths(acc, |T|) && (forall c | c in conds :: CondOk(c, |T|)) && Kills(conds, dead)
    ensures FoldAnd(conds, acc, Cleared(T, dead)) == []
    decreases conds
  {
    var U := Cleared(T, dead);
    if Touches(conds[0], dead) {
      DeadCond(conds[0], T, dead);
    } else {
      var i :| 0 <= i < |conds| && Touches(conds[i], dead);
      assert conds[1..][i - 1] == conds[i];
      DeadFold(conds[1..], AndMerge(acc, CompileCond(conds[0], U), |T|), T, dead);
    }
  }

  // ------------------------------------------------------------- pruned clause

  /** Compiling against cleared tables is compiling the pruned clause against
      the tables before. */
  lemma {:induction false} PrunedCompile(e: Expr, T: seq<Tables>, dead: set<nat>)
    requires ExprOk(e, |T|) && |T| > 0
    ensures ExprOk(Pruned(e, dead), |T|) && CompileExpr(e, Cleared(T, dead)) == CompileExpr(Pruned(e, dead), T)
    decreases e, 2
  {
    PrunedOk(e, dead, |T|);
    PrunedOrCompile(e.ands, T, dead);
  }

  lemma SplitOr(x: AndExpr, ands: seq<AndExpr>, T: seq<Tables>)
    requires |T| > 0 && AndOk(x, |T|) && (forall y | y in ands :: AndOk(y, |T|))
             && forall y | y in [x] + ands :: AndOk(y, |T|)
    ensures CompileOr([x] + ands, T) == FoldAnd(x.conds, [], T) + CompileOr(ands, T)
  {
    assert ([x] + ands)[1..] == ands;
  }

  lemma {:induction false} PrunedOrCompile(ands: seq<AndExpr>, T: seq<Tables>, dead: set<nat>)
    requires |T| > 0 && forall x | x in ands :: AndOk(x, |T|)
    ensures forall x | x in PrunedOr(ands, dead) :: AndOk(x, |T|)
    ensures CompileOr(ands, Cleared(T, dead)) == CompileOr(PrunedOr(ands, dead), T)
    decreases ands, 1
  {
    PrunedOrOk(ands, dead, |T|);
    if ands != [] {
      var conds := ands[0].conds;
      assert AndOk(ands[0], |T|);
      PrunedOrCompile(ands[1..], T, dead);
      if Kills(conds, dead) {
        DeadFold(conds, [], T, dead);
        assert PrunedOr(ands, dead) == PrunedOr(ands[1..], dead);
      } else {
        PrunedFold(conds, [], T, dead);
        SplitOr(And(PrunedAnd(conds, dead)), PrunedOr(ands[1..], dead), T);
      }
    }
  }

  lemma {:induction false} PrunedFold(conds: seq<Cond>, acc: seq<Domain>, T: seq<Tables>, dead: set<nat>)
    requires |T| > 0 && Widths(acc, |T|) && (forall c | c in conds :: CondOk(c, |T|)) && !Kills(conds, dead)
    ensures forall c | c in PrunedAnd(conds, dead) :: CondOk(c, |T|)
    ensures FoldAnd(conds, acc, Cleared(T, dead)) == FoldAnd(PrunedAnd(conds, dead), acc, T)
    decreases conds, 0
  {
    PrunedAndOk(conds, dead, |T|);
    if conds != [] {
      assert !Touches(conds[0], dead);
      PrunedCondCompile(conds[0], T, dead);
      var d := AndMerge(acc, CompileCond(conds[0], Cleared(T, dead)), |T|);
      assert !Kills(conds[1..], dead) by {
        forall i | 0 <= i < |conds| - 1 ensures !Touches(conds[1..][i], dead) { assert conds[1..][i] == conds[i + 1]; }
      }
      PrunedFold(conds[1..], d, T, dead);
    }
  }

  lemma {:induction false} PrunedCondCompile(c: Cond, T: seq<Tables>, dead: set<nat>)
    requires |T| > 0 && CondOk(c, |T|) && !Touches(c, dead)
    ensures CondOk(PrunedCond(c, dead), |T|)
    ensures CompileCond(c, Cleared(T, dead)) == CompileCond(PrunedCond(c, dead), T)
    decreases c, 0
  {
    match c
    case Paren(e) => PrunedCompile(e, T, dead);
    case Equal(slots, _) =>
      forall sl: Slot | sl.idx < |T| && CondMentions(c, sl) ensures TableOf(Cleared(T, dead), sl) == TableOf(T, sl) {
        var i :| 0 <= i < |slots| && slots[i] == sl;
        assert slots[i].idx !in dead;
      }
      CondFrame(c, Cleared(T, dead), T);
  }

  // ------------------------------------------------------------- boxes lost

  /** xs comes from ys by leaving entries out. */
  predicate Sub<T(==)>(xs: seq<T>, ys: seq<T>)
  {
    xs == [] || (ys != [] && ((xs[0] == ys[0] && Sub(xs[1..], ys[1..])) || Sub(xs, ys[1..])))
  }

  lemma {:induction false} SubRefl<T>(xs: seq<T>)
    ensures Sub(xs, xs)
  {
    if xs != [] { SubRefl(xs[1..]); }
  }

  lemma {:induction false} SubLength<T>(xs: seq<T>, ys: seq<T>)
    requires Sub(xs, ys)
    ensures |xs| <= |ys| && (|xs| == |ys| ==> xs == ys)
    decreases ys
  {
    if xs != [] {
      if xs[0] == ys[0] && Sub(xs[1..], ys[1..]) {
        SubLength(xs[1..], ys[1..]);
        assert xs == [xs[0]] + xs[1..] && ys == [ys[0]] + ys[1..];
      } else {
        SubLength(xs, ys[1..]);
      }
    }
  }

  lemma {:induction false} SubTail<T>(xs: seq<T>, pre: seq<T>, ys: seq<T>)
    requires Sub(xs, ys)
    ensures Sub(xs, pre + ys)
  {
    if pre == [] {
      assert pre + ys == ys;
    } else {
      SubTail(xs, pre[1..], ys);
      assert (pre + ys)[1..] == pre[1..] + ys;
    }
  }

  lemma {:induction false} SubConcat<T>(a: seq<T>, b: seq<T>, c: seq<T>, d: seq<T>)
    requires Sub(a, c) && Sub(b, d)
    ensures Sub(a + b, c + d)
    decreases c
  {
    if a == [] {
      assert a + b == b;
      SubTail(b, c, d);
    } else {
      assert (c + d)[1..] == c[1..] + d && (a + b)[1..] == a[1..] + b;
      if a[0] == c[0] && Sub(a[1..], c[1..]) {
        SubConcat(a[1..], b, c[1..], d);
      } else {
        SubConcat(a, b, c[1..], d);
      }
    }
  }

  lemma {:induction false} SubRow(d: Domain, ws: seq<Domain>, ws': seq<Domain>)
    requires Widths(ws, |d|) && Widths(ws', |d|) && Sub(ws, ws')
    ensures Sub(Row(d, ws), Row(d, ws'))
    decreases ws'
  {
    if ws != [] {
      assert Row(d, ws')[1..] == Row(d, ws'[1..]);
      if ws[0] == ws'[0] && Sub(ws[1..], ws'[1..]) {
        SubRow(d, ws[1..], ws'[1..]);
        assert Row(d, ws)[1..] == Row(d, ws[1..]);
      } else {
        SubRow(d, ws, ws'[1..]);
      }
    }
  }

  lemma {:induction false} SubProducts(ds: seq<Domain>, ws: seq<Domain>, ds': seq<Domain>, ws': seq<Domain>, n: nat)
    requires Widths(ds, n) && Widths(ws, n) && Widths(ds', n) && Widths(ws', n) && Sub(ds, ds') && Sub(ws, ws')
    ensures Sub(Products(ds, ws, n), Products(ds', ws', n))
    decreases ds'
  {
    if ds != [] {
      if ds[0] == ds'[0] && Sub(ds[1..], ds'[1..]) {
        SubRow(ds[0], ws, ws');
        SubProducts(ds[1..], ws, ds'[1..], ws', n);
        SubConcat(Row(ds[0], ws), Products(ds[1..], ws, n), Row(ds[0], ws'), Products(ds'[1..], ws', n));
      } else {
        SubProducts(ds, ws, ds'[1..], ws', n);
        SubTail(Products(ds, ws, n), Row(ds'[0], ws'), Products(ds'[1..], ws', n));
      }
    }
  }

  lemma {:induction false} SubDrop(ds: seq<Domain>, ds': seq<Domain>)
    requires Sub(ds, ds')
    ensures Sub(DropNulls(ds), DropNulls(ds'))
    decreases ds'
  {
    if ds != [] {
      var head' := if ds'[0] == NULL_DOMAIN then [] else [ds'[0]];
      if ds[0] == ds'[0] && Sub(ds[1..], ds'[1..]) {
        SubDrop(ds[1..], ds'[1..]);
        SubRefl(head');
        SubConcat(head', DropNulls(ds[1..]), head', DropNulls(ds'[1..]));
      } else {
        SubDrop(ds, ds'[1..]);
        SubTail(DropNulls(ds), head', DropNulls(ds'[1..]));
      }
    }
  }

  /** The smaller accumulator is empty only before the first conjunct. */
  predicate SubAcc(acc: seq<Domain>, acc': seq<Domain>)
  {
    Sub(acc, acc') && (acc == [] ==> acc' == [])
  }

  lemma SubMerge(acc: seq<Domain>, ws: seq<Domain>, acc': seq<Domain>, ws': seq<Domain>, n: nat)
    requires Widths(acc, n) && Widths(ws, n) && Widths(acc', n) && Widths(ws', n) && SubAcc(acc, acc') && Sub(ws, ws')
    ensures Sub(AndMerge(acc, ws, n), AndMerge(acc', ws', n))
  {
    SubProducts(acc, ws, acc', ws', n);
    SubDrop(Products(acc, ws, n), Products(acc', ws', n));
  }

  /** Clearing tables only removes boxes from what a clause compiles to. */
  lemma {:induction false} OnlyLoses(e: Expr, T: seq<Tables>, dead: set<nat>)
    requires ExprOk(e, |T|) && |T| > 0
    ensures Sub(CompileExpr(e, Cleared(T, dead)), CompileExpr(e, T))
    decreases e, 2
  {
    OrLoses(e.ands, T, dead);
  }

  lemma {:induction false} OrLoses(ands: seq<AndExpr>, T: seq<Tables>, dead: set<nat>)
    requires |T| > 0 && forall x | x in ands :: AndOk(x, |T|)
    ensures Sub(CompileOr(ands, Cleared(T, dead)), CompileOr(ands, T))
    decreases ands, 1
  {
    if ands != [] {
      var U := Cleared(T, dead);
      assert AndOk(ands[0], |T|);
      FoldLoses(ands[0].conds, [], [], T, dead);
      OrLoses(ands[1..], T, dead);
      SubConcat(FoldAnd(ands[0].conds, [], U), CompileOr(ands[1..], U), FoldAnd(ands[0].conds, [], T),
                CompileOr(ands[1..], T));
    }
  }

  lemma {:induction false} FoldLoses(conds: seq<Cond>, acc: seq<Domain>, acc': seq<Domain>, T: seq<Tables>,
                                     dead: set<nat>)
    requires |T| > 0 && Widths(acc, |T|) && Widths(acc', |T|) && SubAcc(acc, acc')
             && forall c | c in conds :: CondOk(c, |T|)
    ensures Sub(FoldAnd(conds, acc, Cleared(T, dead)), FoldAnd(conds, acc', T))
    decreases conds, 0
  {
    if conds != [] {
      var ws, ws' := CompileCond(conds[0], Cleared(T, dead)), CompileCond(conds[0], T);
      CondLoses(conds[0], T, dead);
      SubMerge(acc, ws, acc', ws', |T|);
      if AndMerge(acc, ws, |T|) != [] {
        FoldLoses(conds[1..], AndMerge(acc, ws, |T|), AndMerge(acc', ws', |T|), T, dead);
      }
    }
  }

  lemma {:induction false} CondLoses(c: Cond, T: seq<Tables>, dead: set<nat>)
    requires |T| > 0 && CondOk(c, |T|)
    ensures Sub(CompileCond(c, Cleared(T, dead)), CompileCond(c, T))
    decreases c, 0
  {
    if c.Paren? {
      OnlyLoses(c.expr, T, dead);
    } else if Touches(c, dead) {
      DeadCond(c, T, dead);
    } else {
      PrunedCondCompile(c, T, dead);
      SubRefl(CompileCond(c, T));
    }
  }

  // ---------------------------------------------------------- nothing is lost

  /** The boxes of one disjunct. */
  ghost function BoxesOf(x: AndExpr, T: seq<Tables>): seq<Domain>
    requires |T| > 0 && AndOk(x, |T|)
  {
    FoldAnd(x.conds, [], T)
  }

  /** A clause keeps its boxes exactly when every disjunct keeps its own. */
  lemma {:induction false} KeptByDisjunct(ands: seq<AndExpr>, T: seq<Tables>, dead: set<nat>)
    requires |T| > 0 && forall x | x in ands :: AndOk(x, |T|)
    ensures CompileOr(ands, Cleared(T, dead)) == CompileOr(ands, T) <==>
            forall i | 0 <= i < |ands| :: BoxesOf(ands[i], Cleared(T, dead)) == BoxesOf(ands[i], T)
  {
    if ands != [] {
      var U := Cleared(T, dead);
      assert AndOk(ands[0], |T|);
      KeptByDisjunct(ands[1..], T, dead);
      FoldLoses(ands[0].conds, [], [], T, dead);
      OrLoses(ands[1..], T, dead);
      var a, b, c, d := BoxesOf(ands[0], U), CompileOr(ands[1..], U), BoxesOf(ands[0], T), CompileOr(ands[1..], T);
      SubLength(a, c);
      SubLength(b, d);
      SplitEqual(a, b, c, d);
      assert ands == [ands[0]] + ands[1..];
    }
  }

  lemma SplitEqual<T>(a: seq<T>, b: seq<T>, c: seq<T>, d: seq<T>)
    requires |a| <= |c| && |b| <= |d|
    ensures a + b == c + d <==> a == c && b == d
  {
    if a + b == c + d {
      assert |a + b| == |c + d|;
      assert a == (a + b)[..|a|] && c == (c + d)[..|c|];
      assert b == (a + b)[|a|..] && d == (c + d)[|c|..];
    }
  }

  /** No parentheses. */
  predicate Flat(e: Expr)
  {
    forall i | 0 <= i < |e.ands| :: FlatAnd(e.ands[i].conds)
  }

  predicate FlatAnd(conds: seq<Cond>)
  {
    forall i | 0 <= i < |conds| :: conds[i].Equal?
  }

  /** A disjunct without parentheses keeps its boxes exactly when it mentions no
      cleared condition or had none. */
  lemma FlatKept(x: AndExpr, T: seq<Tables>, dead: set<nat>)
    requires |T| > 0 && AndOk(x, |T|) && FlatAnd(x.conds)
    ensures BoxesOf(x, Cleared(T, dead)) == BoxesOf(x, T) <==> !Kills(x.conds, dead) || BoxesOf(x, T) == []
  {
    if Kills(x.conds, dead) {
      DeadFold(x.conds, [], T, dead);
    } else {
      PrunedFold(x.conds, [], T, dead);
      FlatPruned(x.conds, dead);
    }
  }

  lemma {:induction false} FlatPruned(conds: seq<Cond>, dead: set<nat>)
    requires FlatAnd(conds)
    ensures PrunedAnd(conds, dead) == conds
  {
    if conds != [] {
      assert FlatAnd(conds[1..]) by {
        forall i | 0 <= i < |conds| - 1 ensures conds[1..][i].Equal? { assert conds[1..][i] == conds[i + 1]; }
      }
      FlatPruned(conds[1..], dead);
      assert conds == [conds[0]] + conds[1..];
    }
  }
}
