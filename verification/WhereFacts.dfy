/** Further facts about compiled WHERE clauses: when a literal list means what
    it says, what the boxes may contain, and what a clause depends on. */
module WhereFacts {
  import opened Options
  import opened Domains
  import opened Ordering
  import opened Where
  import opened WhereMeaning

  // --------------------------------------------------------------- literals

  /** Names and indices correspond one to one, indices filling [0, size). */
  ghost predicate Bijective(m: map<string, nat>)
  {
    && (forall s, t | s in m && t in m && m[s] == m[t] :: s == t)
    && (forall s | s in m :: m[s] < |m|)
    && (forall i: nat | i < |m| :: i in m.Values)
  }

  ghost predicate TablesOk(T: seq<Tables>)
  {
    forall i | 0 <= i < |T| :: Bijective(T[i].src) && Bijective(T[i].tgt)
  }

  /** Every index of the assignment is in its table. */
  predicate InRange(a: Domain, T: seq<Tables>)
  {
    |a| == |T| && forall i | 0 <= i < |a| ::
      0 <= a[i].first < |T[i].src| && 0 <= a[i].second < |T[i].tgt|
  }

  /** The literal on this slot is lost: the last slot of its condition is on
      the other side. */
  predicate Lost(slots: seq<Slot>, sl: Slot)
  {
    exists j: nat | j < |slots| :: LastWrite(slots, j) && slots[j].idx == sl.idx && slots[j].arg != sl.arg
  }

  lemma {:induction false} LastWriteExists(slots: seq<Slot>, i: nat) returns (j: nat)
    requires i < |slots|
    ensures i <= j < |slots| && slots[j].idx == slots[i].idx && LastWrite(slots, j)
    decreases |slots| - i
  {
    if LastWrite(slots, i) {
      j := i;
    } else {
      var k :| i < k < |slots| && slots[k].idx == slots[i].idx;
      j := LastWriteExists(slots, k);
    }
  }

  /** With tables as they are, a literal list keeps its logical meaning exactly
      when some table is empty, or lacks the literal, or every lost slot's table
      has a single entry. */
  lemma LiteralExact(slots: seq<Slot>, str: string, T: seq<Tables>)
    requires SlotsOk(slots, |T|) && TablesOk(T)
    ensures (forall a | InRange(a, T) :: LastName(T, a, slots, str) <==> AllName(T, a, slots, str))
            <==>
            || (exists i | 0 <= i < |T| :: T[i].src == map[] || T[i].tgt == map[])
            || (exists sl | sl in slots :: str !in TableOf(T, sl))
            || (forall sl | sl in slots && Lost(slots, sl) :: |TableOf(T, sl)| == 1)
  {
    if i :| 0 <= i < |T| && (T[i].src == map[] || T[i].tgt == map[]) {
      assert forall a :: !InRange(a, T);
    } else if (forall sl | sl in slots :: str in TableOf(T, sl)) {
      if forall sl | sl in slots && Lost(slots, sl) :: |TableOf(T, sl)| == 1 {
        forall a | InRange(a, T) ensures LastName(T, a, slots, str) <==> AllName(T, a, slots, str) {
          LiteralKept(slots, str, T, a);
        }
      } else {
        var sl :| sl in slots && Lost(slots, sl) && |TableOf(T, sl)| != 1;
        var a := LiteralCounterexample(slots, str, T, sl);
      }
    }
  }

  lemma LiteralKept(slots: seq<Slot>, str: string, T: seq<Tables>, a: Domain)
    requires SlotsOk(slots, |T|) && InRange(a, T)
    requires forall sl | sl in slots :: str in TableOf(T, sl) && TableOf(T, sl)[str] < |TableOf(T, sl)|
    requires forall sl | sl in slots && Lost(slots, sl) :: |TableOf(T, sl)| == 1
    ensures LastName(T, a, slots, str) <==> AllName(T, a, slots, str)
  {
    if LastName(T, a, slots, str) {
      forall sl | sl in slots ensures Names(T, a, sl, str) {
        var i :| 0 <= i < |slots| && slots[i] == sl;
        var j := LastWriteExists(slots, i);
        assert Names(T, a, slots[j], str);
        if slots[j].arg != sl.arg { assert Lost(slots, sl); }
      }
    }
  }

  lemma LiteralCounterexample(slots: seq<Slot>, str: string, T: seq<Tables>, sl: Slot) returns (a: Domain)
    requires SlotsOk(slots, |T|) && TablesOk(T)
    requires forall i | 0 <= i < |T| :: T[i].src != map[] && T[i].tgt != map[]
    requires forall x | x in slots :: str in TableOf(T, x)
    requires sl in slots && Lost(slots, sl) && |TableOf(T, sl)| != 1
    ensures InRange(a, T) && LastName(T, a, slots, str) && !AllName(T, a, slots, str)
  {
    var table := TableOf(T, sl);
    var i := if table[str] == 0 then 1 else 0;
    assert table[str] < |table|;
    a := Moved(LiteralPoint(str, T), sl, i);
    MovedFacts(str, T, sl, i);
    assert forall x | x in slots && x != sl :: Names(T, a, x, str);
    var j: nat :| j < |slots| && LastWrite(slots, j) && slots[j].idx == sl.idx && slots[j].arg != sl.arg;
    assert forall k: nat | k < |slots| && LastWrite(slots, k) :: slots[k] in slots && slots[k] != sl;
  }

  lemma MovedFacts(str: string, T: seq<Tables>, sl: Slot, i: nat)
    requires TablesOk(T) && forall k | 0 <= k < |T| :: T[k].src != map[] && T[k].tgt != map[]
    requires sl.idx < |T| && i < |TableOf(T, sl)| && str in TableOf(T, sl) && i != TableOf(T, sl)[str]
    ensures InRange(Moved(LiteralPoint(str, T), sl, i), T)
    ensures forall x: Slot | x.idx < |T| && str in TableOf(T, x) ::
              x != sl <==> Names(T, Moved(LiteralPoint(str, T), sl, i), x, str)
  {
  }

  /** The assignment with one slot set to `i`. */
  function Moved(a: Domain, sl: Slot, i: int): Domain
    requires sl.idx < |a|
  {
    a[sl.idx := if sl.arg == Source then CondDomain(i, a[sl.idx].second) else CondDomain(a[sl.idx].first, i)]
  }

  /** The assignment that holds the string wherever a table knows it. */
  function LiteralPoint(str: string, T: seq<Tables>): Domain
  {
    seq(|T|, i requires 0 <= i < |T| =>
      CondDomain(if str in T[i].src then T[i].src[str] else 0, if str in T[i].tgt then T[i].tgt[str] else 0))
  }

  /** A literal list names no condition on both sides. */
  predicate Unclashing(slots: seq<Slot>)
  {
    forall x, y | x in slots && y in slots && x.idx == y.idx :: x.arg == y.arg
  }

  predicate ExprUnclashing(e: Expr)
  {
    forall x | x in e.ands :: AndUnclashing(x)
  }

  predicate AndUnclashing(x: AndExpr)
  {
    forall c | c in x.conds :: CondUnclashing(c)
  }

  predicate CondUnclashing(c: Cond)
  {
    match c
    case Paren(e) => ExprUnclashing(e)
    case Equal(slots, str) => str == "" || Unclashing(slots)
  }

  lemma UnclashingKept(slots: seq<Slot>, str: string, T: seq<Tables>, a: Domain)
    requires SlotsOk(slots, |T|) && |a| == |T| && Unclashing(slots)
    ensures LastName(T, a, slots, str) <==> AllName(T, a, slots, str)
  {
    if LastName(T, a, slots, str) {
      forall sl | sl in slots ensures Names(T, a, sl, str) {
        var i :| 0 <= i < |slots| && slots[i] == sl;
        var j := LastWriteExists(slots, i);
        assert slots[j] in slots;
      }
    }
  }

  /** Two names for everything. */
  function TwoNames(str: string): map<string, nat>
  {
    map[str := 0, str + "'" := 1]
  }

  lemma TwoNamesBijective(str: string)
    ensures Bijective(TwoNames(str)) && |TwoNames(str)| == 2
  {
    var m := TwoNames(str);
    assert str + "'" != str;
    assert m.Keys == {str, str + "'"};
    assert m[str] == 0 && m[str + "'"] == 1;
  }

  /** A literal list is read logically whatever the tables hold exactly when it
      names no condition on both sides. */
  lemma UnclashingExact(slots: seq<Slot>, str: string, n: nat)
    requires SlotsOk(slots, n)
    ensures (forall T, a | |T| == n && TablesOk(T) && InRange(a, T) ::
               LastName(T, a, slots, str) <==> AllName(T, a, slots, str))
            <==> Unclashing(slots)
  {
    if Unclashing(slots) {
      forall T, a | |T| == n && TablesOk(T) && InRange(a, T)
        ensures LastName(T, a, slots, str) <==> AllName(T, a, slots, str)
      {
        UnclashingKept(slots, str, T, a);
      }
    } else {
      var T, a := ClashCounterexample(slots, str, n);
    }
  }

  lemma ClashCounterexample(slots: seq<Slot>, str: string, n: nat) returns (T: seq<Tables>, a: Domain)
    requires SlotsOk(slots, n) && !Unclashing(slots)
    ensures |T| == n && TablesOk(T) && InRange(a, T) && LastName(T, a, slots, str) && !AllName(T, a, slots, str)
  {
    var x, y :| x in slots && y in slots && x.idx == y.idx && x.arg != y.arg;
    var i :| 0 <= i < |slots| && slots[i] == x;
    var j := LastWriteExists(slots, i);
    TwoNamesBijective(str);
    T := seq(n, k => Tables(TwoNames(str), TwoNames(str)));
    a := LiteralCounterexample(slots, str, T, if slots[j].arg == x.arg then y else x);
  }

  lemma {:induction false} ReadingsAgree(e: Expr, T: seq<Tables>, a: Domain)
    requires ExprOk(e, |T|) && |a| == |T| && ExprUnclashing(e)
    ensures ExprHolds(e, T, a, Overwriting) <==> ExprHolds(e, T, a, Logical)
    decreases e
  {
    forall x | x in e.ands ensures AndHolds(x, T, a, Overwriting) <==> AndHolds(x, T, a, Logical) {
      assert AndOk(x, |T|) && AndUnclashing(x);
      forall c | c in x.conds ensures CondHolds(c, T, a, Overwriting) <==> CondHolds(c, T, a, Logical) {
        assert CondOk(c, |T|) && CondUnclashing(c);
        match c
        case Paren(e') => ReadingsAgree(e', T, a);
        case Equal(slots, str) => if str != "" { UnclashingKept(slots, str, T, a); }
      }
    }
  }

  /** The main theorem: a WHERE clause without clashing literal lists compiles
      to boxes whose union is exactly the set of satisfying assignments. */
  lemma CompileLogical(e: Expr, T: seq<Tables>, a: Domain)
    requires ExprOk(e, |T|) && |T| > 0 && |a| == |T| && Concrete(a)
    requires ExprUnclashing(e)
    ensures InAny(a, CompileExpr(e, T)) <==> ExprHolds(e, T, a, Logical)
  {
    CompileMeaning(e, T, a);
    ReadingsAgree(e, T, a);
  }

  /** `c.$s = c.$t = 'x'` accepts source index 1, which is not 'x'. */
  lemma ClashExample()
    ensures var T := [Tables(map["x" := 0, "y" := 1], map["x" := 0])];
            var slots := [Slot(0, Source), Slot(0, Target)];
            var a := [CondDomain(1, 0)];
            InAny(a, EqualBoxes(slots, "x", T)) && !AllName(T, a, slots, "x")
  {
    var T := [Tables(map["x" := 0, "y" := 1], map["x" := 0])];
    var slots := [Slot(0, Source), Slot(0, Target)];
    var a := [CondDomain(1, 0)];
    assert slots[1].idx == slots[0].idx && !LastWrite(slots, 0);
    assert Names(T, a, slots[1], "x");
    assert LastName(T, a, slots, "x");
    EqualMeaning(slots, "x", T, a);
    assert slots[0] in slots && !Names(T, a, slots[0], "x");
  }

  // --------------------------------------------------------------- contents

  predicate Known(p: int, m: map<string, nat>)
  {
    p == ANY || p in m.Values
  }

  /** A box evaluation can use: one pattern per condition, nothing null, and
      every concrete index in its condition's table. */
  predicate Sound(b: Domain, T: seq<Tables>)
  {
    |b| == |T| && !IsNull(b) && forall i | 0 <= i < |b| :: Known(b[i].first, T[i].src) && Known(b[i].second, T[i].tgt)
  }

  predicate AllSound(ds: seq<Domain>, T: seq<Tables>)
  {
    forall i | 0 <= i < |ds| :: Sound(ds[i], T)
  }

  lemma IntersectSound(d1: Domain, d2: Domain, T: seq<Tables>)
    requires Sound(d1, T) && Sound(d2, T)
    ensures Intersect(d1, d2) == NULL_DOMAIN || Sound(Intersect(d1, d2), T)
  {
    var d := Intersect(d1, d2);
    if d != NULL_DOMAIN {
      forall i | 0 <= i < |d| ensures Known(d[i].first, T[i].src) && Known(d[i].second, T[i].tgt) {
        assert d[i] == IntersectCond(d1[i], d2[i]);
        assert !CondIsNull(d[i]);
      }
    }
  }

  lemma {:induction false} ProductsSound(ds: seq<Domain>, ws: seq<Domain>, T: seq<Tables>)
    requires AllSound(ds, T) && AllSound(ws, T)
    ensures Widths(ds, |T|) && Widths(ws, |T|)
    ensures forall b | b in Products(ds, ws, |T|) :: b == NULL_DOMAIN || Sound(b, T)
  {
    if ds != [] {
      ProductsSound(ds[1..], ws, T);
      assert ds[0] in ds;
      forall b | b in Row(ds[0], ws) ensures b == NULL_DOMAIN || Sound(b, T) {
        var j :| 0 <= j < |ws| && b == Row(ds[0], ws)[j];
        assert ws[j] in ws;
        IntersectSound(ds[0], ws[j], T);
      }
    }
  }

  lemma {:induction false} LiteralBoxSound(slots: seq<Slot>, str: string, T: seq<Tables>, d: Domain)
    requires SlotsOk(slots, |T|) && Sound(d, T)
    ensures LiteralBox(slots, str, T, d).Some? ==> Sound(LiteralBox(slots, str, T, d).value, T)
  {
    if slots != [] && str in TableOf(T, slots[0]) {
      LiteralBoxSound(slots[1..], str, T, d[slots[0].idx := CondOf(TableOf(T, slots[0])[str], slots[0].arg)]);
    }
  }

  lemma {:induction false} NameBoxSound(slots: seq<Slot>, s: string, T: seq<Tables>, d: Domain)
    requires SlotsOk(slots, |T|) && Sound(d, T)
    ensures NameBox(slots, s, T, d).Some? ==> Sound(NameBox(slots, s, T, d).value, T)
  {
    if slots != [] && s in TableOf(T, slots[0]) {
      var p := IntersectCond(d[slots[0].idx], CondOf(TableOf(T, slots[0])[s], slots[0].arg));
      if !CondIsNull(p) {
        NameBoxSound(slots[1..], s, T, d[slots[0].idx := p]);
      }
    }
  }

  lemma {:induction false} NameBoxesSound(slots: seq<Slot>, names: seq<string>, T: seq<Tables>)
    requires SlotsOk(slots, |T|) && |T| > 0
    ensures AllSound(NameBoxes(slots, names, T), T)
  {
    if names != [] {
      NameBoxSound(slots, names[0], T, AnyDomain(|T|));
      NameBoxesSound(slots, names[1..], T);
    }
  }

  /** Every compiled box is sound for the tables it was compiled against. */
  lemma {:induction false} CompileSound(e: Expr, T: seq<Tables>)
    requires ExprOk(e, |T|) && |T| > 0
    ensures AllSound(CompileExpr(e, T), T)
    decreases e, 1
  {
    OrSound(e.ands, T);
  }

  lemma {:induction false} OrSound(ands: seq<AndExpr>, T: seq<Tables>)
    requires |T| > 0 && forall x | x in ands :: AndOk(x, |T|)
    ensures AllSound(CompileOr(ands, T), T)
    decreases ands, 0
  {
    if ands != [] {
      assert AndOk(ands[0], |T|);
      FoldAndSound(ands[0].conds, [], T);
      OrSound(ands[1..], T);
    }
  }

  lemma {:induction false} FoldAndSound(conds: seq<Cond>, acc: seq<Domain>, T: seq<Tables>)
    requires |T| > 0 && AllSound(acc, T) && forall c | c in conds :: CondOk(c, |T|)
    ensures Widths(acc, |T|) && AllSound(FoldAnd(conds, acc, T), T)
    decreases conds, 0
  {
    if conds != [] {
      CondSound(conds[0], T);
      var w := CompileCond(conds[0], T);
      ProductsSound(acc, w, T);
      var d := AndMerge(acc, w, |T|);
      assert AllSound(d, T);
      FoldAndSound(conds[1..], d, T);
    }
  }

  lemma {:induction false} CondSound(c: Cond, T: seq<Tables>)
    requires |T| > 0 && CondOk(c, |T|)
    ensures AllSound(CompileCond(c, T), T)
    decreases c, 0
  {
    match c
    case Paren(e) => CompileSound(e, T);
    case Equal(slots, str) =>
      LiteralBoxSound(slots, str, T, AnyDomain(|T|));
      NameBoxesSound(slots, SortedKeys(TableOf(T, slots[0]).Keys), T);
  }

  // ------------------------------------------------------------ dependencies

  predicate Mentions(e: Expr, sl: Slot)
  {
    exists x | x in e.ands :: AndMentions(x, sl)
  }

  predicate AndMentions(x: AndExpr, sl: Slot)
  {
    exists c | c in x.conds :: CondMentions(c, sl)
  }

  predicate CondMentions(c: Cond, sl: Slot)
  {
    match c
    case Paren(e) => Mentions(e, sl)
    case Equal(slots, _) => sl in slots
  }

  predicate SlotsAgree(slots: seq<Slot>, T: seq<Tables>, U: seq<Tables>)
  {
    |T| == |U| && forall sl | sl in slots && sl.idx < |T| :: TableOf(T, sl) == TableOf(U, sl)
  }

  lemma {:induction false} LiteralBoxFrame(slots: seq<Slot>, str: string, T: seq<Tables>, U: seq<Tables>, d: Domain)
    requires SlotsOk(slots, |T|) && |d| == |T| && SlotsAgree(slots, T, U)
    ensures LiteralBox(slots, str, T, d) == LiteralBox(slots, str, U, d)
  {
    if slots != [] && str in TableOf(T, slots[0]) {
      LiteralBoxFrame(slots[1..], str, T, U, d[slots[0].idx := CondOf(TableOf(T, slots[0])[str], slots[0].arg)]);
    }
  }

  lemma {:induction false} NameBoxFrame(slots: seq<Slot>, s: string, T: seq<Tables>, U: seq<Tables>, d: Domain)
    requires SlotsOk(slots, |T|) && |d| == |T| && SlotsAgree(slots, T, U)
    ensures NameBox(slots, s, T, d) == NameBox(slots, s, U, d)
  {
    if slots != [] && s in TableOf(T, slots[0]) {
      var p := IntersectCond(d[slots[0].idx], CondOf(TableOf(T, slots[0])[s], slots[0].arg));
      NameBoxFrame(slots[1..], s, T, U, d[slots[0].idx := p]);
    }
  }

  lemma {:induction false} NameBoxesFrame(slots: seq<Slot>, names: seq<string>, T: seq<Tables>, U: seq<Tables>)
    requires SlotsOk(slots, |T|) && SlotsAgree(slots, T, U)
    ensures NameBoxes(slots, names, T) == NameBoxes(slots, names, U)
  {
    if names != [] {
      NameBoxFrame(slots, names[0], T, U, AnyDomain(|T|));
      NameBoxesFrame(slots, names[1..], T, U);
    }
  }

  /** A compiled clause depends only on the tables of the slots it mentions. */
  lemma {:induction false} CompileFrame(e: Expr, T: seq<Tables>, U: seq<Tables>)
    requires ExprOk(e, |T|) && |T| == |U| > 0
    requires forall sl: Slot | sl.idx < |T| && Mentions(e, sl) :: TableOf(T, sl) == TableOf(U, sl)
    ensures CompileExpr(e, T) == CompileExpr(e, U)
    decreases e, 1
  {
    forall x, sl: Slot | x in e.ands && sl.idx < |T| && AndMentions(x, sl)
      ensures TableOf(T, sl) == TableOf(U, sl)
    {
      assert Mentions(e, sl);
    }
    OrFrame(e.ands, T, U);
  }

  lemma {:induction false} OrFrame(ands: seq<AndExpr>, T: seq<Tables>, U: seq<Tables>)
    requires |T| == |U| > 0 && forall x | x in ands :: AndOk(x, |T|)
    requires forall x, sl: Slot | x in ands && sl.idx < |T| && AndMentions(x, sl) :: TableOf(T, sl) == TableOf(U, sl)
    ensures CompileOr(ands, T) == CompileOr(ands, U)
    decreases ands, 0
  {
    if ands != [] {
      var x := ands[0];
      assert AndOk(x, |T|);
      forall c, sl: Slot | c in x.conds && sl.idx < |T| && CondMentions(c, sl)
        ensures TableOf(T, sl) == TableOf(U, sl)
      {
        assert AndMentions(x, sl);
      }
      FoldAndFrame(x.conds, [], T, U);
      OrFrame(ands[1..], T, U);
    }
  }

  lemma {:induction false} FoldAndFrame(conds: seq<Cond>, acc: seq<Domain>, T: seq<Tables>, U: seq<Tables>)
    requires |T| == |U| > 0 && Widths(acc, |T|) && forall c | c in conds :: CondOk(c, |T|)
    requires forall c, sl: Slot | c in conds && sl.idx < |T| && CondMentions(c, sl) :: TableOf(T, sl) == TableOf(U, sl)
    ensures FoldAnd(conds, acc, T) == FoldAnd(conds, acc, U)
    decreases conds, 0
  {
    if conds != [] {
      CondFrame(conds[0], T, U);
      var d := AndMerge(acc, CompileCond(conds[0], T), |T|);
      FoldAndFrame(conds[1..], d, T, U);
    }
  }

  lemma {:induction false} CondFrame(c: Cond, T: seq<Tables>, U: seq<Tables>)
    requires |T| == |U| > 0 && CondOk(c, |T|)
    requires forall sl: Slot | sl.idx < |T| && CondMentions(c, sl) :: TableOf(T, sl) == TableOf(U, sl)
    ensures CompileCond(c, T) == CompileCond(c, U)
    decreases c, 0
  {
    match c
    case Paren(e) => CompileFrame(e, T, U);
    case Equal(slots, str) =>
      assert forall sl | sl in slots :: CondMentions(c, sl);
      LiteralBoxFrame(slots, str, T, U, AnyDomain(|T|));
      NameBoxesFrame(slots, SortedKeys(TableOf(T, slots[0]).Keys), T, U);
  }

  // ------------------------------------------------------------ growing tables

  /** The entries of `m` are kept, and the new ones have new indices. */
  ghost predicate TableGrown(m: map<string, nat>, m': map<string, nat>)
  {
    && |m| <= |m'|
    && (forall s | s in m :: s in m' && m'[s] == m[s])
    && (forall s | s in m' && s !in m :: m'[s] >= |m|)
  }

  ghost predicate Grown(T: seq<Tables>, U: seq<Tables>)
  {
    |T| == |U| && forall i | 0 <= i < |T| :: TableGrown(T[i].src, U[i].src) && TableGrown(T[i].tgt, U[i].tgt)
  }

  lemma NamesGrown(T: seq<Tables>, U: seq<Tables>, a: Domain, sl: Slot, s: string)
    requires InRange(a, T) && Grown(T, U) && sl.idx < |T|
    ensures Names(T, a, sl, s) <==> Names(U, a, sl, s)
  {
    assert TableGrown(T[sl.idx].src, U[sl.idx].src) && TableGrown(T[sl.idx].tgt, U[sl.idx].tgt);
  }

  /** New names do not change what a clause says about the old indices. */
  lemma {:induction false} HoldsGrown(e: Expr, T: seq<Tables>, U: seq<Tables>, a: Domain)
    requires ExprOk(e, |T|) && InRange(a, T) && Grown(T, U)
    ensures ExprHolds(e, T, a, Logical) <==> ExprHolds(e, U, a, Logical)
    decreases e
  {
    forall x | x in e.ands ensures AndHolds(x, T, a, Logical) <==> AndHolds(x, U, a, Logical) {
      assert AndOk(x, |T|);
      forall c | c in x.conds ensures CondHolds(c, T, a, Logical) <==> CondHolds(c, U, a, Logical) {
        assert CondOk(c, |T|);
        match c
        case Paren(e') => HoldsGrown(e', T, U, a);
        case Equal(slots, str) =>
          forall s ensures AllName(T, a, slots, s) <==> AllName(U, a, slots, s) {
            forall sl | sl in slots ensures Names(T, a, sl, s) <==> Names(U, a, sl, s) {
              NamesGrown(T, U, a, sl, s);
            }
          }
      }
    }
  }

  /** Against empty tables every clause compiles to no box at all. */
  lemma {:induction false} CompileEmpty(e: Expr, T: seq<Tables>)
    requires ExprOk(e, |T|) && |T| > 0
    requires forall i | 0 <= i < |T| :: T[i] == Tables(map[], map[])
    ensures CompileExpr(e, T) == []
    decreases e, 1
  {
    OrEmpty(e.ands, T);
  }

  lemma {:induction false} OrEmpty(ands: seq<AndExpr>, T: seq<Tables>)
    requires |T| > 0 && forall x | x in ands :: AndOk(x, |T|)
    requires forall i | 0 <= i < |T| :: T[i] == Tables(map[], map[])
    ensures CompileOr(ands, T) == []
    decreases ands, 0
  {
    if ands != [] {
      var conds := ands[0].conds;
      assert AndOk(ands[0], |T|);
      if conds != [] {
        assert conds[0] in conds;
        CondEmpty(conds[0], T);
      }
      OrEmpty(ands[1..], T);
    }
  }

  lemma {:induction false} CondEmpty(c: Cond, T: seq<Tables>)
    requires |T| > 0 && CondOk(c, |T|)
    requires forall i | 0 <= i < |T| :: T[i] == Tables(map[], map[])
    ensures CompileCond(c, T) == []
    decreases c, 0
  {
    match c
    case Paren(e) => CompileEmpty(e, T);
    case Equal(slots, str) =>
      assert TableOf(T, slots[0]) == map[];
      assert SortedKeys(TableOf(T, slots[0]).Keys) == [];
  }
}
