/** Rules over names: what a WHERE clause, a boolean expression and an alarm key say
    of a choice of sources and targets and of the conditions' statuses. */
module NamedRules {
  import opened Options
  import opened Domains
  import opened Where
  import opened WhereFacts
  import opened Rules
  import opened RuleFacts

  // ---------------------------------------------------------- rules, by name

  /** A source and a target for each condition of a rule. */
  type Choice = seq<(string, string)>

  function NameIn(nm: Choice, sl: Slot): string
    requires sl.idx < |nm|
  {
    if sl.arg == Source then nm[sl.idx].0 else nm[sl.idx].1
  }

  /** The WHERE clause, read as equalities of strings. */
  predicate WhereSays(e: Expr, nm: Choice)
    requires ExprOk(e, |nm|)
  {
    exists x | x in e.ands :: AndSays(x, nm)
  }

  predicate AndSays(x: AndExpr, nm: Choice)
    requires AndOk(x, |nm|)
  {
    x.conds != [] && forall c | c in x.conds :: CondSays(c, nm)
  }

  predicate CondSays(c: Cond, nm: Choice)
    requires CondOk(c, |nm|)
  {
    match c
    case Paren(e) => WhereSays(e, nm)
    case Equal(slots, str) =>
      forall sl | sl in slots :: NameIn(nm, sl) == if str == "" then NameIn(nm, slots[0]) else str
  }

  /** The boolean expression, when the statuses are `on`. */
  ghost predicate Says(e: BoolExpr, on: nat -> bool)
  {
    exists x | x in e.ands :: AllSay(x, on)
  }

  ghost predicate AllSay(x: BoolAnd, on: nat -> bool)
  {
    forall c | c in x.conds :: OneSays(c, on)
  }

  ghost predicate OneSays(c: BoolCond, on: nat -> bool)
  {
    match c
    case Group(e) => Says(e, on)
    case Status(i) => on(i)
    case Count(_, _, _, _) => false
  }

  // ------------------------------------------------------- names and indices

  predicate AllKnown(nm: Choice, T: seq<Tables>)
  {
    |nm| == |T| && forall i | 0 <= i < |nm| :: nm[i].0 in T[i].src && nm[i].1 in T[i].tgt
  }

  /** The assignment that stands for the names. */
  function IndicesOf(nm: Choice, T: seq<Tables>): (a: Domain)
    requires AllKnown(nm, T)
    ensures |a| == |T|
  {
    seq(|nm|, i requires 0 <= i < |nm| => CondDomain(T[i].src[nm[i].0], T[i].tgt[nm[i].1]))
  }

  lemma IndicesInRange(nm: Choice, T: seq<Tables>)
    requires TablesOk(T) && AllKnown(nm, T)
    ensures InRange(IndicesOf(nm, T), T)
  {
    forall i | 0 <= i < |T| ensures T[i].src[nm[i].0] < |T[i].src| && T[i].tgt[nm[i].1] < |T[i].tgt| {
      assert Bijective(T[i].src) && Bijective(T[i].tgt);
    }
  }

  ghost function NameOf(m: map<string, nat>, i: int): (s: string)
    requires Bijective(m) && 0 <= i < |m|
    ensures s in m && m[s] == i
  {
    assert i in m.Values;
    var s :| s in m && m[s] == i;
    s
  }

  /** Every in-range assignment stands for some names. */
  lemma NamesExist(a: Domain, T: seq<Tables>) returns (nm: Choice)
    requires TablesOk(T) && InRange(a, T)
    ensures AllKnown(nm, T) && IndicesOf(nm, T) == a
  {
    nm := seq(|a|, i requires 0 <= i < |a| => (NameOf(T[i].src, a[i].first), NameOf(T[i].tgt, a[i].second)));
  }

  lemma NameMatches(nm: Choice, T: seq<Tables>, sl: Slot, s: string)
    requires TablesOk(T) && AllKnown(nm, T) && sl.idx < |T|
    ensures Names(T, IndicesOf(nm, T), sl, s) <==> NameIn(nm, sl) == s
  {
    assert Bijective(T[sl.idx].src) && Bijective(T[sl.idx].tgt);
  }

  lemma EqualNames(nm: Choice, T: seq<Tables>, slots: seq<Slot>, str: string)
    requires TablesOk(T) && AllKnown(nm, T) && slots != [] && SlotsOk(slots, |T|)
    ensures CondSays(Equal(slots, str), nm) <==> CondHolds(Equal(slots, str), T, IndicesOf(nm, T), Logical)
  {
    forall s ensures AllName(T, IndicesOf(nm, T), slots, s) <==> forall sl | sl in slots :: NameIn(nm, sl) == s {
      forall sl | sl in slots ensures Names(T, IndicesOf(nm, T), sl, s) <==> NameIn(nm, sl) == s {
        NameMatches(nm, T, sl, s);
      }
    }
    if str == "" {
      assert slots[0] in slots;
      if s :| AllName(T, IndicesOf(nm, T), slots, s) { assert NameIn(nm, slots[0]) == s; }
      if CondSays(Equal(slots, str), nm) { assert AllName(T, IndicesOf(nm, T), slots, NameIn(nm, slots[0])); }
    }
  }

  /** On the indices of known names, the clause says what it says of the names. */
  lemma {:induction false} WhereNames(e: Expr, T: seq<Tables>, nm: Choice)
    requires TablesOk(T) && AllKnown(nm, T) && ExprOk(e, |T|)
    ensures WhereSays(e, nm) <==> ExprHolds(e, T, IndicesOf(nm, T), Logical)
    decreases e
  {
    forall x | x in e.ands ensures AndSays(x, nm) <==> AndHolds(x, T, IndicesOf(nm, T), Logical) {
      assert AndOk(x, |T|);
      forall c | c in x.conds ensures CondSays(c, nm) <==> CondHolds(c, T, IndicesOf(nm, T), Logical) {
        assert CondOk(c, |T|);
        match c
        case Paren(e') => WhereNames(e', T, nm);
        case Equal(slots, str) => EqualNames(nm, T, slots, str);
      }
    }
  }

  /** Without counts, the expression is true exactly when it says so of the
      conditions' statuses. */
  lemma {:induction false} TrueSays(e: BoolExpr, prim: seq<bool>, sc: Scene, on: nat -> bool)
    requires Plain(e) && BoolOk(e, prim) && GivesStatuses(on, sc) && |prim| == |sc.value|
    ensures ExprTrue(e, sc) <==> Says(e, on)
    decreases e
  {
    forall x | x in e.ands ensures AndTrue(x, sc) <==> AllSay(x, on) {
      assert BoolAndOk(x, prim) && PlainAnd(x);
      forall c | c in x.conds ensures CondTrue(c, sc) <==> OneSays(c, on) {
        assert BoolCondOk(c, prim) && PlainCond(c);
        if c.Group? { TrueSays(c.expr, prim, sc, on); }
      }
    }
  }

  // -------------------------------------------------------------- alarm key

  /** The conditions whose status a short-circuit evaluation looks at. */
  ghost function LookedOr(ands: seq<BoolAnd>, on: nat -> bool): set<nat>
  {
    if ands == [] then {}
    else LookedAnd(ands[0].conds, on) + if AllSay(ands[0], on) then {} else LookedOr(ands[1..], on)
  }

  ghost function LookedAnd(conds: seq<BoolCond>, on: nat -> bool): set<nat>
    decreases conds, 1
  {
    if conds == [] then {}
    else LookedOne(conds[0], on) + if OneSays(conds[0], on) then LookedAnd(conds[1..], on) else {}
  }

  ghost function LookedOne(c: BoolCond, on: nat -> bool): set<nat>
    decreases c, 0
  {
    match c
    case Group(e) => LookedOr(e.ands, on)
    case Status(i) => {i}
    case Count(i, _, _, _) => {i}
  }

  /** The statuses `on` are those of the scene. */
  ghost predicate GivesStatuses(on: nat -> bool, sc: Scene)
  {
    sc.Ok() && forall i: nat | i < |sc.value| :: on(i) == On(sc.view[i], sc.value[i].first, sc.value[i].second)
  }

  ghost predicate SameLeaves(seen: seq<BoolCond>, looked: set<nat>)
  {
    (forall c | c in seen :: c.Status?) && forall i: nat :: Status(i) in seen <==> i in looked
  }

  lemma JoinLeaves(a: seq<BoolCond>, b: seq<BoolCond>, p: set<nat>, q: set<nat>)
    requires SameLeaves(a, p) && SameLeaves(b, q)
    ensures SameLeaves(a + b, p + q)
  {
  }

  lemma {:induction false} LookedOrMeaning(ands: seq<BoolAnd>, prim: seq<bool>, sc: Scene, on: nat -> bool)
    requires (forall x | x in ands :: PlainAnd(x) && BoolAndOk(x, prim)) && GivesStatuses(on, sc)
    requires |prim| == |sc.value|
    ensures SameLeaves(VisitExpr(ands, sc), LookedOr(ands, on))
    decreases ands, 2
  {
    if ands == [] {
    } else {
      var x := ands[0];
      assert PlainAnd(x) && BoolAndOk(x, prim);
      LookedAndMeaning(x.conds, prim, sc, on);
      LookedOrMeaning(ands[1..], prim, sc, on);
      TrueSays(AnyOf([x]), prim, sc, on);
      assert AndTrue(x, sc) <==> ExprTrue(AnyOf([x]), sc);
      assert AllSay(x, on) <==> Says(AnyOf([x]), on);
      JoinLeaves(VisitAnd(x.conds, sc), if AndTrue(x, sc) then [] else VisitExpr(ands[1..], sc),
                 LookedAnd(x.conds, on), if AllSay(x, on) then {} else LookedOr(ands[1..], on));
    }
  }

  lemma {:induction false} LookedAndMeaning(conds: seq<BoolCond>, prim: seq<bool>, sc: Scene, on: nat -> bool)
    requires (forall c | c in conds :: PlainCond(c) && BoolCondOk(c, prim)) && GivesStatuses(on, sc)
    requires |prim| == |sc.value|
    ensures SameLeaves(VisitAnd(conds, sc), LookedAnd(conds, on))
    decreases conds, 1
  {
    if conds == [] {
    } else {
      var c := conds[0];
      assert PlainCond(c) && BoolCondOk(c, prim);
      LookedOneMeaning(c, prim, sc, on);
      LookedAndMeaning(conds[1..], prim, sc, on);
      JoinLeaves(VisitCond(c, sc), if CondTrue(c, sc) then VisitAnd(conds[1..], sc) else [],
                 LookedOne(c, on), if OneSays(c, on) then LookedAnd(conds[1..], on) else {});
    }
  }

  lemma {:induction false} LookedOneMeaning(c: BoolCond, prim: seq<bool>, sc: Scene, on: nat -> bool)
    requires PlainCond(c) && BoolCondOk(c, prim) && GivesStatuses(on, sc) && |prim| == |sc.value|
    ensures SameLeaves(VisitCond(c, sc), LookedOne(c, on)) && (CondTrue(c, sc) <==> OneSays(c, on))
    decreases c, 0
  {
    if c.Group? {
      TrueSays(c.expr, prim, sc, on);
      LookedOrMeaning(c.expr.ands, prim, sc, on);
    }
  }

  /** The key of a plain expression: the value of every condition looked at, null
      for the rest. */
  lemma KeyMeaning(e: BoolExpr, prim: seq<bool>, sc: Scene, on: nat -> bool)
    requires Plain(e) && BoolOk(e, prim) && GivesStatuses(on, sc) && |prim| == |sc.value|
    ensures |AlarmKey(e, sc)| == |sc.value|
    ensures forall i | 0 <= i < |sc.value| ::
              AlarmKey(e, sc)[i] == if i in LookedOr(e.ands, on) then sc.value[i] else NULL_COND
  {
    forall x | x in e.ands ensures PlainAnd(x) && BoolAndOk(x, prim) {
    }
    LookedOrMeaning(e.ands, prim, sc, on);
    var seen := VisitExpr(e.ands, sc);
    forall i: nat ensures !CountSeen(seen, i) {
    }
  }
}
