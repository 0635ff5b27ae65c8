/** What parsing a rule registers: the rule's condition list with its primitive
    flags, and the rule on the conditions' notification lists. */
module Registration {
  import opened Options
  import opened Domains
  import opened Ordering
  import opened Where
  import opened RuleEval
  import opened Notify
  import opened NameIndex
  import opened Engine
  import WhereFacts

  // ------------------------------------------------- the rule's condition list

  /** One mention of a condition in a rule's expression. */
  datatype Mention = Mention(name: string, primitive: bool)

  /** The list holds each mentioned condition once, in the order of the first
      mentions, with its position in the index and a flag that says whether
      some mention is primitive. */
  ghost predicate Inserted(ms: seq<Mention>, names: seq<string>, prim: seq<bool>, idx: map<string, nat>)
  {
    Indexes(names, idx) && Complete(ms, idx) && Ordered(ms, names) && Flagged(ms, names, prim)
  }

  ghost predicate Complete(ms: seq<Mention>, idx: map<string, nat>)
  {
    forall n :: n in idx <==> Mentioned(ms, n)
  }

  predicate Mentioned(ms: seq<Mention>, n: string)
  {
    FirstMention(ms, n) < |ms|
  }

  predicate Ordered(ms: seq<Mention>, names: seq<string>)
  {
    forall i, j | 0 <= i < j < |names| :: FirstMention(ms, names[i]) < FirstMention(ms, names[j])
  }

  predicate Flagged(ms: seq<Mention>, names: seq<string>, prim: seq<bool>)
  {
    |prim| == |names| && forall i | 0 <= i < |names| :: prim[i] <==> SomePrimitive(ms, names[i])
  }

  predicate SomePrimitive(ms: seq<Mention>, n: string)
  {
    exists k | 0 <= k < |ms| :: ms[k].name == n && ms[k].primitive
  }

  /** The place of a name's first mention, |ms| if there is none. */
  function FirstMention(ms: seq<Mention>, n: string): (k: nat)
    ensures k <= |ms| && (k < |ms| ==> ms[k].name == n) && forall j | 0 <= j < k :: ms[j].name != n
  {
    if ms == [] || ms[0].name == n then 0 else 1 + FirstMention(ms[1..], n)
  }

  lemma FirstMentionSnoc(ms: seq<Mention>, m: Mention, n: string)
    ensures FirstMention(ms + [m], n) ==
            if FirstMention(ms, n) < |ms| || m.name == n then FirstMention(ms, n) else |ms| + 1
  {
    var a, b, ms' := FirstMention(ms, n), FirstMention(ms + [m], n), ms + [m];
    assert forall k | 0 <= k < |ms| :: ms'[k] == ms[k];
    assert ms'[|ms|] == m;
    if a < |ms| || m.name == n { assert ms'[a].name == n; }
    if b < |ms| { assert ms'[b].name == n; }
  }

  lemma SomePrimitiveSnoc(ms: seq<Mention>, m: Mention, n: string)
    ensures SomePrimitive(ms + [m], n) <==> SomePrimitive(ms, n) || (m.name == n && m.primitive)
  {
    var ms' := ms + [m];
    assert ms'[|ms|] == m && forall k | 0 <= k < |ms| :: ms'[k] == ms[k];
  }

  /** The mentions determine the list, its flags and its index. */
  lemma InsertedUnique(ms: seq<Mention>, n1: seq<string>, p1: seq<bool>, i1: map<string, nat>,
                       n2: seq<string>, p2: seq<bool>, i2: map<string, nat>)
    requires Inserted(ms, n1, p1, i1) && Inserted(ms, n2, p2, i2)
    ensures n1 == n2 && p1 == p2 && i1 == i2
  {
    forall k: nat ensures k in Firsts(ms, n1) <==> k in Firsts(ms, n2) {
      FirstsMember(ms, n1, i1, k);
      FirstsMember(ms, n2, i2, k);
    }
    FirstsSorted(ms, n1);
    FirstsSorted(ms, n2);
    SortedUnique(Firsts(ms, n1), Firsts(ms, n2));
    SameNames(ms, n1, i1, n2, i2);
    SameIndex(n1, i1, i2);
  }

  lemma SameNames(ms: seq<Mention>, n1: seq<string>, i1: map<string, nat>, n2: seq<string>, i2: map<string, nat>)
    requires Indexes(n1, i1) && Complete(ms, i1) && Indexes(n2, i2) && Complete(ms, i2)
    requires Firsts(ms, n1) == Firsts(ms, n2)
    ensures n1 == n2
  {
    assert |n1| == |Firsts(ms, n1)| == |n2|;
    forall i | 0 <= i < |n1| ensures n1[i] == n2[i] {
      assert Firsts(ms, n1)[i] == Firsts(ms, n2)[i];
      assert n1[i] in i1 && n2[i] in i2;
      assert Mentioned(ms, n1[i]);
    }
  }

  lemma SameIndex(names: seq<string>, i1: map<string, nat>, i2: map<string, nat>)
    requires Indexes(names, i1) && Indexes(names, i2)
    ensures i1 == i2
  {
    forall n ensures n in i1 <==> n in i2 {
      if n in i1 { assert names[i1[n]] in i2; }
      if n in i2 { assert names[i2[n]] in i1; }
    }
    forall n | n in i1 ensures i1[n] == i2[n] {
      assert names[i1[n]] == n;
    }
  }

  function Firsts(ms: seq<Mention>, names: seq<string>): (r: seq<nat>)
    ensures |r| == |names| && forall i | 0 <= i < |names| :: r[i] == FirstMention(ms, names[i])
  {
    if names == [] then [] else [FirstMention(ms, names[0])] + Firsts(ms, names[1..])
  }

  lemma FirstsSorted(ms: seq<Mention>, names: seq<string>)
    requires Ordered(ms, names)
    ensures StrictlySorted(Firsts(ms, names))
  {
  }

  lemma FirstsMember(ms: seq<Mention>, names: seq<string>, idx: map<string, nat>, k: nat)
    requires Indexes(names, idx) && Complete(ms, idx)
    ensures k in Firsts(ms, names) <==> k < |ms| && FirstMention(ms, ms[k].name) == k
  {
    var r := Firsts(ms, names);
    if k in r {
      var i :| 0 <= i < |r| && r[i] == k;
      assert names[i] in idx && Mentioned(ms, names[i]);
    }
    if k < |ms| && FirstMention(ms, ms[k].name) == k {
      assert Mentioned(ms, ms[k].name) && ms[k].name in idx;
      assert r[idx[ms[k].name]] == k;
    }
  }

  lemma InsertAgain(ms: seq<Mention>, m: Mention, names: seq<string>, prim: seq<bool>, idx: map<string, nat>)
    requires Inserted(ms, names, prim, idx) && m.name in idx
    ensures var i := idx[m.name]; Inserted(ms + [m], names, prim[i := prim[i] || m.primitive], idx)
  {
    CompleteSnoc(ms, m, idx, idx);
    OrderedSnoc(ms, m, names, idx);
    forall i | 0 <= i < |names|
      ensures SomePrimitive(ms + [m], names[i]) <==> SomePrimitive(ms, names[i]) || (i == idx[m.name] && m.primitive)
    {
      SomePrimitiveSnoc(ms, m, names[i]);
    }
  }

  lemma InsertNew(ms: seq<Mention>, m: Mention, names: seq<string>, prim: seq<bool>, idx: map<string, nat>)
    requires Inserted(ms, names, prim, idx) && m.name !in idx
    ensures Inserted(ms + [m], names + [m.name], prim + [m.primitive], idx[m.name := |names|])
  {
    CompleteSnoc(ms, m, idx, idx[m.name := |names|]);
    OrderedNew(ms, m, names, idx);
    FlaggedNew(ms, m, names, prim, idx);
  }

  lemma OrderedNew(ms: seq<Mention>, m: Mention, names: seq<string>, idx: map<string, nat>)
    requires Indexes(names, idx) && Complete(ms, idx) && Ordered(ms, names) && m.name !in idx
    ensures Ordered(ms + [m], names + [m.name])
  {
    var names' := names + [m.name];
    OrderedSnoc(ms, m, names, idx);
    FirstMentionSnoc(ms, m, m.name);
    assert !Mentioned(ms, m.name);
    forall i, j | 0 <= i < j < |names'| ensures FirstMention(ms + [m], names'[i]) < FirstMention(ms + [m], names'[j]) {
      assert names[i] in idx && Mentioned(ms, names[i]);
      FirstMentionSnoc(ms, m, names[i]);
    }
  }

  lemma FlaggedNew(ms: seq<Mention>, m: Mention, names: seq<string>, prim: seq<bool>, idx: map<string, nat>)
    requires Indexes(names, idx) && Complete(ms, idx) && Flagged(ms, names, prim) && m.name !in idx
    ensures Flagged(ms + [m], names + [m.name], prim + [m.primitive])
  {
    assert !Mentioned(ms, m.name) && !SomePrimitive(ms, m.name);
    forall i | 0 <= i < |names| ensures SomePrimitive(ms + [m], names[i]) <==> SomePrimitive(ms, names[i]) {
      SomePrimitiveSnoc(ms, m, names[i]);
      assert names[i] in idx;
    }
    SomePrimitiveSnoc(ms, m, m.name);
  }

  lemma CompleteSnoc(ms: seq<Mention>, m: Mention, idx: map<string, nat>, after: map<string, nat>)
    requires Complete(ms, idx) && forall n :: n in after <==> n == m.name || n in idx
    ensures Complete(ms + [m], after)
  {
    forall n ensures n in after <==> Mentioned(ms + [m], n) {
      FirstMentionSnoc(ms, m, n);
      assert n in idx <==> Mentioned(ms, n);
    }
  }

  lemma OrderedSnoc(ms: seq<Mention>, m: Mention, names: seq<string>, idx: map<string, nat>)
    requires Indexes(names, idx) && Complete(ms, idx) && Ordered(ms, names)
    ensures Ordered(ms + [m], names)
  {
    forall i, j | 0 <= i < j < |names| ensures FirstMention(ms + [m], names[i]) < FirstMention(ms + [m], names[j]) {
      FirstMentionSnoc(ms, m, names[i]);
      FirstMentionSnoc(ms, m, names[j]);
      assert names[i] in idx && names[j] in idx && Mentioned(ms, names[i]) && Mentioned(ms, names[j]);
    }
  }

  class RuleParts {
    var names: seq<string>
    var prim: seq<bool>
    var idx: map<string, nat>

    constructor ()
      ensures Inserted([], names, prim, idx)
    {
      names, prim, idx := [], [], map[];
    }

    /** insert_condition_ptr. None is the throw for an unknown condition. */
    method InsertConditionPtr(m: Mention, known: set<string>, ghost ms: seq<Mention>) returns (r: Option<nat>)
      requires Inserted(ms, names, prim, idx)
      modifies this
      ensures r.None? <==> m.name !in old(idx) && m.name !in known
      ensures r.None? ==> names == old(names) && prim == old(prim) && idx == old(idx)
      ensures r.Some? ==> Inserted(ms + [m], names, prim, idx) && m.name in idx && r.value == idx[m.name]
      ensures old(names) <= names
    {
      if m.name in idx {
        InsertAgain(ms, m, names, prim, idx);
        var i := idx[m.name];
        prim := prim[i := prim[i] || m.primitive];
        return Some(i);
      }
      if m.name !in known {
        return None;
      }
      InsertNew(ms, m, names, prim, idx);
      names := names + [m.name];
      prim := prim + [m.primitive];
      idx := idx[m.name := |names| - 1];
      return Some(|names| - 1);
    }
  }

  // ------------------------------------------------------- notification lists

  type Lists = map<string, seq<nat>>

  /** The slots of a WHERE clause in reading order. */
  function SlotsOf(ands: seq<AndExpr>): seq<Slot>
    decreases ands, 2
  {
    if ands == [] then [] else SlotsOfAnd(ands[0].conds) + SlotsOf(ands[1..])
  }

  function SlotsOfAnd(conds: seq<Cond>): seq<Slot>
    decreases conds, 1
  {
    if conds == [] then [] else SlotsOfCond(conds[0]) + SlotsOfAnd(conds[1..])
  }

  function SlotsOfCond(c: Cond): seq<Slot>
    decreases c, 0
  {
    match c
    case Paren(e) => SlotsOf(e.ands)
    case Equal(slots, _) => slots
  }

  lemma {:induction false} SlotsMeaning(ands: seq<AndExpr>, sl: Slot)
    ensures sl in SlotsOf(ands) <==> exists x | x in ands :: WhereFacts.AndMentions(x, sl)
    decreases ands, 2
  {
    if ands != [] {
      SlotsAndMeaning(ands[0].conds, sl);
      SlotsMeaning(ands[1..], sl);
      assert WhereFacts.AndMentions(ands[0], sl) <==> sl in SlotsOfAnd(ands[0].conds);
      assert forall x :: x in ands <==> x == ands[0] || x in ands[1..];
    }
  }

  lemma {:induction false} SlotsAndMeaning(conds: seq<Cond>, sl: Slot)
    ensures sl in SlotsOfAnd(conds) <==> exists c | c in conds :: WhereFacts.CondMentions(c, sl)
    decreases conds, 1
  {
    if conds != [] {
      SlotsCondMeaning(conds[0], sl);
      SlotsAndMeaning(conds[1..], sl);
      assert forall c :: c in conds <==> c == conds[0] || c in conds[1..];
    }
  }

  lemma {:induction false} SlotsCondMeaning(c: Cond, sl: Slot)
    ensures sl in SlotsOfCond(c) <==> WhereFacts.CondMentions(c, sl)
    decreases c, 0
  {
    if c.Paren? { SlotsMeaning(c.expr.ands, sl); }
  }

  /** The condition of each `arg` slot, in reading order. */
  function SlotNames(conds: seq<string>, slots: seq<Slot>, arg: Arg): seq<string>
    requires SlotsOk(slots, |conds|)
  {
    if slots == [] then []
    else (if slots[0].arg == arg then [conds[slots[0].idx]] else []) + SlotNames(conds, slots[1..], arg)
  }

  lemma {:induction false} SlotNamesMeaning(conds: seq<string>, slots: seq<Slot>, arg: Arg, c: string)
    requires SlotsOk(slots, |conds|)
    ensures c in SlotNames(conds, slots, arg) <==> exists i: nat | i < |conds| :: conds[i] == c && Slot(i, arg) in slots
  {
    if slots != [] {
      SlotNamesMeaning(conds, slots[1..], arg, c);
      assert forall sl :: sl in slots <==> sl == slots[0] || sl in slots[1..];
      if slots[0].arg == arg && conds[slots[0].idx] == c { assert Slot(slots[0].idx, arg) in slots; }
    }
  }

  lemma MentionedOk(e: Expr, n: nat, sl: Slot)
    requires ExprOk(e, n) && WhereFacts.Mentions(e, sl)
    ensures sl.idx < n
  {
    var x :| x in e.ands && WhereFacts.AndMentions(x, sl);
    AndMentionedOk(x, n, sl);
  }

  lemma AndMentionedOk(x: AndExpr, n: nat, sl: Slot)
    requires AndOk(x, n) && WhereFacts.AndMentions(x, sl)
    ensures sl.idx < n
  {
    var c :| c in x.conds && WhereFacts.CondMentions(c, sl);
    if c.Paren? { MentionedOk(c.expr, n, sl); }
  }

  /** The conditions on whose source (target) list parsing puts the rule. */
  function WatchedNames(cfg: RuleConfig, arg: Arg): (r: seq<string>)
    requires cfg.Ok()
    ensures forall c :: c in r <==> Watches(cfg, c, arg)
  {
    if cfg.where.None? then []
    else
      var slots := SlotsOf(cfg.where.value.ands);
      assert forall sl :: sl in slots <==> WhereFacts.Mentions(cfg.where.value, sl) by {
        forall sl ensures sl in slots <==> WhereFacts.Mentions(cfg.where.value, sl) {
          SlotsMeaning(cfg.where.value.ands, sl);
        }
      }
      assert SlotsOk(slots, |cfg.conds|) by {
        forall sl | sl in slots ensures sl.idx < |cfg.conds| { MentionedOk(cfg.where.value, |cfg.conds|, sl); }
      }
      var r := SlotNames(cfg.conds, slots, arg);
      assert forall c :: c in r <==> Watches(cfg, c, arg) by {
        forall c ensures c in r <==> Watches(cfg, c, arg) { SlotNamesMeaning(cfg.conds, slots, arg, c); }
      }
      r
  }

  /** Registering `rule` on the lists of `names`. */
  method RegisterRule(lists: Lists, names: seq<string>, rule: nat) returns (r: Lists)
    requires forall c | c in names :: c in lists
    requires forall c | c in lists :: Distinct(lists[c])
    ensures r.Keys == lists.Keys
    ensures forall c | c in r ::
              Distinct(r[c]) && Elements(r[c]) == Elements(lists[c]) + if c in names then {rule} else {}
  {
    r := lists;
    for i := 0 to |names|
      invariant r.Keys == lists.Keys
      invariant forall c | c in r ::
                  Distinct(r[c]) && Elements(r[c]) == Elements(lists[c]) + if c in names[..i] then {rule} else {}
    {
      var c := names[i];
      assert c in names && names[..i + 1] == names[..i] + [c];
      var l := PushNotify(r[c], rule);
      r := r[c := l];
    }
    assert names[..|names|] == names;
  }

  /** sort_notify_lists on every condition. */
  method SortAll(lists: Lists) returns (r: Lists)
    requires forall c | c in lists :: Distinct(lists[c])
    ensures r.Keys == lists.Keys && forall c | c in r :: r[c] == Listing(Elements(lists[c]))
  {
    forall c | c in lists ensures SortList(lists[c]) == Listing(Elements(lists[c])) { SortListing(lists[c]); }
    r := map c | c in lists :: SortList(lists[c]);
  }
}
