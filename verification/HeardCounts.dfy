/** Counts, read over the names and messages heard. */
module HeardCounts {
  import opened Options
  import opened Domains
  import opened Where
  import opened Hitmaps
  import opened Rules
  import opened CellWindows
  import opened Engine
  import opened EngineFacts
  import opened EngineWindows
  import opened EngineMessages
  import opened HeardMaps
  import C = Cells

  /** The names that a pattern element picks. */
  function Picked(names: seq<string>, p: int): seq<string>
  {
    if p == ANY then names else if 0 <= p < |names| then [names[p]] else []
  }

  predicate AllDistinct(names: seq<string>)
  {
    forall i, j | 0 <= i < j < |names| :: names[i] != names[j]
  }

  predicate SomeTarget(on: (string, string) -> bool, x: string, T: seq<string>)
  {
    exists y | y in T :: on(x, y)
  }

  predicate SomeSource(on: (string, string) -> bool, y: string, S: seq<string>)
  {
    exists x | x in S :: on(x, y)
  }

  function SizesOf(size: (string, string) -> nat, x: string, T: seq<string>): nat
  {
    if T == [] then 0 else size(x, T[0]) + SizesOf(size, x, T[1..])
  }

  /** The sizes for all pairs of a source and a target. */
  function AllSizes(size: (string, string) -> nat, S: seq<string>, T: seq<string>): nat
  {
    if S == [] then 0 else SizesOf(size, S[0], T) + AllSizes(size, S[1..], T)
  }

  // ------------------------------------------------------ a hit map and its names

  /** The map numbers the names of S and T, and its cells read as given. */
  ghost predicate Gives(hm: Hitmap, S: seq<string>, T: seq<string>, on: (string, string) -> bool,
                        size: (string, string) -> nat)
  {
    && |hm.tables.src| == |S| && |hm.tables.tgt| == |T| && AllDistinct(S) && AllDistinct(T)
    && (forall s: nat, t: nat :: CellAt(hm, s, t).on <==> s < |S| && t < |T| && on(S[s], T[t]))
    && (forall s: nat, t: nat :: |CellAt(hm, s, t).msgs| == if s < |S| && t < |T| then size(S[s], T[t]) else 0)
  }

  /** One cell. */
  predicate CellGives(hm: Hitmap, S: seq<string>, T: seq<string>, on: (string, string) -> bool,
                      size: (string, string) -> nat, s: nat, t: nat)
  {
    && (CellAt(hm, s, t).on <==> s < |S| && t < |T| && on(S[s], T[t]))
    && |CellAt(hm, s, t).msgs| == if s < |S| && t < |T| then size(S[s], T[t]) else 0
  }

  lemma GivesAll(hm: Hitmap, S: seq<string>, T: seq<string>, on: (string, string) -> bool,
                 size: (string, string) -> nat)
    requires |hm.tables.src| == |S| && |hm.tables.tgt| == |T| && AllDistinct(S) && AllDistinct(T)
    requires forall s: nat, t: nat :: CellGives(hm, S, T, on, size, s, t)
    ensures Gives(hm, S, T, on, size)
  {
    forall s: nat, t: nat
      ensures CellAt(hm, s, t).on <==> s < |S| && t < |T| && on(S[s], T[t])
      ensures |CellAt(hm, s, t).msgs| == if s < |S| && t < |T| then size(S[s], T[t]) else 0
    {
      assert CellGives(hm, S, T, on, size, s, t);
    }
  }

  /** The index of a name among those picked. */
  predicate At(names: seq<string>, p: int, i: int, x: string)
  {
    0 <= i < |names| && (p == ANY || p == i) && names[i] == x
  }

  lemma PickedAt(names: seq<string>, p: int, x: string)
    ensures x in Picked(names, p) <==> exists i :: At(names, p, i, x)
  {
    if x in names && p == ANY {
      var i :| 0 <= i < |names| && names[i] == x;
      assert At(names, p, i, x);
    }
    if 0 <= p < |names| { assert At(names, p, p, names[p]); }
  }

  lemma RangeAt(names: seq<string>, p: int, i: int)
    ensures 0 <= i < |names| ==> (Within(i, RangeOf(p, |names|)) <==> At(names, p, i, names[i]))
  {
  }

  lemma SourceReads(hm: Hitmap, S: seq<string>, T: seq<string>, on: (string, string) -> bool,
                    size: (string, string) -> nat, q: int, s: int)
    requires Gives(hm, S, T, on, size)
    ensures SourceOn(hm, s, RangeOf(q, |T|)) <==> 0 <= s < |S| && SomeTarget(on, S[s], Picked(T, q))
  {
    if SourceOn(hm, s, RangeOf(q, |T|)) {
      var t :| Within(t, RangeOf(q, |T|)) && On(hm, s, t);
      assert On(hm, s, t);
      RangeAt(T, q, t);
      PickedAt(T, q, T[t]);
    }
    if 0 <= s < |S| && SomeTarget(on, S[s], Picked(T, q)) {
      var y :| y in Picked(T, q) && on(S[s], y);
      PickedAt(T, q, y);
      var t :| At(T, q, t, y);
      RangeAt(T, q, t);
      assert On(hm, s, t);
    }
  }

  lemma TargetReads(hm: Hitmap, S: seq<string>, T: seq<string>, on: (string, string) -> bool,
                    size: (string, string) -> nat, p: int, t: int)
    requires Gives(hm, S, T, on, size)
    ensures TargetOn(hm, t, RangeOf(p, |S|)) <==> 0 <= t < |T| && SomeSource(on, T[t], Picked(S, p))
  {
    if TargetOn(hm, t, RangeOf(p, |S|)) {
      var s :| Within(s, RangeOf(p, |S|)) && On(hm, s, t);
      assert On(hm, s, t);
      RangeAt(S, p, s);
      PickedAt(S, p, S[s]);
    }
    if 0 <= t < |T| && SomeSource(on, T[t], Picked(S, p)) {
      var x :| x in Picked(S, p) && on(x, T[t]);
      PickedAt(S, p, x);
      var s :| At(S, p, s, x);
      RangeAt(S, p, s);
      assert On(hm, s, t);
    }
  }

  /** `B` are the names at the indices `A`. */
  ghost predicate NamedBy(A: set<nat>, B: set<string>, names: seq<string>)
  {
    && (forall i | i in A :: 0 <= i < |names| && names[i] in B)
    && (forall x | x in B :: exists i :: i in A && 0 <= i < |names| && names[i] == x)
  }

  /** Distinct names are as many as their indices. */
  lemma {:induction false} SameSize(A: set<nat>, B: set<string>, names: seq<string>)
    requires AllDistinct(names) && NamedBy(A, B, names)
    ensures |A| == |B|
    decreases |A|
  {
    if A == {} {
      NoNames(A, B, names);
    } else {
      var i := Member(A);
      RestNamed(A, B, names, i);
      SameSize(A - {i}, B - {names[i]}, names);
    }
  }

  lemma Member(A: set<nat>) returns (i: nat)
    requires A != {}
    ensures i in A
  {
    i :| i in A;
  }

  lemma NoNames(A: set<nat>, B: set<string>, names: seq<string>)
    requires NamedBy(A, B, names) && A == {}
    ensures B == {}
  {
    forall x ensures x !in B {
    }
  }

  lemma RestNamed(A: set<nat>, B: set<string>, names: seq<string>, i: nat)
    requires AllDistinct(names) && NamedBy(A, B, names) && i in A
    ensures NamedBy(A - {i}, B - {names[i]}, names)
  {
    forall x | x in B - {names[i]} ensures exists j :: j in A - {i} && 0 <= j < |names| && names[j] == x {
      var j :| j in A && 0 <= j < |names| && names[j] == x;
      assert j in A - {i};
    }
  }

  /** `A` are the picked indices with some property, `B` the picked names with it. */
  lemma ChosenSize(names: seq<string>, p: int, A: set<nat>, B: set<string>)
    requires AllDistinct(names)
    requires forall i | i in A :: 0 <= i < |names| && Within(i, RangeOf(p, |names|)) && names[i] in B
    requires forall i | 0 <= i < |names| && Within(i, RangeOf(p, |names|)) && names[i] in B :: i in A
    requires forall x | x in B :: x in Picked(names, p)
    ensures |A| == |B|
  {
    forall x | x in B ensures exists i :: i in A && 0 <= i < |names| && names[i] == x {
      PickedAt(names, p, x);
      var i :| At(names, p, i, x);
      RangeAt(names, p, i);
    }
    SameSize(A, B, names);
  }

  lemma InPicked(names: seq<string>, p: int, i: int)
    requires 0 <= i < |names| && Within(i, RangeOf(p, |names|))
    ensures names[i] in Picked(names, p)
  {
    RangeAt(names, p, i);
    PickedAt(names, p, names[i]);
  }

  lemma SourcesGiven(hm: Hitmap, S: seq<string>, T: seq<string>, on: (string, string) -> bool,
                     size: (string, string) -> nat, d: CondDomain)
    requires Gives(hm, S, T, on, size)
    ensures CountOf(hm, d, Sources) == |set x | x in Picked(S, d.first) && SomeTarget(on, x, Picked(T, d.second))|
  {
    var src, tgt, Q := RangeOf(d.first, |S|), RangeOf(d.second, |T|), Picked(T, d.second);
    var A := set s | src.lo <= s <= src.hi && SourceOn(hm, s, tgt);
    var B := set x | x in Picked(S, d.first) && SomeTarget(on, x, Q);
    forall s | Within(s, src) ensures s in A <==> 0 <= s < |S| && S[s] in B {
      SourceReads(hm, S, T, on, size, d.second, s);
      if 0 <= s < |S| { InPicked(S, d.first, s); }
    }
    ChosenSize(S, d.first, A, B);
  }

  lemma TargetsGiven(hm: Hitmap, S: seq<string>, T: seq<string>, on: (string, string) -> bool,
                     size: (string, string) -> nat, d: CondDomain)
    requires Gives(hm, S, T, on, size)
    ensures CountOf(hm, d, Targets) == |set y | y in Picked(T, d.second) && SomeSource(on, y, Picked(S, d.first))|
  {
    var src, tgt, P := RangeOf(d.first, |S|), RangeOf(d.second, |T|), Picked(S, d.first);
    var A := set t | tgt.lo <= t <= tgt.hi && TargetOn(hm, t, src);
    var B := set y | y in Picked(T, d.second) && SomeSource(on, y, P);
    forall t | Within(t, tgt) ensures t in A <==> 0 <= t < |T| && T[t] in B {
      TargetReads(hm, S, T, on, size, d.first, t);
      if 0 <= t < |T| { InPicked(T, d.second, t); }
    }
    ChosenSize(T, d.second, A, B);
  }

  // ------------------------------------------------------------------- messages

  lemma RowGiven(hm: Hitmap, S: seq<string>, T: seq<string>, on: (string, string) -> bool,
                 size: (string, string) -> nat, s: int, q: int)
    requires Gives(hm, S, T, on, size)
    ensures RowSum(hm, s, RangeOf(q, |T|), RangeOf(q, |T|).lo)
            == if 0 <= s < |S| then SizesOf(size, S[s], Picked(T, q)) else 0
  {
    var tgt := RangeOf(q, |T|);
    if q == ANY {
      RowFrom(hm, S, T, on, size, s, 0);
      assert T[0..] == T;
    } else {
      assert RowSum(hm, s, tgt, q + 1) == 0;
      if 0 <= q < |T| && 0 <= s < |S| {
        assert SizesOf(size, S[s], [T[q]][1..]) == 0;
      }
    }
  }

  lemma {:induction false} RowFrom(hm: Hitmap, S: seq<string>, T: seq<string>, on: (string, string) -> bool,
                                   size: (string, string) -> nat, s: int, t: nat)
    requires Gives(hm, S, T, on, size) && t <= |T|
    ensures RowSum(hm, s, Range(0, |T| - 1), t) == if 0 <= s < |S| then SizesOf(size, S[s], T[t..]) else 0
    decreases |T| - t
  {
    if t < |T| {
      RowFrom(hm, S, T, on, size, s, t + 1);
      assert T[t..][1..] == T[t + 1..];
    }
  }

  lemma {:induction false} GridFrom(hm: Hitmap, S: seq<string>, T: seq<string>, on: (string, string) -> bool,
                                    size: (string, string) -> nat, s: nat, q: int)
    requires Gives(hm, S, T, on, size) && s <= |S|
    ensures GridSum(hm, Range(0, |S| - 1), RangeOf(q, |T|), s) == AllSizes(size, S[s..], Picked(T, q))
    decreases |S| - s
  {
    if s < |S| {
      GridFrom(hm, S, T, on, size, s + 1, q);
      RowGiven(hm, S, T, on, size, s, q);
      assert S[s..][1..] == S[s + 1..];
    }
  }

  lemma MessagesGiven(hm: Hitmap, S: seq<string>, T: seq<string>, on: (string, string) -> bool,
                      size: (string, string) -> nat, d: CondDomain)
    requires Gives(hm, S, T, on, size)
    ensures CountOf(hm, d, Messages) == AllSizes(size, Picked(S, d.first), Picked(T, d.second))
  {
    if d.first == ANY {
      GridFrom(hm, S, T, on, size, 0, d.second);
      assert S[0..] == S;
    } else {
      var p := d.first;
      RowGiven(hm, S, T, on, size, p, d.second);
      assert GridSum(hm, RangeOf(p, |S|), RangeOf(d.second, |T|), p + 1) == 0;
      if 0 <= p < |S| { assert AllSizes(size, [S[p]][1..], Picked(T, d.second)) == 0; }
    }
  }

  // ----------------------------------------------------------- counts, by message

  /** By the messages heard, the cell of x and y is on, and holds so many messages. */
  ghost function OnHeard(su: Setup, acts: seq<Action>, c: string): (string, string) -> bool
    requires c in su.conds
  {
    (x, y) => ReadsNow(su.conds[c], Heard(su, acts, c, x, y))
  }

  ghost function SizeHeard(su: Setup, acts: seq<Action>, c: string): (string, string) -> nat
    requires c in su.conds && su.conds[c].Ok()
  {
    (x, y) => Held(su.conds[c], Heard(su, acts, c, x, y))
  }

  lemma NumbersDistinct(m: map<string, nat>, names: seq<string>)
    requires Numbers(m, names)
    ensures AllDistinct(names)
  {
    forall i, j | 0 <= i < j < |names| ensures names[i] != names[j] {
      assert m[names[i]] == i && m[names[j]] == j;
    }
  }

  lemma RunGives(su: Setup, acts: seq<Action>, c: string)
    requires SetupOk(su) && ActionsOk(acts) && Ordered(su, acts) && c in su.conds
    ensures c in Run(su, acts).conds
    ensures Gives(Run(su, acts).conds[c].hm, NamesHeard(su, acts, c, Source), NamesHeard(su, acts, c, Target),
                  OnHeard(su, acts, c), SizeHeard(su, acts, c))
  {
    RunNames(su, acts, c, Source);
    RunNames(su, acts, c, Target);
    var hm, S, T := Run(su, acts).conds[c].hm, NamesHeard(su, acts, c, Source), NamesHeard(su, acts, c, Target);
    var on, size := OnHeard(su, acts, c), SizeHeard(su, acts, c);
    NumbersDistinct(hm.tables.src, S);
    NumbersDistinct(hm.tables.tgt, T);
    forall s: nat, t: nat ensures CellGives(hm, S, T, on, size, s, t) { CellGiven(su, acts, c, s, t); }
    GivesAll(hm, S, T, on, size);
  }

  lemma CellGiven(su: Setup, acts: seq<Action>, c: string, s: nat, t: nat)
    requires SetupOk(su) && ActionsOk(acts) && Ordered(su, acts) && c in su.conds && c in Run(su, acts).conds
    ensures CellGives(Run(su, acts).conds[c].hm, NamesHeard(su, acts, c, Source), NamesHeard(su, acts, c, Target),
                      OnHeard(su, acts, c), SizeHeard(su, acts, c), s, t)
  {
    if s < |NamesHeard(su, acts, c, Source)| && t < |NamesHeard(su, acts, c, Target)| {
      KnownCell(su, acts, c, s, t);
    } else {
      UnknownCell(su, acts, c, s, t);
    }
  }

  /** In every ordered run a count is, by its kind, the number of sources heard that
      some target's messages turn on, of targets likewise, or the messages held for
      all pairs of them. */
  lemma CountHeard(su: Setup, acts: seq<Action>, c: string, d: CondDomain)
    requires SetupOk(su) && ActionsOk(acts) && Ordered(su, acts) && c in su.conds
    ensures c in Run(su, acts).conds
    ensures var hm := Run(su, acts).conds[c].hm;
            var S := Picked(NamesHeard(su, acts, c, Source), d.first);
            var T := Picked(NamesHeard(su, acts, c, Target), d.second);
            && CountOf(hm, d, Sources) == |set x | x in S && SomeTarget(OnHeard(su, acts, c), x, T)|
            && CountOf(hm, d, Targets) == |set y | y in T && SomeSource(OnHeard(su, acts, c), y, S)|
            && CountOf(hm, d, Messages) == AllSizes(SizeHeard(su, acts, c), S, T)
  {
    RunGives(su, acts, c);
    var hm, S, T := Run(su, acts).conds[c].hm, NamesHeard(su, acts, c, Source), NamesHeard(su, acts, c, Target);
    SourcesGiven(hm, S, T, OnHeard(su, acts, c), SizeHeard(su, acts, c), d);
    TargetsGiven(hm, S, T, OnHeard(su, acts, c), SizeHeard(su, acts, c), d);
    MessagesGiven(hm, S, T, OnHeard(su, acts, c), SizeHeard(su, acts, c), d);
  }

  /** Two sources, one target, both cells on: two sources and one target count. */
  lemma TwoSourcesExample(hm: Hitmap, on: (string, string) -> bool, size: (string, string) -> nat)
    requires Gives(hm, ["a", "b"], ["t"], on, size) && on("a", "t") && on("b", "t")
    ensures CountOf(hm, ANY_COND, Sources) == 2 && CountOf(hm, ANY_COND, Targets) == 1
  {
    var S, T := ["a", "b"], ["t"];
    SourcesGiven(hm, S, T, on, size, ANY_COND);
    TargetsGiven(hm, S, T, on, size, ANY_COND);
    assert "t" in T && "a" in S && "a"[0] != "b"[0];
    var B, C := set x | x in S && SomeTarget(on, x, T), set y | y in T && SomeSource(on, y, S);
    assert B == {"a", "b"};
    assert |{"a", "b"}| == 2;
    assert C == {"t"};
    assert Picked(S, ANY) == S && Picked(T, ANY) == T;
  }
}
