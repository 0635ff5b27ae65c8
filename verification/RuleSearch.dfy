/** The nested search of a rule: every in-range assignment of a box, in
    lexicographic order, until one satisfies a test. */
module RuleSearch {
  import opened Options
  import opened Domains
  import opened Where
  import opened Hitmaps
  import opened Rules

  // --------------------------------------------------------------- candidates

  /** The values condition i ranges over: the in-range pairs of its pattern, or
      the single null pair when only counts mention it. */
  predicate Allowed(p: CondDomain, d: CondDomain, hm: Hitmap, primitive: bool)
  {
    if primitive
    then Within(p.first, RangeOf(d.first, |hm.tables.src|)) && Within(p.second, RangeOf(d.second, |hm.tables.tgt|))
    else p == NULL_COND
  }

  predicate AllowedUpTo(v: Domain, box: Domain, view: seq<Hitmap>, prim: seq<bool>)
  {
    |v| <= |box| == |view| == |prim| && forall i | 0 <= i < |v| :: Allowed(v[i], box[i], view[i], prim[i])
  }

  /** An in-range assignment of the box. */
  predicate Candidate(v: Domain, box: Domain, view: seq<Hitmap>, prim: seq<bool>)
  {
    |v| == |box| && AllowedUpTo(v, box, view, prim)
  }

  predicate PairLess(p: CondDomain, q: CondDomain)
  {
    p.first < q.first || (p.first == q.first && p.second < q.second)
  }

  ghost predicate LexLess(v: Domain, w: Domain)
  {
    exists k | 0 <= k < |v| && k < |w| :: v[..k] == w[..k] && PairLess(v[k], w[k])
  }

  // ------------------------------------------------------------------- search

  function RowFrom(s: int, t: int, hi: int): seq<CondDomain>
    decreases hi - t
  {
    if t > hi then [] else [CondDomain(s, t)] + RowFrom(s, t + 1, hi)
  }

  function PairsFrom(s: int, hi: int, tgt: Range): seq<CondDomain>
    decreases hi - s
  {
    if s > hi then [] else RowFrom(s, tgt.lo, tgt.hi) + PairsFrom(s + 1, hi, tgt)
  }

  function SourceRange(d: CondDomain, hm: Hitmap, primitive: bool): Range
  {
    if primitive then RangeOf(d.first, |hm.tables.src|) else Range(NIL, NIL)
  }

  function TargetRange(d: CondDomain, hm: Hitmap, primitive: bool): Range
  {
    if primitive then RangeOf(d.second, |hm.tables.tgt|) else Range(NIL, NIL)
  }

  function Pairs(d: CondDomain, hm: Hitmap, primitive: bool): seq<CondDomain>
  {
    var src := SourceRange(d, hm, primitive);
    PairsFrom(src.lo, src.hi, TargetRange(d, hm, primitive))
  }

  /** The first extension of `pre` that passes the test, if any. */
  function Find(pre: Domain, box: Domain, view: seq<Hitmap>, prim: seq<bool>, test: Domain -> bool): (r: Option<Domain>)
    requires |pre| <= |box| == |view| == |prim|
    ensures r.Some? ==> |r.value| == |box|
    decreases |box| - |pre|, 1, 0
  {
    if |pre| == |box| then (if test(pre) then Some(pre) else None)
    else FindIn(pre, Pairs(box[|pre|], view[|pre|], prim[|pre|]), box, view, prim, test)
  }

  function FindIn(pre: Domain, ps: seq<CondDomain>, box: Domain, view: seq<Hitmap>, prim: seq<bool>,
                  test: Domain -> bool): (r: Option<Domain>)
    requires |pre| < |box| == |view| == |prim|
    ensures r.Some? ==> |r.value| == |box|
    decreases |box| - |pre|, 0, |ps|
  {
    if ps == [] then None
    else
      var r := Find(pre + [ps[0]], box, view, prim, test);
      if r.Some? then r else FindIn(pre, ps[1..], box, view, prim, test)
  }

  // -------------------------------------------------------------- properties

  ghost predicate Ascending(ps: seq<CondDomain>)
  {
    forall i, j | 0 <= i < j < |ps| :: PairLess(ps[i], ps[j])
  }

  lemma {:induction false} RowFacts(s: int, t: int, hi: int)
    ensures Ascending(RowFrom(s, t, hi))
    ensures forall p :: p in RowFrom(s, t, hi) <==> p.first == s && t <= p.second <= hi
    decreases hi - t
  {
    if t <= hi {
      RowFacts(s, t + 1, hi);
      var rest := RowFrom(s, t + 1, hi);
      assert forall j | 0 <= j < |rest| :: rest[j] in rest && PairLess(CondDomain(s, t), rest[j]);
    }
  }

  lemma {:induction false} PairsFacts(s: int, hi: int, tgt: Range)
    ensures Ascending(PairsFrom(s, hi, tgt))
    ensures forall p :: p in PairsFrom(s, hi, tgt) <==> s <= p.first <= hi && Within(p.second, tgt)
    decreases hi - s
  {
    if s <= hi {
      PairsFacts(s + 1, hi, tgt);
      RowFacts(s, tgt.lo, tgt.hi);
      AscendingConcat(RowFrom(s, tgt.lo, tgt.hi), PairsFrom(s + 1, hi, tgt));
    }
  }

  lemma AscendingConcat(ps: seq<CondDomain>, qs: seq<CondDomain>)
    requires Ascending(ps) && Ascending(qs)
    requires forall p, q | p in ps && q in qs :: PairLess(p, q)
    ensures Ascending(ps + qs)
  {
    var all := ps + qs;
    forall i, j | 0 <= i < j < |all| ensures PairLess(all[i], all[j]) {
      if i < |ps| <= j { assert all[i] in ps && all[j] in qs; }
    }
  }

  /** The loops enumerate exactly the allowed values, in ascending order. */
  lemma PairsMeaning(d: CondDomain, hm: Hitmap, primitive: bool)
    ensures Ascending(Pairs(d, hm, primitive))
    ensures forall p :: p in Pairs(d, hm, primitive) <==> Allowed(p, d, hm, primitive)
  {
    var src := SourceRange(d, hm, primitive);
    PairsFacts(src.lo, src.hi, TargetRange(d, hm, primitive));
  }

  predicate Extends(v: Domain, pre: Domain)
  {
    |pre| <= |v| && v[..|pre|] == pre
  }

  /** `v` is the least candidate extending `pre` that passes the test. */
  ghost predicate IsFirst(v: Domain, pre: Domain, box: Domain, view: seq<Hitmap>, prim: seq<bool>, test: Domain -> bool)
  {
    && Candidate(v, box, view, prim) && Extends(v, pre) && test(v)
    && forall w | Candidate(w, box, view, prim) && Extends(w, pre) && LexLess(w, v) :: !test(w)
  }

  ghost predicate NoneIn(pre: Domain, box: Domain, view: seq<Hitmap>, prim: seq<bool>, test: Domain -> bool)
  {
    forall w | Candidate(w, box, view, prim) && Extends(w, pre) :: !test(w)
  }

  lemma {:induction false} FindMeaning(pre: Domain, box: Domain, view: seq<Hitmap>, prim: seq<bool>,
                                       test: Domain -> bool)
    requires AllowedUpTo(pre, box, view, prim)
    ensures match Find(pre, box, view, prim, test)
            case Some(v) => IsFirst(v, pre, box, view, prim, test)
            case None => NoneIn(pre, box, view, prim, test)
    decreases |box| - |pre|, 1, 0
  {
    if |pre| == |box| {
      assert pre[..|pre|] == pre;
      forall w | Candidate(w, box, view, prim) && Extends(w, pre) ensures w == pre { assert w[..|pre|] == w; }
      assert !LexLess(pre, pre);
    } else {
      var n := |pre|;
      var ps := Pairs(box[n], view[n], prim[n]);
      PairsMeaning(box[n], view[n], prim[n]);
      FindInMeaning(pre, ps, box, view, prim, test);
      forall w | Candidate(w, box, view, prim) && Extends(w, pre) ensures w[n] in ps {
        assert Allowed(w[n], box[n], view[n], prim[n]);
      }
    }
  }

  /** Candidates extending `pre` whose next value is in the list. */
  ghost predicate Next(w: Domain, pre: Domain, ps: seq<CondDomain>)
  {
    Extends(w, pre) && |pre| < |w| && w[|pre|] in ps
  }

  lemma {:induction false} FindInMeaning(pre: Domain, ps: seq<CondDomain>, box: Domain, view: seq<Hitmap>,
                                         prim: seq<bool>, test: Domain -> bool)
    requires AllowedUpTo(pre, box, view, prim) && |pre| < |box|
    requires Ascending(ps) && forall p | p in ps :: Allowed(p, box[|pre|], view[|pre|], prim[|pre|])
    ensures match FindIn(pre, ps, box, view, prim, test)
            case Some(v) =>
              && Candidate(v, box, view, prim) && Next(v, pre, ps) && test(v)
              && (forall w | Candidate(w, box, view, prim) && Next(w, pre, ps) && LexLess(w, v) :: !test(w))
            case None => forall w | Candidate(w, box, view, prim) && Next(w, pre, ps) :: !test(w)
    decreases |box| - |pre|, 0, |ps|
  {
    if ps != [] {
      var n := |pre|;
      var one := pre + [ps[0]];
      assert ps[0] in ps;
      FindMeaning(one, box, view, prim, test);
      FindInMeaning(pre, ps[1..], box, view, prim, test);
      forall w | Candidate(w, box, view, prim) ensures Next(w, pre, ps) <==> Extends(w, one) || Next(w, pre, ps[1..]) {
        ExtendsOne(w, pre, ps[0]);
      }
      var r := FindIn(pre, ps, box, view, prim, test);
      if r.Some? {
        var v := r.value;
        ExtendsOne(v, pre, ps[0]);
        forall w | Candidate(w, box, view, prim) && Next(w, pre, ps) && LexLess(w, v) ensures !test(w) {
          ExtendsOne(w, pre, ps[0]);
          if Next(w, pre, ps[1..]) && v[n] == ps[0] {
            LaterNotLess(w, v, pre, ps);
          }
        }
      }
    }
  }

  lemma ExtendsOne(w: Domain, pre: Domain, p: CondDomain)
    ensures Extends(w, pre + [p]) <==> Extends(w, pre) && |pre| < |w| && w[|pre|] == p
  {
    if Extends(w, pre + [p]) {
      assert w[..|pre|] == w[..|pre| + 1][..|pre|] == (pre + [p])[..|pre|] == pre;
      assert w[|pre|] == w[..|pre| + 1][|pre|];
    }
    if |pre| < |w| {
      assert w[..|pre| + 1] == w[..|pre|] + [w[|pre|]];
    }
  }

  /** A later value of the next condition makes a lexicographically later
      assignment. */
  lemma LaterNotLess(w: Domain, v: Domain, pre: Domain, ps: seq<CondDomain>)
    requires ps != [] && Ascending(ps) && Next(w, pre, ps[1..]) && Next(v, pre, ps) && v[|pre|] == ps[0]
    ensures !LexLess(w, v)
  {
    var n := |pre|;
    var j :| 0 <= j < |ps[1..]| && ps[1..][j] == w[n];
    assert PairLess(v[n], w[n]) by { assert PairLess(ps[0], ps[j + 1]); }
    forall k | 0 <= k < |w| && k < |v| ensures !(w[..k] == v[..k] && PairLess(w[k], v[k])) {
      if k < n {
        assert w[k] == w[..n][k] == pre[k] == v[..n][k] == v[k];
      } else if k > n {
        assert w[..k][n] == w[n] && v[..k][n] == v[n];
      }
    }
  }

  lemma {:induction false} FindInConcat(pre: Domain, ps: seq<CondDomain>, qs: seq<CondDomain>, box: Domain,
                                        view: seq<Hitmap>, prim: seq<bool>, test: Domain -> bool)
    requires |pre| < |box| == |view| == |prim|
    ensures FindIn(pre, ps + qs, box, view, prim, test) ==
            var r := FindIn(pre, ps, box, view, prim, test);
            if r.Some? then r else FindIn(pre, qs, box, view, prim, test)
  {
    if ps == [] {
      assert ps + qs == qs;
    } else {
      assert (ps + qs)[1..] == ps[1..] + qs;
      FindInConcat(pre, ps[1..], qs, box, view, prim, test);
    }
  }
}
