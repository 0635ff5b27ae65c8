/** The domain algebra: boxes of (source index, target index) patterns, one
    pattern for each condition of a rule. */
module Domains {

  const ANY: int := -1
  const NIL: int := -2

  /** A pattern for one condition; also a concrete (source, target) index pair. */
  datatype CondDomain = CondDomain(first: int, second: int)

  /** One pattern per condition of the rule. */
  type Domain = seq<CondDomain>

  datatype Arg = Source | Target

  datatype Result<+T> = Ok(value: T) | Throw(error: string)

  // ------------------------------------------------------------ denotation

  /** What a pattern element accepts. */
  predicate Matches(p: int, x: int)
  {
    p == ANY || p == x
  }

  predicate InCond(a: CondDomain, d: CondDomain)
  {
    Matches(d.first, a.first) && Matches(d.second, a.second)
  }

  /** The box `d` contains the assignment `a`. */
  predicate In(a: Domain, d: Domain)
  {
    |a| == |d| && forall i | 0 <= i < |a| :: InCond(a[i], d[i])
  }

  /** The union of a list of boxes. */
  predicate InAny(a: Domain, ds: seq<Domain>)
  {
    exists k | 0 <= k < |ds| :: In(a, ds[k])
  }

  /** Every slot holds a real table index. */
  predicate Concrete(a: Domain)
  {
    forall i | 0 <= i < |a| :: a[i].first >= 0 && a[i].second >= 0
  }

  // ----------------------------------------------------------- constructors

  const NULL_COND := CondDomain(NIL, NIL)
  const ANY_COND := CondDomain(ANY, ANY)

  /** (i, *) or (*, i). */
  function CondOf(i: int, arg: Arg): CondDomain
  {
    if arg == Source then CondDomain(i, ANY) else CondDomain(ANY, i)
  }

  const NULL_DOMAIN: Domain := [NULL_COND]

  function NullsOf(size: nat): Domain
  {
    seq(size, _ => NULL_COND)
  }

  function AnyDomain(size: nat): Domain
  {
    seq(size, _ => ANY_COND)
  }

  // ----------------------------------------------------------- intersection

  function AndOp(i: int, j: int): int
  {
    if i == NIL || j == NIL then NIL
    else if i == j then i
    else if i == ANY then j
    else if j == ANY then i
    else NIL
  }

  predicate CondIsNull(d: CondDomain)
  {
    d.first == NIL || d.second == NIL
  }

  predicate IsNull(d: Domain)
  {
    d == [] || exists i | 0 <= i < |d| :: CondIsNull(d[i])
  }

  function IntersectCond(d1: CondDomain, d2: CondDomain): CondDomain
  {
    var d := CondDomain(AndOp(d1.first, d2.first), AndOp(d1.second, d2.second));
    if CondIsNull(d) then NULL_COND else d
  }

  function Pointwise(d1: Domain, d2: Domain): Domain
    requires |d1| == |d2|
  {
    seq(|d1|, i requires 0 <= i < |d1| => IntersectCond(d1[i], d2[i]))
  }

  /** The intersection of two boxes of one width; null results collapse to the
      one-slot null box. */
  function Intersect(d1: Domain, d2: Domain): Domain
    requires |d1| == |d2|
  {
    var d := Pointwise(d1, d2);
    if IsNull(d1) || IsNull(d2) || IsNull(d) then NULL_DOMAIN else d
  }

  method IntersectDomain(d1: Domain, d2: Domain) returns (r: Result<Domain>)
    ensures r.Throw? <==> !IsNull(d1) && !IsNull(d2) && |d1| != |d2|
    ensures IsNull(d1) || IsNull(d2) ==> r == Ok(NULL_DOMAIN)
    ensures |d1| == |d2| ==> r == Ok(Intersect(d1, d2))
  {
    var null1 := DomainIsNull(d1);
    var null2 := DomainIsNull(d2);
    if null1 || null2 {
      return Ok(NULL_DOMAIN);
    }
    if |d1| != |d2| {
      return Throw("domain size incomparable while doing domain_intersect");
    }
    var d := d1;
    var i := 0;
    while i < |d|
      invariant |d| == |d1| && 0 <= i <= |d|
      invariant forall k | 0 <= k < i :: d[k] == Pointwise(d1, d2)[k] && !CondIsNull(d[k])
      invariant forall k | i <= k < |d| :: d[k] == d1[k]
    {
      d := d[i := IntersectCond(d[i], d2[i])];
      if CondIsNull(d[i]) {
        assert CondIsNull(Pointwise(d1, d2)[i]);
        return Ok(NULL_DOMAIN);
      }
      i := i + 1;
    }
    assert d == Pointwise(d1, d2);
    return Ok(d);
  }

  method DomainIsNull(d: Domain) returns (r: bool)
    ensures r == IsNull(d)
  {
    if d == [] { return true; }
    for i := 0 to |d|
      invariant forall k | 0 <= k < i :: !CondIsNull(d[k])
    {
      if CondIsNull(d[i]) { return true; }
    }
    return false;
  }

  // ------------------------------------------------------------- properties

  lemma AndOpMeaning(i: int, j: int, x: int)
    requires x >= 0
    ensures Matches(AndOp(i, j), x) <==> Matches(i, x) && Matches(j, x)
  {
  }

  lemma IntersectCondMeaning(a: CondDomain, d1: CondDomain, d2: CondDomain)
    requires a.first >= 0 && a.second >= 0
    ensures InCond(a, IntersectCond(d1, d2)) <==> InCond(a, d1) && InCond(a, d2)
  {
    AndOpMeaning(d1.first, d2.first, a.first);
    AndOpMeaning(d1.second, d2.second, a.second);
  }

  lemma NullIsEmpty(a: Domain, d: Domain)
    requires Concrete(a) && a != [] && IsNull(d)
    ensures !In(a, d)
  {
  }

  /** The intersection of boxes is the intersection of the sets they denote. */
  lemma IntersectMeaning(a: Domain, d1: Domain, d2: Domain)
    requires |d1| == |d2| > 0 && Concrete(a)
    ensures In(a, Intersect(d1, d2)) <==> In(a, d1) && In(a, d2)
    ensures Intersect(d1, d2) != NULL_DOMAIN ==> |Intersect(d1, d2)| == |d1| && !IsNull(Intersect(d1, d2))
  {
    var d := Pointwise(d1, d2);
    assert IsNull(NULL_DOMAIN) by { assert CondIsNull(NULL_DOMAIN[0]); }
    if |a| == |d1| {
      forall i | 0 <= i < |a|
        ensures InCond(a[i], d[i]) <==> InCond(a[i], d1[i]) && InCond(a[i], d2[i])
      {
        IntersectCondMeaning(a[i], d1[i], d2[i]);
      }
      assert In(a, d) <==> In(a, d1) && In(a, d2);
      if IsNull(d1) { NullIsEmpty(a, d1); }
      if IsNull(d2) { NullIsEmpty(a, d2); }
      if IsNull(d) { NullIsEmpty(a, d); }
      NullIsEmpty(a, NULL_DOMAIN);
    } else if |a| > 0 {
      NullIsEmpty(a, NULL_DOMAIN);
    }
  }

  /** A box of patterns is null exactly when no assignment lies in it. */
  lemma NullMeaning(d: Domain)
    requires d != []
    requires forall i | 0 <= i < |d| :: d[i].first >= NIL && d[i].second >= NIL
    ensures IsNull(d) <==> !exists a :: Concrete(a) && In(a, d)
  {
    if IsNull(d) {
      forall a | Concrete(a) && In(a, d) ensures false { NullIsEmpty(a, d); }
    } else {
      var a := seq(|d|, i requires 0 <= i < |d| =>
        CondDomain(if d[i].first == ANY then 0 else d[i].first, if d[i].second == ANY then 0 else d[i].second));
      assert forall i | 0 <= i < |d| :: !CondIsNull(d[i]) && InCond(a[i], d[i]);
      assert Concrete(a) && In(a, d);
    }
  }
}
