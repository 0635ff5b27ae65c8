/** The orders the engine relies on: std::map iterates its keys in ascending
    string order, and the rule lists are sorted by address. */
module Ordering {

  // ---------------------------------------------------------------- strings

  /** Lexicographic order of strings, the key order of std::map. */
  predicate Less(a: string, b: string)
  {
    if b == "" then false
    else if a == "" then true
    else if a[0] != b[0] then a[0] < b[0]
    else Less(a[1..], b[1..])
  }

  lemma {:induction false} LessTotal(a: string, b: string)
    ensures Less(a, b) || Less(b, a) || a == b
    ensures !(Less(a, b) && Less(b, a))
    ensures a == b ==> !Less(a, b)
  {
    if a != "" && b != "" && a[0] == b[0] {
      LessTotal(a[1..], b[1..]);
      assert a == [a[0]] + a[1..] && b == [b[0]] + b[1..];
    }
  }

  lemma {:induction false} LessTransitive(a: string, b: string, c: string)
    requires Less(a, b) && Less(b, c)
    ensures Less(a, c)
  {
    if a != "" && a[0] == b[0] && b[0] == c[0] {
      LessTransitive(a[1..], b[1..], c[1..]);
    }
  }

  /** At the first place k where they differ, a has ended or its character is the
      smaller one. */
  predicate DiffersAt(a: string, b: string, k: nat)
  {
    && k <= |a| && k < |b| && (forall i | 0 <= i < k :: a[i] == b[i])
    && (k == |a| || a[k] < b[k])
  }

  ghost predicate CharsLess(a: string, b: string)
  {
    exists k: nat :: DiffersAt(a, b, k)
  }

  /** The order is the ascending one, character by character. */
  lemma {:induction false} LessMeaning(a: string, b: string)
    ensures Less(a, b) <==> CharsLess(a, b)
  {
    if b != "" && a == "" {
      assert DiffersAt(a, b, 0);
    } else if b != "" && a[0] != b[0] {
      assert a[0] < b[0] ==> DiffersAt(a, b, 0);
    } else if b != "" {
      LessMeaning(a[1..], b[1..]);
      LessLater(a, b);
    }
  }

  lemma LessLater(a: string, b: string)
    requires a != "" && b != "" && a[0] == b[0]
    ensures CharsLess(a, b) <==> CharsLess(a[1..], b[1..])
  {
    if k: nat :| DiffersAt(a, b, k) { assert DiffersAt(a[1..], b[1..], k - 1); }
    if k: nat :| DiffersAt(a[1..], b[1..], k) {
      forall i | 0 <= i < k + 1 ensures a[i] == b[i] {
        if i > 0 { assert a[1..][i - 1] == b[1..][i - 1]; }
      }
      assert DiffersAt(a, b, k + 1);
    }
  }

  /** The least string of a set comes before every other, character by character. */
  lemma LeastMeaning(m: string, s: set<string>)
    requires IsLeast(m, s)
    ensures m in s && forall x | x in s && x != m :: CharsLess(m, x)
  {
    forall x | x in s && x != m ensures CharsLess(m, x) { LessMeaning(m, x); }
  }

  predicate IsLeast(m: string, s: set<string>)
  {
    m in s && forall x | x in s && x != m :: Less(m, x)
  }

  lemma LeastExists(s: set<string>)
    requires s != {}
    ensures exists m :: IsLeast(m, s)
    decreases |s|
  {
    var x :| x in s;
    var rest := s - {x};
    if rest == {} {
      assert s == {x};
      assert IsLeast(x, s);
    } else {
      LeastExists(rest);
      var m :| IsLeast(m, rest);
      LessTotal(x, m);
      if Less(x, m) {
        forall y | y in s && y != x ensures Less(x, y) {
          if y != m { LessTransitive(x, m, y); }
        }
        assert IsLeast(x, s);
      } else {
        assert IsLeast(m, s);
      }
    }
  }

  ghost function Least(s: set<string>): (m: string)
    requires s != {}
    ensures IsLeast(m, s)
  {
    LeastExists(s);
    var m :| IsLeast(m, s);
    m
  }

  ghost predicate Ascending(keys: seq<string>)
  {
    forall i, j | 0 <= i < j < |keys| :: Less(keys[i], keys[j])
  }

  /** The keys of a std::map in the order its iterators visit them. */
  ghost function SortedKeys(s: set<string>): (keys: seq<string>)
    ensures Ascending(keys)
    ensures forall k :: k in keys <==> k in s
    decreases |s|
  {
    if s == {} then [] else
      var m := Least(s);
      var rest := SortedKeys(s - {m});
      assert forall k | k in rest :: Less(m, k);
      [m] + rest
  }

  /** An iteration that always takes the least remaining key follows SortedKeys. */
  lemma SortedKeysStep(s: set<string>, m: string)
    requires IsLeast(m, s)
    ensures SortedKeys(s) == [m] + SortedKeys(s - {m})
  {
    LessTotal(m, Least(s));
  }

  // ------------------------------------------------------------------ rules

  /** Strictly increasing: a sorted list without duplicates. */
  ghost predicate StrictlySorted(s: seq<nat>)
  {
    forall i, j | 0 <= i < j < |s| :: s[i] < s[j]
  }

  ghost function Elements<T>(s: seq<T>): set<T>
  {
    set x | x in s
  }

  /** A set has one sorted duplicate-free listing. */
  lemma {:induction false} SortedUnique(a: seq<nat>, b: seq<nat>)
    requires StrictlySorted(a) && StrictlySorted(b)
    requires forall x :: x in a <==> x in b
    ensures a == b
  {
    if a != [] { assert a[0] in b; }
    if b != [] { assert b[0] in a; }
    if a != [] {
      assert a[0] == b[0];
      forall x ensures x in a[1..] <==> x in b[1..] {
        if x in a[1..] { assert x in b && x != b[0]; }
        if x in b[1..] { assert x in a && x != a[0]; }
      }
      SortedUnique(a[1..], b[1..]);
      assert a == [a[0]] + a[1..] && b == [b[0]] + b[1..];
    }
  }
}
