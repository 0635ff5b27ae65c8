/** Notification lists: rule ids in ascending order without duplicates. A rule
    id stands for the rule's address, the order std::list::sort uses. */
module Notify {
  import opened Ordering

  predicate IsMin(m: nat, s: set<nat>)
  {
    m in s && forall x | x in s :: m <= x
  }

  lemma MinExists(s: set<nat>)
    requires s != {}
    ensures exists m :: IsMin(m, s)
    decreases |s|
  {
    var x :| x in s;
    var rest := s - {x};
    if rest == {} {
      assert s == {x};
      assert IsMin(x, s);
    } else {
      MinExists(rest);
      var m :| IsMin(m, rest);
      var least := if x < m then x else m;
      forall y | y in s ensures least <= y {
        if y != x { assert y in rest; }
      }
      assert IsMin(least, s);
    }
  }

  /** The one sorted duplicate-free listing of a set. */
  ghost function Listing(s: set<nat>): (r: seq<nat>)
    ensures StrictlySorted(r)
    ensures forall x :: x in r <==> x in s
    decreases |s|
  {
    if s == {} then [] else
      MinExists(s);
      var m :| IsMin(m, s);
      var rest := Listing(s - {m});
      assert forall j | 0 <= j < |rest| :: rest[j] in rest;
      [m] + rest
  }

  lemma ListingUnique(r: seq<nat>, s: set<nat>)
    requires StrictlySorted(r) && forall x :: x in r <==> x in s
    ensures r == Listing(s)
  {
    SortedUnique(r, Listing(s));
  }

  // ------------------------------------------------------------- registration

  /** push_notify: a rule is appended once. */
  method PushNotify(list: seq<nat>, rule: nat) returns (r: seq<nat>)
    requires Distinct(list)
    ensures Distinct(r) && Elements(r) == Elements(list) + {rule}
  {
    if rule in list {
      r := list;
    } else {
      r := list + [rule];
    }
  }

  predicate Distinct(s: seq<nat>)
  {
    forall i, j | 0 <= i < j < |s| :: s[i] != s[j]
  }

  /** Insertion into a sorted list. */
  function Insert(x: nat, s: seq<nat>): seq<nat>
  {
    if s == [] || x <= s[0] then [x] + s else [s[0]] + Insert(x, s[1..])
  }

  function SortList(s: seq<nat>): seq<nat>
  {
    if s == [] then [] else Insert(s[0], SortList(s[1..]))
  }

  lemma {:induction false} InsertSorted(x: nat, s: seq<nat>)
    requires StrictlySorted(s) && x !in s
    ensures StrictlySorted(Insert(x, s)) && forall y :: y in Insert(x, s) <==> y == x || y in s
  {
    if s != [] && x > s[0] {
      InsertSorted(x, s[1..]);
      var rest := Insert(x, s[1..]);
      forall j | 0 <= j < |rest| ensures s[0] < rest[j] {
        assert rest[j] in rest;
      }
      assert forall y :: y in s <==> y == s[0] || y in s[1..];
    }
  }

  /** sort_notify_lists turns the registrations into the sorted listing. */
  lemma {:induction false} SortListing(s: seq<nat>)
    requires Distinct(s)
    ensures SortList(s) == Listing(Elements(s))
  {
    SortElements(s);
    ListingUnique(SortList(s), Elements(s));
  }

  lemma {:induction false} SortElements(s: seq<nat>)
    requires Distinct(s)
    ensures StrictlySorted(SortList(s)) && forall y :: y in SortList(s) <==> y in s
  {
    if s != [] {
      SortElements(s[1..]);
      InsertSorted(s[0], SortList(s[1..]));
      assert forall y :: y in s <==> y == s[0] || y in s[1..];
    }
  }

  // ------------------------------------------------------------------ merging

  /** std::list::merge of two sorted lists. */
  function Merge(a: seq<nat>, b: seq<nat>): seq<nat>
    decreases |a| + |b|
  {
    if a == [] then b
    else if b == [] then a
    else if b[0] < a[0] then [b[0]] + Merge(a, b[1..])
    else [a[0]] + Merge(a[1..], b)
  }

  /** std::list::unique: drops an element equal to its predecessor. */
  function Unique(s: seq<nat>): seq<nat>
    decreases |s|
  {
    if |s| <= 1 then s
    else if s[0] == s[1] then Unique([s[0]] + s[2..])
    else [s[0]] + Unique(s[1..])
  }

  ghost predicate WeaklySorted(s: seq<nat>)
  {
    forall i, j | 0 <= i < j < |s| :: s[i] <= s[j]
  }

  lemma {:induction false} MergeSorted(a: seq<nat>, b: seq<nat>)
    requires WeaklySorted(a) && WeaklySorted(b)
    ensures WeaklySorted(Merge(a, b)) && forall x :: x in Merge(a, b) <==> x in a || x in b
    decreases |a| + |b|
  {
    if a != [] && b != [] {
      var (head, rest) := if b[0] < a[0] then (b[0], Merge(a, b[1..])) else (a[0], Merge(a[1..], b));
      if b[0] < a[0] { MergeSorted(a, b[1..]); } else { MergeSorted(a[1..], b); }
      assert forall x :: x in a <==> x == a[0] || x in a[1..];
      assert forall x :: x in b <==> x == b[0] || x in b[1..];
      forall j | 0 <= j < |rest| ensures head <= rest[j] {
        assert rest[j] in rest;
      }
    }
  }

  lemma {:induction false} UniqueSorted(s: seq<nat>)
    requires WeaklySorted(s)
    ensures StrictlySorted(Unique(s)) && forall x :: x in Unique(s) <==> x in s
    decreases |s|
  {
    if |s| > 1 {
      if s[0] == s[1] {
        var t := [s[0]] + s[2..];
        assert forall x :: x in s <==> x == s[0] || x == s[1] || x in s[2..];
        UniqueSorted(t);
      } else {
        UniqueSorted(s[1..]);
        var rest := Unique(s[1..]);
        assert forall x :: x in s <==> x == s[0] || x in s[1..];
        forall j | 0 <= j < |rest| ensures s[0] < rest[j] {
          assert rest[j] in s[1..];
        }
      }
    }
  }

  /** One merge_notify_list round: the union, sorted and without duplicates. */
  lemma MergeUnique(a: seq<nat>, b: seq<nat>)
    requires StrictlySorted(a) && StrictlySorted(b)
    ensures StrictlySorted(Unique(Merge(a, b)))
    ensures forall x :: x in Unique(Merge(a, b)) <==> x in a || x in b
  {
    MergeSorted(a, b);
    UniqueSorted(Merge(a, b));
  }

  /** merge_notify_list: adds the lists of all the given conditions. */
  method MergeNotifyList(nList: seq<nat>, conds: seq<string>, lists: map<string, seq<nat>>) returns (r: seq<nat>)
    requires StrictlySorted(nList)
    requires forall c | c in conds :: c in lists && StrictlySorted(lists[c])
    ensures r == Listing(Elements(nList) + set c, x | c in conds && x in lists[c] :: x)
  {
    r := nList;
    for i := 0 to |conds|
      invariant StrictlySorted(r)
      invariant forall x :: x in r <==> x in nList || exists k | 0 <= k < i :: x in lists[conds[k]]
    {
      assert conds[i] in conds;
      MergeUnique(r, lists[conds[i]]);
      r := Unique(Merge(r, lists[conds[i]]));
    }
    ListingUnique(r, Elements(nList) + set c, x | c in conds && x in lists[c] :: x);
  }
}
