/** The message viewer: suppression and throttling of incoming messages, the
    bounded pool of messages, and its indexes by host, application and category. */
module ViewerPool {
  import T = Throttle

  datatype Key = Host | App | Cat

  /** `id` tells apart messages that are otherwise equal. */
  datatype Msg = Msg(id: nat, host: string, app: string, cat: string, sec: int) {
    function Of(key: Key): string
    {
      match key
      case Host => host
      case App => app
      case Cat => cat
    }
  }

  type Index = map<string, seq<Msg>>

  /** The messages of the pool with the given key, in arrival order. */
  function Filter(pool: seq<Msg>, key: Key, v: string): seq<Msg>
  {
    if pool == [] then []
    else (if pool[0].Of(key) == v then [pool[0]] else []) + Filter(pool[1..], key, v)
  }

  /** Each list is the pool filtered by its key, and no key has an empty list. */
  ghost predicate Indexed(pool: seq<Msg>, key: Key, index: Index)
  {
    && (forall v | v in index :: index[v] == Filter(pool, key, v) != [])
    && (forall v | v !in index :: Filter(pool, key, v) == [])
  }

  /** The filtered pool determines the index. */
  lemma IndexUnique(pool: seq<Msg>, key: Key, i1: Index, i2: Index)
    requires Indexed(pool, key, i1) && Indexed(pool, key, i2)
    ensures i1 == i2
  {
    assert forall v :: v in i1 <==> Filter(pool, key, v) != [];
    assert forall v :: v in i2 <==> Filter(pool, key, v) != [];
  }

  lemma {:induction false} FilterSnoc(pool: seq<Msg>, m: Msg, key: Key, v: string)
    ensures Filter(pool + [m], key, v) == Filter(pool, key, v) + if m.Of(key) == v then [m] else []
  {
    if pool == [] {
      assert pool + [m] == [m];
    } else {
      FilterSnoc(pool[1..], m, key, v);
      assert (pool + [m])[1..] == pool[1..] + [m];
      var head := if pool[0].Of(key) == v then [pool[0]] else [];
      Associate(head, Filter(pool[1..], key, v), if m.Of(key) == v then [m] else []);
    }
  }

  lemma Associate(a: seq<Msg>, b: seq<Msg>, c: seq<Msg>)
    ensures a + (b + c) == a + b + c
  {
  }

  /** A listed message is in the pool, and conversely. */
  lemma {:induction false} FilterMember(pool: seq<Msg>, key: Key, v: string, m: Msg)
    ensures m in Filter(pool, key, v) <==> m in pool && m.Of(key) == v
  {
    if pool != [] { FilterMember(pool[1..], key, v, m); }
  }

  /** Every index keeps each pooled message exactly as often as the pool does. */
  lemma IndexCounts(pool: seq<Msg>, key: Key, index: Index, m: Msg)
    requires Indexed(pool, key, index)
    ensures m in pool ==> m.Of(key) in index && multiset(index[m.Of(key)])[m] == multiset(pool)[m]
  {
    FilterMember(pool, key, m.Of(key), m);
    FilterCounts(pool, key, m);
  }

  lemma {:induction false} FilterCounts(pool: seq<Msg>, key: Key, m: Msg)
    ensures multiset(Filter(pool, key, m.Of(key)))[m] == multiset(pool)[m]
  {
    if pool != [] {
      FilterCounts(pool[1..], key, m);
      assert pool == [pool[0]] + pool[1..];
    }
  }

  /** All but the newest message, which is not indexed yet while the pool is trimmed. */
  function Init(pool: seq<Msg>): seq<Msg>
    requires pool != []
  {
    pool[..|pool| - 1]
  }

  lemma InitTail(pool: seq<Msg>)
    requires |pool| >= 2
    ensures Init(pool[1..]) == Init(pool)[1..] && Init(pool)[0] == pool[0]
  {
  }

  // ------------------------------------------------------ the index operations

  /** update_index for one of the maps. */
  method Enter(ghost pool: seq<Msg>, key: Key, index: Index, m: Msg) returns (r: Index)
    requires Indexed(pool, key, index)
    ensures Indexed(pool + [m], key, r)
  {
    forall v ensures Filter(pool + [m], key, v) == Filter(pool, key, v) + if m.Of(key) == v then [m] else [] {
      FilterSnoc(pool, m, key, v);
    }
    var v := m.Of(key);
    if v !in index {
      r := index[v := [m]];
    } else {
      r := index[v := index[v] + [m]];
    }
  }

  /** The part of trim_msg_pool for one of the maps: the first occurrence of the
      pool's front message leaves its list, and an empty list its map. */
  method Leave(ghost pool: seq<Msg>, key: Key, index: Index, front: Msg) returns (r: Index)
    requires pool != [] && pool[0] == front && Indexed(pool, key, index)
    ensures Indexed(pool[1..], key, r)
  {
    FilterFront(pool, key);
    var v := front.Of(key);
    var list := EraseFirst(if v in index then index[v] else [], front);
    if list == [] {
      r := index - {v};
    } else {
      r := index[v := list];
    }
  }

  lemma FilterFront(pool: seq<Msg>, key: Key)
    requires pool != []
    ensures var v := pool[0].Of(key); Filter(pool, key, v) == [pool[0]] + Filter(pool[1..], key, v)
    ensures forall u | u != pool[0].Of(key) :: Filter(pool, key, u) == Filter(pool[1..], key, u)
  {
  }

  method EraseFirst(list: seq<Msg>, m: Msg) returns (r: seq<Msg>)
    ensures list != [] && list[0] == m ==> r == list[1..]
  {
    var i := FindMsg(list, m);
    r := if i < |list| then list[..i] + list[i + 1..] else list;
  }

  /** std::find: the first occurrence, or the end. */
  method FindMsg(list: seq<Msg>, m: Msg) returns (i: nat)
    ensures i <= |list| && (i < |list| ==> list[i] == m) && forall k | 0 <= k < i :: list[k] != m
  {
    i := 0;
    while i < |list| && list[i] != m
      invariant i <= |list| && forall k | 0 <= k < i :: list[k] != m
    {
      i := i + 1;
    }
  }

  // ------------------------------------------------- suppression and throttling

  datatype Suppress = Suppress(pattern: string, inUse: bool)

  datatype Gate = Gate(pattern: string, state: T.State)

  datatype Lists<X> = Lists(host: seq<X>, app: seq<X>, cat: seq<X>) {
    function Of(key: Key): seq<X>
    {
      match key
      case Host => host
      case App => app
      case Cat => cat
    }

    function Set(key: Key, xs: seq<X>): Lists<X>
    {
      match key
      case Host => this.(host := xs)
      case App => this.(app := xs)
      case Cat => this.(cat := xs)
    }
  }

  /** Regex matching: does the name match the pattern? */
  type Matcher = (string, string) -> bool

  predicate SuppressedBy(list: seq<Suppress>, name: string, matches: Matcher)
  {
    exists i | 0 <= i < |list| :: list[i].inUse && matches(list[i].pattern, name)
  }

  predicate IsSuppressed(sup: Lists<Suppress>, m: Msg, matches: Matcher)
  {
    SuppressedBy(sup.host, m.host, matches) || SuppressedBy(sup.app, m.app, matches)
    || SuppressedBy(sup.cat, m.cat, matches)
  }

  function Arrival(g: Gate, name: string, sec: int, matches: Matcher): T.Event
  {
    T.Arrive(matches(g.pattern, name), sec)
  }

  /** The throttles of a list look at the message in turn until one holds it
      back; the later ones do not see it. */
  function HoldList(list: seq<Gate>, name: string, sec: int, matches: Matcher): (r: (seq<Gate>, bool))
    ensures |r.0| == |list|
  {
    if list == [] then ([], false)
    else
      var (t, held) := T.Step(list[0].state, Arrival(list[0], name, sec, matches));
      var rest := if held then (list[1..], true) else HoldList(list[1..], name, sec, matches);
      ([list[0].(state := t)] + rest.0, rest.1)
  }

  function Hold(thr: Lists<Gate>, m: Msg, matches: Matcher): (Lists<Gate>, bool)
  {
    var (host, h1) := HoldList(thr.host, m.host, m.sec, matches);
    if h1 then (thr.(host := host), true)
    else
      var (app, h2) := HoldList(thr.app, m.app, m.sec, matches);
      if h2 then (thr.(host := host, app := app), true)
      else
        var (cat, h3) := HoldList(thr.cat, m.cat, m.sec, matches);
        (Lists(host, app, cat), h3)
  }

  /** What a throttle sees of a message, and what it says when none holds. */
  lemma {:induction false} HoldListAt(list: seq<Gate>, name: string, sec: int, matches: Matcher, i: nat)
    requires i < |list|
    ensures var r := HoldList(list, name, sec, matches);
            var step := T.Step(list[i].state, Arrival(list[i], name, sec, matches));
            && (r.0[i] == list[i] || r.0[i] == list[i].(state := step.0))
            && (!r.1 ==> r.0[i] == list[i].(state := step.0) && !step.1)
  {
    if i > 0 { HoldListAt(list[1..], name, sec, matches, i - 1); }
  }

  lemma HoldAt(thr: Lists<Gate>, m: Msg, matches: Matcher, key: Key, i: nat)
    requires i < |thr.Of(key)|
    ensures var r := Hold(thr, m, matches);
            var g := thr.Of(key)[i];
            var step := T.Step(g.state, Arrival(g, m.Of(key), m.sec, matches));
            && |r.0.Of(key)| == |thr.Of(key)|
            && (r.0.Of(key)[i] == g || r.0.Of(key)[i] == g.(state := step.0))
            && (!r.1 ==> r.0.Of(key)[i] == g.(state := step.0) && !step.1)
  {
    HoldListAt(thr.Of(key), m.Of(key), m.sec, matches, i);
  }

  /** Some suppression in use matches the message. */
  predicate Suppresses(sup: Lists<Suppress>, m: Msg, matches: Matcher)
  {
    exists key: Key, i | 0 <= i < |sup.Of(key)| ::
      sup.Of(key)[i].inUse && matches(sup.Of(key)[i].pattern, m.Of(key))
  }

  /** Throttle i of the list, asked on its own, holds the message back. */
  predicate HoldsAt(thr: Lists<Gate>, m: Msg, matches: Matcher, key: Key, i: int)
    requires 0 <= i < |thr.Of(key)|
  {
    T.Step(thr.Of(key)[i].state, Arrival(thr.Of(key)[i], m.Of(key), m.sec, matches)).1
  }

  predicate SomeHolds(thr: Lists<Gate>, m: Msg, matches: Matcher)
  {
    exists key: Key, i | 0 <= i < |thr.Of(key)| :: HoldsAt(thr, m, matches, key, i)
  }

  /** Throttles are asked by host, then application, then category. */
  predicate AskedBefore(key: Key, i: int, key': Key, i': int)
  {
    (key != key' && (key.Host? || key'.Cat?)) || (key == key' && i < i')
  }

  predicate HeldBefore(thr: Lists<Gate>, m: Msg, matches: Matcher, key: Key, i: int)
  {
    exists key': Key, j | 0 <= j < |thr.Of(key')| ::
      AskedBefore(key', j, key, i) && HoldsAt(thr, m, matches, key', j)
  }

  lemma SuppressMeaning(sup: Lists<Suppress>, m: Msg, matches: Matcher)
    ensures IsSuppressed(sup, m, matches) <==> Suppresses(sup, m, matches)
  {
    if SuppressedBy(sup.host, m.host, matches) { SuppressedSome(sup, m, matches, Host); }
    if SuppressedBy(sup.app, m.app, matches) { SuppressedSome(sup, m, matches, App); }
    if SuppressedBy(sup.cat, m.cat, matches) { SuppressedSome(sup, m, matches, Cat); }
  }

  lemma SuppressedSome(sup: Lists<Suppress>, m: Msg, matches: Matcher, key: Key)
    requires SuppressedBy(sup.Of(key), m.Of(key), matches)
    ensures Suppresses(sup, m, matches)
  {
    var i :| 0 <= i < |sup.Of(key)| && sup.Of(key)[i].inUse && matches(sup.Of(key)[i].pattern, m.Of(key));
  }

  predicate ListHolds(list: seq<Gate>, name: string, sec: int, matches: Matcher, n: int)
  {
    exists j | 0 <= j < n && j < |list| :: T.Step(list[j].state, Arrival(list[j], name, sec, matches)).1
  }

  /** A list holds the message exactly when one of its throttles does; those up to
      the first such throttle are stepped, the others are not. */
  lemma {:induction false} HoldListMeaning(list: seq<Gate>, name: string, sec: int, matches: Matcher)
    ensures var r := HoldList(list, name, sec, matches);
            && (r.1 <==> ListHolds(list, name, sec, matches, |list|))
            && forall i | 0 <= i < |list| ::
                 r.0[i] == if ListHolds(list, name, sec, matches, i) then list[i]
                           else list[i].(state := T.Step(list[i].state, Arrival(list[i], name, sec, matches)).0)
  {
    if list != [] {
      HoldListMeaning(list[1..], name, sec, matches);
      forall n | 0 <= n <= |list|
        ensures ListHolds(list, name, sec, matches, n) <==>
                n > 0 && (T.Step(list[0].state, Arrival(list[0], name, sec, matches)).1
                          || ListHolds(list[1..], name, sec, matches, n - 1))
      {
        ListHoldsTail(list, name, sec, matches, n);
      }
    }
  }

  lemma ListHoldsTail(list: seq<Gate>, name: string, sec: int, matches: Matcher, n: nat)
    requires list != []
    ensures ListHolds(list, name, sec, matches, n) <==>
            n > 0 && (T.Step(list[0].state, Arrival(list[0], name, sec, matches)).1
                      || ListHolds(list[1..], name, sec, matches, n - 1))
  {
    var rest := list[1..];
    if ListHolds(rest, name, sec, matches, n - 1) {
      var j :| 0 <= j < n - 1 && j < |rest| && T.Step(rest[j].state, Arrival(rest[j], name, sec, matches)).1;
      assert rest[j] == list[j + 1];
    }
    if j :| 1 <= j < n && j < |list| && T.Step(list[j].state, Arrival(list[j], name, sec, matches)).1 {
      assert rest[j - 1] == list[j];
    }
  }

  lemma ListOf(thr: Lists<Gate>, m: Msg, matches: Matcher, key: Key, n: int)
    ensures ListHolds(thr.Of(key), m.Of(key), m.sec, matches, n) <==>
            exists i | 0 <= i < n && i < |thr.Of(key)| :: HoldsAt(thr, m, matches, key, i)
  {
    if i :| 0 <= i < n && i < |thr.Of(key)| && HoldsAt(thr, m, matches, key, i) {
      assert T.Step(thr.Of(key)[i].state, Arrival(thr.Of(key)[i], m.Of(key), m.sec, matches)).1;
    }
    if i :| 0 <= i < n && i < |thr.Of(key)|
            && T.Step(thr.Of(key)[i].state, Arrival(thr.Of(key)[i], m.Of(key), m.sec, matches)).1 {
      assert HoldsAt(thr, m, matches, key, i);
    }
  }

  lemma ListHeld(thr: Lists<Gate>, m: Msg, matches: Matcher, key: Key)
    ensures HoldList(thr.Of(key), m.Of(key), m.sec, matches).1 <==>
            exists i | 0 <= i < |thr.Of(key)| :: HoldsAt(thr, m, matches, key, i)
  {
    HoldListMeaning(thr.Of(key), m.Of(key), m.sec, matches);
    ListOf(thr, m, matches, key, |thr.Of(key)|);
  }

  /** A message is held back exactly when some throttle holds it. */
  lemma HoldMeaning(thr: Lists<Gate>, m: Msg, matches: Matcher)
    ensures Hold(thr, m, matches).1 <==> SomeHolds(thr, m, matches)
  {
    ListHeld(thr, m, matches, Host);
    ListHeld(thr, m, matches, App);
    ListHeld(thr, m, matches, Cat);
    if SomeHolds(thr, m, matches) {
      var key: Key, i :| 0 <= i < |thr.Of(key)| && HoldsAt(thr, m, matches, key, i);
      assert HoldList(thr.Of(key), m.Of(key), m.sec, matches).1 by { ListHeld(thr, m, matches, key); }
    }
  }

  /** A throttle sees the message exactly when none asked before it holds it. */
  lemma HoldSteps(thr: Lists<Gate>, m: Msg, matches: Matcher, key: Key, i: nat)
    requires i < |thr.Of(key)|
    ensures var r := Hold(thr, m, matches).0;
            var g := thr.Of(key)[i];
            && |r.Of(key)| == |thr.Of(key)|
            && r.Of(key)[i] == if HeldBefore(thr, m, matches, key, i) then g
                               else g.(state := T.Step(g.state, Arrival(g, m.Of(key), m.sec, matches)).0)
  {
    HoldListMeaning(thr.Of(key), m.Of(key), m.sec, matches);
    ListOf(thr, m, matches, key, i);
    ListHeld(thr, m, matches, Host);
    ListHeld(thr, m, matches, App);
    BeforeMeaning(thr, m, matches, key, i);
  }

  predicate KeyHolds(thr: Lists<Gate>, m: Msg, matches: Matcher, key: Key, n: int)
  {
    exists i | 0 <= i < n && i < |thr.Of(key)| :: HoldsAt(thr, m, matches, key, i)
  }

  lemma BeforeMeaning(thr: Lists<Gate>, m: Msg, matches: Matcher, key: Key, i: nat)
    ensures HeldBefore(thr, m, matches, key, i) <==>
            || KeyHolds(thr, m, matches, key, i)
            || (!key.Host? && KeyHolds(thr, m, matches, Host, |thr.host|))
            || (key.Cat? && KeyHolds(thr, m, matches, App, |thr.app|))
  {
    if HeldBefore(thr, m, matches, key, i) {
      var key': Key, j :| 0 <= j < |thr.Of(key')| && AskedBefore(key', j, key, i) && HoldsAt(thr, m, matches, key', j);
    }
    if KeyHolds(thr, m, matches, key, i) {
      var j :| 0 <= j < i && j < |thr.Of(key)| && HoldsAt(thr, m, matches, key, j);
      assert AskedBefore(key, j, key, i);
    }
    if !key.Host? && KeyHolds(thr, m, matches, Host, |thr.host|) {
      var j :| 0 <= j < |thr.Of(Host)| && HoldsAt(thr, m, matches, Host, j);
      assert AskedBefore(Host, j, key, i);
    }
    if key.Cat? && KeyHolds(thr, m, matches, App, |thr.app|) {
      var j :| 0 <= j < |thr.Of(App)| && HoldsAt(thr, m, matches, App, j);
      assert AskedBefore(App, j, key, i);
    }
  }

  // ------------------------------------------------------------- the viewer

  datatype View = View(received: nat, suppressed: nat, throttled: nat, deleted: nat,
                       pool: seq<Msg>, sup: Lists<Suppress>, thr: Lists<Gate>)

  /** The newest `max` messages; 0 is no limit. */
  function Newest(pool: seq<Msg>, max: nat): seq<Msg>
  {
    if max == 0 || |pool| <= max then pool else pool[|pool| - max..]
  }

  /** onNewMsg. */
  function Receive(v: View, m: Msg, max: nat, matches: Matcher): View
  {
    var v1 := v.(received := v.received + 1);
    if IsSuppressed(v.sup, m, matches) then v1.(suppressed := v.suppressed + 1)
    else
      var (thr, held) := Hold(v.thr, m, matches);
      if held then v1.(throttled := v.throttled + 1, thr := thr)
      else
        var pool := Newest(v.pool + [m], max);
        v1.(deleted := v.deleted + |v.pool| + 1 - |pool|, pool := pool, thr := thr)
  }

  /** What happens to a message: a suppression in use that matches it stops it; else a
      throttle that counts and holds it does; else it joins the pool as the newest,
      and the oldest leave while there are too many. */
  lemma ReceiveMeaning(v: View, m: Msg, max: nat, matches: Matcher)
    ensures var w := Receive(v, m, max, matches);
            && w.received == v.received + 1 && w.sup == v.sup
            && w.suppressed == v.suppressed + (if Suppresses(v.sup, m, matches) then 1 else 0)
            && w.throttled == v.throttled
               + (if !Suppresses(v.sup, m, matches) && SomeHolds(v.thr, m, matches) then 1 else 0)
            && (if Suppresses(v.sup, m, matches) || SomeHolds(v.thr, m, matches)
                then w.pool == v.pool && w.deleted == v.deleted
                else w.pool != [] && w.pool[|w.pool| - 1] == m && IsNewest(w.pool, v.pool + [m], max)
                     && w.deleted == v.deleted + |v.pool| + 1 - |w.pool|)
            && (Suppresses(v.sup, m, matches) ==> w.thr == v.thr)
    ensures forall key: Key, i | 0 <= i < |v.thr.Of(key)| && HoldsAt(v.thr, m, matches, key, i) ::
              T.Counts(v.thr.Of(key)[i].state, Arrival(v.thr.Of(key)[i], m.Of(key), m.sec, matches))
  {
    SuppressMeaning(v.sup, m, matches);
    HoldMeaning(v.thr, m, matches);
  }

  /** The pool is the end of the list: all of it without a maximum, else at most that
      many and no fewer than there are. */
  predicate IsNewest(pool: seq<Msg>, all: seq<Msg>, max: nat)
  {
    && |pool| <= |all| && pool == all[|all| - |pool|..]
    && |pool| == if max > 0 && max < |all| then max else |all|
  }

  predicate Balanced(v: View)
  {
    v.received == v.suppressed + v.throttled + v.deleted + |v.pool|
  }

  predicate Bounded(v: View, max: nat)
  {
    max > 0 ==> |v.pool| <= max
  }

  lemma ReceiveKeeps(v: View, m: Msg, max: nat, matches: Matcher)
    requires Balanced(v) && Bounded(v, max)
    ensures Balanced(Receive(v, m, max, matches)) && Bounded(Receive(v, m, max, matches), max)
  {
  }

  class Viewer {
    const maxMsgs: nat
    const matches: Matcher
    var nMsgs: nat
    var nSup: nat
    var nThr: nat
    var nDeleted: nat
    var pool: seq<Msg>
    var hostMsgs: Index
    var appMsgs: Index
    var catMsgs: Index
    var sup: Lists<Suppress>
    var thr: Lists<Gate>

    function Value(): View
      reads this
    {
      View(nMsgs, nSup, nThr, nDeleted, pool, sup, thr)
    }

    ghost predicate IndexesOf(p: seq<Msg>)
      reads this`hostMsgs, this`appMsgs, this`catMsgs
    {
      Indexed(p, Host, hostMsgs) && Indexed(p, App, appMsgs) && Indexed(p, Cat, catMsgs)
    }

    ghost predicate Valid()
      reads this
    {
      IndexesOf(pool) && Balanced(Value()) && Bounded(Value(), maxMsgs)
    }

    constructor (maxMsgs: nat, matches: Matcher, sup: Lists<Suppress>, thr: Lists<Gate>)
      ensures Valid() && Value() == View(0, 0, 0, 0, [], sup, thr)
      ensures this.maxMsgs == maxMsgs && this.matches == matches
    {
      this.maxMsgs, this.matches := maxMsgs, matches;
      nMsgs, nSup, nThr, nDeleted := 0, 0, 0, 0;
      pool, hostMsgs, appMsgs, catMsgs := [], map[], map[], map[];
      this.sup, this.thr := sup, thr;
    }

    method OnNewMsg(m: Msg)
      requires Valid()
      modifies this
      ensures Valid() && Value() == Receive(old(Value()), m, maxMsgs, matches)
    {
      ReceiveKeeps(Value(), m, maxMsgs, matches);
      nMsgs := nMsgs + 1;
      var held := MsgThrottled(m);
      if !held { Admit(m); }
    }

    method Admit(m: Msg)
      requires IndexesOf(pool)
      modifies this`pool, this`hostMsgs, this`appMsgs, this`catMsgs, this`nDeleted
      ensures pool == Newest(old(pool) + [m], maxMsgs) && IndexesOf(pool)
      ensures nDeleted == old(nDeleted) + |old(pool)| + 1 - |pool|
    {
      assert Init(pool + [m]) == pool;
      pool := pool + [m];
      TrimMsgPool();
      assert pool[|pool| - 1] == m;
      UpdateIndex(m);
    }

    method MsgThrottled(m: Msg) returns (held: bool)
      modifies this`nSup, this`nThr, this`thr
      ensures nSup == old(nSup) + if IsSuppressed(sup, m, matches) then 1 else 0
      ensures nThr == old(nThr) + if !IsSuppressed(sup, m, matches) && Hold(old(thr), m, matches).1 then 1 else 0
      ensures thr == if IsSuppressed(sup, m, matches) then old(thr) else Hold(old(thr), m, matches).0
      ensures held == (IsSuppressed(sup, m, matches) || Hold(old(thr), m, matches).1)
    {
      nSup := nSup + 1;
      held := AnySuppresses(sup.host, m.host);
      if held { return; }
      held := AnySuppresses(sup.app, m.app);
      if held { return; }
      held := AnySuppresses(sup.cat, m.cat);
      if held { return; }
      nSup := nSup - 1;

      nThr := nThr + 1;
      var list: seq<Gate>;
      list, held := ReachLimits(thr.host, m.host, m.sec);
      thr := thr.(host := list);
      if held { return; }
      list, held := ReachLimits(thr.app, m.app, m.sec);
      thr := thr.(app := list);
      if held { return; }
      list, held := ReachLimits(thr.cat, m.cat, m.sec);
      thr := thr.(cat := list);
      if held { return; }
      nThr := nThr - 1;
    }

    method AnySuppresses(list: seq<Suppress>, name: string) returns (r: bool)
      ensures r == SuppressedBy(list, name, matches)
    {
      for i := 0 to |list|
        invariant forall k | 0 <= k < i :: !(list[k].inUse && matches(list[k].pattern, name))
      {
        if list[i].inUse && matches(list[i].pattern, name) { return true; }
      }
      return false;
    }

    method ReachLimits(list: seq<Gate>, name: string, sec: int) returns (r: seq<Gate>, held: bool)
      ensures (r, held) == HoldList(list, name, sec, matches)
    {
      r, held := [], false;
      assert list[0..] == list;
      for i := 0 to |list|
        invariant HeldFrom(list, i, r, name, sec)
      {
        var step := T.Step(list[i].state, Arrival(list[i], name, sec, matches));
        HeldNext(list, i, r, name, sec);
        r := r + [list[i].(state := step.0)];
        if step.1 {
          return r + list[i + 1..], true;
        }
      }
      assert list[|list|..] == [] && r + [] == r;
    }

    /** `r` is the list up to `i` after the message, which nothing there held. */
    ghost predicate HeldFrom(list: seq<Gate>, i: nat, r: seq<Gate>, name: string, sec: int)
      requires i <= |list|
    {
      && HoldList(list, name, sec, matches).0 == r + HoldList(list[i..], name, sec, matches).0
      && HoldList(list, name, sec, matches).1 == HoldList(list[i..], name, sec, matches).1
    }

    lemma HeldNext(list: seq<Gate>, i: nat, r: seq<Gate>, name: string, sec: int)
      requires i < |list| && HeldFrom(list, i, r, name, sec)
      ensures var step := T.Step(list[i].state, Arrival(list[i], name, sec, matches));
              var r' := r + [list[i].(state := step.0)];
              if step.1 then HoldList(list, name, sec, matches) == (r' + list[i + 1..], true)
              else HeldFrom(list, i + 1, r', name, sec)
    {
      var step := T.Step(list[i].state, Arrival(list[i], name, sec, matches));
      var x := list[i].(state := step.0);
      assert list[i..][0] == list[i] && list[i..][1..] == list[i + 1..];
      var rest := if step.1 then list[i + 1..] else HoldList(list[i + 1..], name, sec, matches).0;
      assert r + ([x] + rest) == r + [x] + rest;
    }

    method TrimMsgPool()
      requires pool != [] && IndexesOf(Init(pool))
      modifies this`pool, this`hostMsgs, this`appMsgs, this`catMsgs, this`nDeleted
      ensures pool == Newest(old(pool), maxMsgs) != [] && IndexesOf(Init(pool))
      ensures nDeleted == old(nDeleted) + |old(pool)| - |pool|
    {
      ghost var was, d := pool, 0;
      while maxMsgs > 0 && |pool| > maxMsgs
        invariant 0 <= d < |was| && pool == was[d..] && (d > 0 ==> 0 < maxMsgs <= |pool|)
        invariant IndexesOf(Init(pool))
        invariant nDeleted == old(nDeleted) + d
        decreases |pool|
      {
        TrimOne();
        d := d + 1;
      }
    }

    method TrimOne()
      requires |pool| >= 2 && IndexesOf(Init(pool))
      modifies this`pool, this`hostMsgs, this`appMsgs, this`catMsgs, this`nDeleted
      ensures pool == old(pool)[1..] && IndexesOf(Init(pool)) && nDeleted == old(nDeleted) + 1
    {
      InitTail(pool);
      DropFront(Init(pool), pool[0]);
      pool := pool[1..];
      nDeleted := nDeleted + 1;
    }

    method DropFront(ghost indexed: seq<Msg>, front: Msg)
      requires indexed != [] && indexed[0] == front && IndexesOf(indexed)
      modifies this`hostMsgs, this`appMsgs, this`catMsgs
      ensures IndexesOf(indexed[1..])
    {
      catMsgs := Leave(indexed, Cat, catMsgs, front);
      hostMsgs := Leave(indexed, Host, hostMsgs, front);
      appMsgs := Leave(indexed, App, appMsgs, front);
    }

    method UpdateIndex(m: Msg)
      requires pool != [] && pool[|pool| - 1] == m && IndexesOf(Init(pool))
      modifies this`hostMsgs, this`appMsgs, this`catMsgs
      ensures IndexesOf(pool)
    {
      ghost var before := Init(pool);
      assert pool == before + [m];
      catMsgs := Enter(before, Cat, catMsgs, m);
      hostMsgs := Enter(before, Host, hostMsgs, m);
      appMsgs := Enter(before, App, appMsgs, m);
    }

    method SetSuppression(key: Key, at: nat, flag: bool)
      requires Valid() && at < |sup.Of(key)|
      modifies this`sup
      ensures Valid() && Value() == Act(old(Value()), UseSuppress(key, at, flag), maxMsgs, matches)
    {
      var list := sup.Of(key);
      sup := sup.Set(key, list[at := list[at].(inUse := flag)]);
    }

    method SetThrottling(key: Key, at: nat, flag: bool)
      requires Valid() && at < |thr.Of(key)|
      modifies this`thr
      ensures Valid() && Value() == Act(old(Value()), UseThrottle(key, at, flag), maxMsgs, matches)
    {
      var list := thr.Of(key);
      thr := thr.Set(key, list[at := list[at].(state := list[at].state.(inUse := flag))]);
    }

    /** clear, after the user confirmed. */
    method Clear()
      modifies this
      ensures Valid() && Value() == View(0, 0, 0, 0, [], old(sup), old(thr))
    {
      nMsgs, nSup, nThr, nDeleted := 0, 0, 0, 0;
      pool := [];
      hostMsgs, catMsgs, appMsgs := map[], map[], map[];
    }
  }

  // -------------------------------------------------------------------- runs

  datatype Action =
    | New(msg: Msg)
    | Clear
    | UseSuppress(key: Key, at: nat, flag: bool)
    | UseThrottle(key: Key, at: nat, flag: bool)

  function Act(v: View, a: Action, max: nat, matches: Matcher): View
  {
    match a
    case New(m) => Receive(v, m, max, matches)
    case Clear => View(0, 0, 0, 0, [], v.sup, v.thr)
    case UseSuppress(key, at, flag) =>
      var list := v.sup.Of(key);
      if at < |list| then v.(sup := v.sup.Set(key, list[at := list[at].(inUse := flag)])) else v
    case UseThrottle(key, at, flag) =>
      var list := v.thr.Of(key);
      if at < |list|
      then v.(thr := v.thr.Set(key, list[at := list[at].(state := T.Step(list[at].state, T.Use(flag)).0)]))
      else v
  }

  function After(v: View, run: seq<Action>, max: nat, matches: Matcher): View
  {
    if run == [] then v else Act(After(v, run[..|run| - 1], max, matches), run[|run| - 1], max, matches)
  }

  /** The action brings a message into the pool that the given throttle looks at. */
  predicate Admits(v: View, a: Action, key: Key, i: nat, matches: Matcher)
    requires i < |v.thr.Of(key)|
  {
    && a.New? && !Suppresses(v.sup, a.msg, matches) && !SomeHolds(v.thr, a.msg, matches)
    && T.Counts(v.thr.Of(key)[i].state, Arrival(v.thr.Of(key)[i], a.msg.Of(key), a.msg.sec, matches))
  }

  lemma {:induction false} AfterSize(v: View, run: seq<Action>, max: nat, matches: Matcher, key: Key)
    ensures |After(v, run, max, matches).thr.Of(key)| == |v.thr.Of(key)|
  {
    if run != [] {
      AfterSize(v, run[..|run| - 1], max, matches, key);
      var u, a := After(v, run[..|run| - 1], max, matches), run[|run| - 1];
      ActSize(u, a, max, matches, key);
    }
  }

  lemma ActSize(v: View, a: Action, max: nat, matches: Matcher, key: Key)
    ensures |Act(v, a, max, matches).thr.Of(key)| == |v.thr.Of(key)|
  {
    if a.New? && |v.thr.Of(key)| > 0 { HoldAt(v.thr, a.msg, matches, key, 0); }
    if a.New? && |v.thr.Of(key)| == 0 { assert HoldList(v.thr.Of(key), a.msg.Of(key), a.msg.sec, matches).0 == []; }
  }

  /** How many messages of the seconds [lo, hi] that the throttle looks at enter
      the pool. */
  function Admitted(v: View, run: seq<Action>, max: nat, matches: Matcher, key: Key, i: nat, lo: int, hi: int): nat
    requires i < |v.thr.Of(key)|
  {
    if run == [] then 0
    else
      var n := |run| - 1;
      AfterSize(v, run[..n], max, matches, key);
      Admitted(v, run[..n], max, matches, key, i, lo, hi) +
      if Admits(After(v, run[..n], max, matches), run[n], key, i, matches) && lo <= run[n].msg.sec <= hi then 1 else 0
  }

  predicate MessagesInOrder(run: seq<Action>)
  {
    forall i, j | 0 <= i < j < |run| && run[i].New? && run[j].New? :: run[i].msg.sec <= run[j].msg.sec
  }

  predicate MessagesUpTo(run: seq<Action>, hi: int)
  {
    forall i | 0 <= i < |run| && run[i].New? :: run[i].msg.sec <= hi
  }

  predicate ArrivalsUpTo(es: seq<T.Event>, hi: int)
  {
    forall i | 0 <= i < |es| && es[i].Arrive? :: es[i].sec <= hi
  }

  /** What one action does to one throttle: at most one event, in order, which
      passes when the action admits a message. */
  lemma ActGate(v: View, a: Action, max: nat, matches: Matcher, key: Key, i: nat) returns (es: seq<T.Event>)
    requires i < |v.thr.Of(key)|
    ensures |Act(v, a, max, matches).thr.Of(key)| == |v.thr.Of(key)|
    ensures |es| <= 1 && forall j | 0 <= j < |es| && es[j].Arrive? :: a.New? && es[j].sec == a.msg.sec
    ensures var g := v.thr.Of(key)[i];
            var g' := Act(v, a, max, matches).thr.Of(key)[i];
            && g'.state == (if es == [] then g.state else T.Step(g.state, es[0]).0)
            && (Admits(v, a, key, i, matches) ==> es != [] && T.Counts(g.state, es[0]) && !T.Step(g.state, es[0]).1)
  {
    ActSize(v, a, max, matches, key);
    var g := v.thr.Of(key)[i];
    es := [];
    if a.New? {
      SuppressMeaning(v.sup, a.msg, matches);
      HoldMeaning(v.thr, a.msg, matches);
    }
    if a.New? && !IsSuppressed(v.sup, a.msg, matches) {
      HoldAt(v.thr, a.msg, matches, key, i);
      var e := Arrival(g, a.msg.Of(key), a.msg.sec, matches);
      var g' := Act(v, a, max, matches).thr.Of(key)[i];
      if !Hold(v.thr, a.msg, matches).1 || g' != g { es := [e]; }
    }
    if a.UseThrottle? && a.key == key && a.at == i { es := [T.Use(a.flag)]; }
  }

  /** `es` is what one throttle has seen, given what it was and what it is. */
  ghost predicate Saw(t: T.State, es: seq<T.Event>, now: T.State, admitted: nat, lo: int, hi: int, last: int)
  {
    T.InOrder(es) && ArrivalsUpTo(es, last) && now == T.Run(t, es) && admitted <= T.Passed(t, es, lo, hi)
  }

  lemma SawMore(t: T.State, es: seq<T.Event>, now: T.State, admitted: nat, lo: int, hi: int, last: int,
                more: seq<T.Event>, admits: bool, later: int)
    requires Saw(t, es, now, admitted, lo, hi, last) && last <= later
    requires |more| <= 1 && forall j | 0 <= j < |more| && more[j].Arrive? :: last <= more[j].sec <= later
    requires admits ==> more != [] && T.Counts(now, more[0]) && !T.Step(now, more[0]).1 && lo <= more[0].sec <= hi
    ensures Saw(t, es + more, if more == [] then now else T.Step(now, more[0]).0,
                admitted + if admits then 1 else 0, lo, hi, later)
  {
    if more == [] {
      assert es + more == es;
    } else {
      assert es + more == es + [more[0]];
      T.RunSnoc(t, es, more[0], lo, hi);
    }
  }

  /** The events one throttle sees during a run. */
  lemma {:induction false} GateHistory(v: View, run: seq<Action>, max: nat, matches: Matcher, key: Key, i: nat,
                                       lo: int, hi: int, last: int)
    returns (es: seq<T.Event>)
    requires i < |v.thr.Of(key)| && MessagesInOrder(run) && MessagesUpTo(run, last)
    ensures i < |After(v, run, max, matches).thr.Of(key)|
    ensures Saw(v.thr.Of(key)[i].state, es, After(v, run, max, matches).thr.Of(key)[i].state,
                Admitted(v, run, max, matches, key, i, lo, hi), lo, hi, last)
  {
    AfterSize(v, run, max, matches, key);
    es := [];
    if run != [] {
      var n := |run| - 1;
      var u, a := After(v, run[..n], max, matches), run[n];
      AfterSize(v, run[..n], max, matches, key);
      var upTo := if a.New? then a.msg.sec else last;
      es := GateHistory(v, run[..n], max, matches, key, i, lo, hi, upTo);
      var more := ActGate(u, a, max, matches, key, i);
      SawMore(v.thr.Of(key)[i].state, es, u.thr.Of(key)[i].state, Admitted(v, run[..n], max, matches, key, i, lo, hi),
              lo, hi, upTo, more, Admits(u, a, key, i, matches) && lo <= a.msg.sec <= hi, last);
      es := es + more;
    }
  }

  lemma SawBound(t: T.State, es: seq<T.Event>, now: T.State, admitted: nat, lo: int, last: int)
    requires t.limit >= 1 && t.timespan >= 1 && t.count >= 0 && Saw(t, es, now, admitted, lo, lo + t.timespan, last)
    ensures admitted <= 2 * t.limit
  {
    T.AnyWindow(t, es, lo);
  }

  /** However the filters are switched meanwhile, at most twice its limit of the
      messages a throttle looks at enter the pool in timespan + 1 seconds. */
  lemma ThrottledPool(v: View, run: seq<Action>, max: nat, matches: Matcher, key: Key, i: nat, t: T.State, lo: int,
                      last: int)
    requires i < |v.thr.Of(key)| && v.thr.Of(key)[i].state == t && t.limit >= 1 && t.timespan >= 1 && t.count >= 0
    requires MessagesInOrder(run) && MessagesUpTo(run, last)
    ensures Admitted(v, run, max, matches, key, i, lo, lo + t.timespan) <= 2 * t.limit
  {
    var es := GateHistory(v, run, max, matches, key, i, lo, lo + t.timespan, last);
    SawBound(t, es, After(v, run, max, matches).thr.Of(key)[i].state,
             Admitted(v, run, max, matches, key, i, lo, lo + t.timespan), lo, last);
  }

  /** Every run keeps the books: the counters add up and the pool is bounded. */
  lemma {:induction false} RunBalanced(v: View, run: seq<Action>, max: nat, matches: Matcher)
    requires Balanced(v) && Bounded(v, max)
    ensures Balanced(After(v, run, max, matches)) && Bounded(After(v, run, max, matches), max)
  {
    if run != [] { RunBalanced(v, run[..|run| - 1], max, matches); }
  }

  /** The switch of the suppression, after a run that found it at `was`. */
  function SuppressUsed(run: seq<Action>, key: Key, i: nat, was: bool): bool
  {
    if run == [] then was
    else
      var a := run[|run| - 1];
      if a.UseSuppress? && a.key == key && a.at == i then a.flag else SuppressUsed(run[..|run| - 1], key, i, was)
  }

  function ThrottleUsed(run: seq<Action>, key: Key, i: nat, was: bool): bool
  {
    if run == [] then was
    else
      var a := run[|run| - 1];
      if a.UseThrottle? && a.key == key && a.at == i then a.flag else ThrottleUsed(run[..|run| - 1], key, i, was)
  }

  lemma ActSuppress(v: View, a: Action, max: nat, matches: Matcher, key: Key, i: nat)
    requires i < |v.sup.Of(key)|
    ensures var x := v.sup.Of(key)[i];
            && |Act(v, a, max, matches).sup.Of(key)| == |v.sup.Of(key)|
            && Act(v, a, max, matches).sup.Of(key)[i]
               == if a.UseSuppress? && a.key == key && a.at == i then x.(inUse := a.flag) else x
  {
  }

  /** The last switch decides whether a suppression is in use; nothing else about it
      changes. */
  lemma {:induction false} RunSuppress(v: View, run: seq<Action>, max: nat, matches: Matcher, key: Key, i: nat)
    requires i < |v.sup.Of(key)|
    ensures |After(v, run, max, matches).sup.Of(key)| == |v.sup.Of(key)|
    ensures var x := v.sup.Of(key)[i];
            After(v, run, max, matches).sup.Of(key)[i] == x.(inUse := SuppressUsed(run, key, i, x.inUse))
  {
    if run != [] {
      RunSuppress(v, run[..|run| - 1], max, matches, key, i);
      ActSuppress(After(v, run[..|run| - 1], max, matches), run[|run| - 1], max, matches, key, i);
    }
  }

  /** Pattern, limits and switch of one throttle. */
  predicate Set(g: Gate, pattern: string, limit: int, timespan: int, inUse: bool)
  {
    g.pattern == pattern && g.state.limit == limit && g.state.timespan == timespan && g.state.inUse == inUse
  }

  lemma HoldKeepsSet(thr: Lists<Gate>, m: Msg, matches: Matcher, key: Key, i: nat)
    requires i < |thr.Of(key)|
    ensures var g := thr.Of(key)[i];
            && |Hold(thr, m, matches).0.Of(key)| == |thr.Of(key)|
            && Set(Hold(thr, m, matches).0.Of(key)[i], g.pattern, g.state.limit, g.state.timespan, g.state.inUse)
  {
    HoldAt(thr, m, matches, key, i);
  }

  lemma ActThrottle(v: View, a: Action, max: nat, matches: Matcher, key: Key, i: nat)
    requires i < |v.thr.Of(key)|
    ensures var g := v.thr.Of(key)[i];
            && |Act(v, a, max, matches).thr.Of(key)| == |v.thr.Of(key)|
            && Set(Act(v, a, max, matches).thr.Of(key)[i], g.pattern, g.state.limit, g.state.timespan,
                   if a.UseThrottle? && a.key == key && a.at == i then a.flag else g.state.inUse)
  {
    if a.New? { HoldKeepsSet(v.thr, a.msg, matches, key, i); }
  }

  /** The last switch decides whether a throttle is in use; its pattern and limits do
      not change. */
  lemma {:induction false} RunThrottle(v: View, run: seq<Action>, max: nat, matches: Matcher, key: Key, i: nat)
    requires i < |v.thr.Of(key)|
    ensures |After(v, run, max, matches).thr.Of(key)| == |v.thr.Of(key)|
    ensures var g := v.thr.Of(key)[i];
            Set(After(v, run, max, matches).thr.Of(key)[i], g.pattern, g.state.limit, g.state.timespan,
                ThrottleUsed(run, key, i, g.state.inUse))
  {
    if run != [] {
      RunThrottle(v, run[..|run| - 1], max, matches, key, i);
      ActThrottle(After(v, run[..|run| - 1], max, matches), run[|run| - 1], max, matches, key, i);
    }
  }

  /** The messages since the last clear. */
  function Came(run: seq<Action>): nat
  {
    if run == [] || run[|run| - 1].Clear? then 0
    else Came(run[..|run| - 1]) + if run[|run| - 1].New? then 1 else 0
  }

  /** Those of them that a suppression stopped. */
  function Stopped(v: View, run: seq<Action>, max: nat, matches: Matcher): nat
  {
    if run == [] || run[|run| - 1].Clear? then 0
    else
      var u, a := After(v, run[..|run| - 1], max, matches), run[|run| - 1];
      Stopped(v, run[..|run| - 1], max, matches) + if a.New? && Suppresses(u.sup, a.msg, matches) then 1 else 0
  }

  /** The counters say how many messages came, and how many were suppressed. */
  lemma {:induction false} RunCounters(v: View, run: seq<Action>, max: nat, matches: Matcher)
    requires v.received == v.suppressed == 0
    ensures After(v, run, max, matches).received == Came(run)
    ensures After(v, run, max, matches).suppressed == Stopped(v, run, max, matches)
  {
    if run != [] {
      RunCounters(v, run[..|run| - 1], max, matches);
      if run[|run| - 1].New? {
        ReceiveMeaning(After(v, run[..|run| - 1], max, matches), run[|run| - 1].msg, max, matches);
      }
    }
  }

  /** The messages let in since the last clear. */
  function LetIn(v: View, run: seq<Action>, max: nat, matches: Matcher): seq<Msg>
  {
    if run == [] then []
    else
      var n := |run| - 1;
      LetInNext(After(v, run[..n], max, matches), run[n], LetIn(v, run[..n], max, matches), matches)
  }

  function LetInNext(u: View, a: Action, before: seq<Msg>, matches: Matcher): seq<Msg>
  {
    match a
    case Clear => []
    case New(m) => if Suppresses(u.sup, m, matches) || SomeHolds(u.thr, m, matches) then before else before + [m]
    case _ => before
  }

  predicate PoolIs(u: View, all: seq<Msg>, max: nat)
  {
    u.pool == Newest(all, max) && IsNewest(u.pool, all, max) && u.deleted == |all| - |u.pool|
  }

  lemma PoolStep(u: View, a: Action, all: seq<Msg>, max: nat, matches: Matcher)
    requires PoolIs(u, all, max)
    ensures PoolIs(Act(u, a, max, matches), LetInNext(u, a, all, matches), max)
  {
    if a.New? {
      NewestSnoc(all, a.msg, max);
      LetInOrNot(u, a.msg, max, matches);
    }
  }

  /** The pool is the newest part of what has been let in since the last clear;
      the rest has been counted as deleted. */
  lemma {:induction false} RunPool(v: View, run: seq<Action>, max: nat, matches: Matcher)
    requires v.pool == [] && v.deleted == 0
    ensures var u, all := After(v, run, max, matches), LetIn(v, run, max, matches);
            IsNewest(u.pool, all, max) && u.deleted == |all| - |u.pool|
    ensures PoolIs(After(v, run, max, matches), LetIn(v, run, max, matches), max)
  {
    if run != [] {
      var n := |run| - 1;
      RunPool(v, run[..n], max, matches);
      PoolStep(After(v, run[..n], max, matches), run[n], LetIn(v, run[..n], max, matches), max, matches);
    }
  }

  lemma LetInOrNot(v: View, m: Msg, max: nat, matches: Matcher)
    ensures var w := Receive(v, m, max, matches);
            if Suppresses(v.sup, m, matches) || SomeHolds(v.thr, m, matches)
            then w.pool == v.pool && w.deleted == v.deleted
            else w.pool == Newest(v.pool + [m], max) && w.deleted == v.deleted + |v.pool| + 1 - |w.pool|
  {
    SuppressMeaning(v.sup, m, matches);
    HoldMeaning(v.thr, m, matches);
  }

  lemma NewestSnoc(all: seq<Msg>, m: Msg, max: nat)
    ensures Newest(Newest(all, max) + [m], max) == Newest(all + [m], max)
  {
  }
}
