/** The hit map of a condition: append-only tables from names to indices and a
    growing grid of cells. */
module Hitmaps {
  import opened Options
  import opened Domains
  import opened Ordering
  import opened Where
  import opened WhereFacts
  import C = Cells

  const GLOBAL_S := "__S_GLOBAL__"
  const GLOBAL_T := "__T_GLOBAL__"
  const CAP_INCREMENT: nat := 20

  /** The tables, and the cells that were ever hit; all others are fresh. */
  datatype Hitmap = Hitmap(tables: Tables, cells: map<(nat, nat), C.CellState>)

  const EMPTY := Hitmap(Tables(map[], map[]), map[])

  function CellAt(hm: Hitmap, s: nat, t: nat): C.CellState
  {
    if (s, t) in hm.cells then hm.cells[(s, t)] else C.FRESH
  }

  /** The table entry a message is filed under. */
  function TableKey(perName: bool, name: string, shared: string): string
  {
    if perName then name else shared
  }

  /** Looks the name up, appending it when it is new. */
  function Register(m: map<string, nat>, perName: bool, name: string, shared: string): (map<string, nat>, nat)
  {
    if !perName then (if m == map[] then map[shared := 0] else m, 0)
    else if name in m then (m, m[name])
    else (m[name := |m|], |m|)
  }

  datatype Captured = Captured(hm: Hitmap, s: nat, t: nat, status: bool, source: bool, target: bool, stamp: Option<int>)

  function CaptureStep(hm: Hitmap, cfg: C.Config, src: string, tgt: string, time: int): Captured
    requires cfg.Ok()
  {
    var (srcIdx, s) := Register(hm.tables.src, cfg.perSource, src, GLOBAL_S);
    var (tgtIdx, t) := Register(hm.tables.tgt, cfg.perTarget, tgt, GLOBAL_T);
    var h := C.HitStep(CellAt(hm, s, t), cfg, time);
    Captured(Hitmap(Tables(srcIdx, tgtIdx), hm.cells[(s, t) := h.state]), s, t,
             h.flipped, srcIdx != hm.tables.src, tgtIdx != hm.tables.tgt, h.stamp)
  }

  /** A grid grows by a fixed amount when an index reaches its end, and never
      shrinks. */
  function Widened(cap: nat, i: nat): nat
  {
    if i >= cap then cap + CAP_INCREMENT else cap
  }

  /** A timing event for one cell. */
  function EventStep(hm: Hitmap, cfg: C.Config, s: nat, t: nat, stamp: int): (Hitmap, bool)
  {
    var (c, flipped) := C.FireStep(CellAt(hm, s, t), cfg, stamp);
    if flipped then (hm.(cells := hm.cells[(s, t) := c]), true) else (hm, false)
  }

  // -------------------------------------------------------------- invariants

  ghost predicate TableOk(m: map<string, nat>, perName: bool, shared: string)
  {
    Bijective(m) && (!perName ==> m.Keys <= {shared})
  }

  ghost predicate HitmapOk(hm: Hitmap, cfg: C.Config)
  {
    && TableOk(hm.tables.src, cfg.perSource, GLOBAL_S)
    && TableOk(hm.tables.tgt, cfg.perTarget, GLOBAL_T)
    && (forall k | k in hm.cells :: k.0 < |hm.tables.src| && k.1 < |hm.tables.tgt|)
  }

  lemma AppendBijective(m: map<string, nat>, name: string)
    requires Bijective(m) && name !in m
    ensures Bijective(m[name := |m|])
  {
    var r := m[name := |m|];
    assert |r| == |m| + 1;
    forall j: nat | j < |r| ensures j in r.Values {
      if j < |m| {
        assert j in m.Values;
        var x :| x in m && m[x] == j;
        assert r[x] == j;
      } else {
        assert r[name] == j;
      }
    }
  }

  lemma SharedBijective(shared: string)
    ensures Bijective(map[shared := 0])
  {
    var r: map<string, nat> := map[shared := 0];
    assert r[shared] == 0;
  }

  lemma RegisterTableOk(m: map<string, nat>, perName: bool, name: string, shared: string)
    requires TableOk(m, perName, shared)
    ensures TableOk(Register(m, perName, name, shared).0, perName, shared)
  {
    SharedBijective(shared);
    if perName && name !in m { AppendBijective(m, name); }
  }

  /** Registration appends at most one name, at the next index. */
  lemma RegisterAppends(m: map<string, nat>, perName: bool, name: string, shared: string)
    requires TableOk(m, perName, shared)
    ensures var r := Register(m, perName, name, shared).0;
            var key := TableKey(perName, name, shared);
            r == if key in m then m else m[key := |m|]
    ensures var (r, i) := Register(m, perName, name, shared);
            var key := TableKey(perName, name, shared);
            key in r && r[key] == i
  {
    if !perName && m != map[] {
      var x :| x in m;
      assert x == shared;
      assert m.Keys == {shared};
      assert |m| == |m.Keys| == 1;
    }
  }

  /** What registration means for one axis of the grid. */
  lemma AxisFacts(m: map<string, nat>, perName: bool, name: string, shared: string)
    requires TableOk(m, perName, shared)
    ensures var (r, i) := Register(m, perName, name, shared);
            var key := TableKey(perName, name, shared);
            && r.Keys == m.Keys + {key}
            && (forall a | a in m :: a in r && r[a] == m[a] && m[a] < |m|)
            && (forall a | a in r && a !in m :: a == key && r[a] == |m|)
            && (forall a | a in r :: r[a] == i <==> a == key)
            && i < |r| && |m| <= |r| && (r != m <==> key !in m)
  {
    RegisterAppends(m, perName, name, shared);
    var key := TableKey(perName, name, shared);
    if key !in m {
      assert key in m[key := |m|];
      assert |m[key := |m|]| == |m| + 1;
    }
  }

  lemma CaptureOk(hm: Hitmap, cfg: C.Config, src: string, tgt: string, time: int)
    requires cfg.Ok() && HitmapOk(hm, cfg)
    ensures HitmapOk(CaptureStep(hm, cfg, src, tgt, time).hm, cfg)
    ensures CaptureStep(hm, cfg, src, tgt, time).s < |CaptureStep(hm, cfg, src, tgt, time).hm.tables.src|
    ensures CaptureStep(hm, cfg, src, tgt, time).t < |CaptureStep(hm, cfg, src, tgt, time).hm.tables.tgt|
  {
    RegisterTableOk(hm.tables.src, cfg.perSource, src, GLOBAL_S);
    RegisterTableOk(hm.tables.tgt, cfg.perTarget, tgt, GLOBAL_T);
    AxisFacts(hm.tables.src, cfg.perSource, src, GLOBAL_S);
    AxisFacts(hm.tables.tgt, cfg.perTarget, tgt, GLOBAL_T);
    var r := CaptureStep(hm, cfg, src, tgt, time);
    forall k | k in r.hm.cells ensures k.0 < |r.hm.tables.src| && k.1 < |r.hm.tables.tgt| {
      assert k in hm.cells || k == (r.s, r.t);
    }
  }

  lemma CaptureBounds(hm: Hitmap, cfg: C.Config, src: string, tgt: string, time: int)
    requires cfg.Ok() && HitmapOk(hm, cfg)
    ensures var r := CaptureStep(hm, cfg, src, tgt, time);
            && r.s <= |hm.tables.src| && r.t <= |hm.tables.tgt|
            && (|r.hm.tables.src| <= |hm.tables.src| || |r.hm.tables.src| == r.s + 1)
            && (|r.hm.tables.tgt| <= |hm.tables.tgt| || |r.hm.tables.tgt| == r.t + 1)
  {
    AxisFacts(hm.tables.src, cfg.perSource, src, GLOBAL_S);
    AxisFacts(hm.tables.tgt, cfg.perTarget, tgt, GLOBAL_T);
    RegisterAppends(hm.tables.src, cfg.perSource, src, GLOBAL_S);
    RegisterAppends(hm.tables.tgt, cfg.perTarget, tgt, GLOBAL_T);
  }

  lemma CaptureCells(hm: Hitmap, cfg: C.Config, src: string, tgt: string, time: int)
    requires cfg.Ok()
    ensures var r := CaptureStep(hm, cfg, src, tgt, time);
            forall i: nat, j: nat :: CellAt(r.hm, i, j) ==
              if i == r.s && j == r.t then C.HitStep(CellAt(hm, i, j), cfg, time).state else CellAt(hm, i, j)
  {
  }

  // -------------------------------------------------- the map it implements

  /** The cell of a pair of names. */
  function Named(hm: Hitmap, src: string, tgt: string): C.CellState
  {
    if src in hm.tables.src && tgt in hm.tables.tgt
    then CellAt(hm, hm.tables.src[src], hm.tables.tgt[tgt])
    else C.FRESH
  }

  /** A capture is one hit on the cell of the message's key pair; every other
      pair of names keeps its cell, and every known name its index. */
  lemma CaptureRefinesMap(hm: Hitmap, cfg: C.Config, src: string, tgt: string, time: int, a: string, b: string)
    requires cfg.Ok() && HitmapOk(hm, cfg)
    ensures var hm' := CaptureStep(hm, cfg, src, tgt, time).hm;
            var ks := TableKey(cfg.perSource, src, GLOBAL_S);
            var kt := TableKey(cfg.perTarget, tgt, GLOBAL_T);
            && Named(hm', a, b)
               == (if a == ks && b == kt then C.HitStep(Named(hm, a, b), cfg, time).state else Named(hm, a, b))
            && (a in hm.tables.src ==> a in hm'.tables.src && hm'.tables.src[a] == hm.tables.src[a])
            && (b in hm.tables.tgt ==> b in hm'.tables.tgt && hm'.tables.tgt[b] == hm.tables.tgt[b])
            && hm'.tables.src.Keys == hm.tables.src.Keys + {ks}
            && hm'.tables.tgt.Keys == hm.tables.tgt.Keys + {kt}
  {
    AxisFacts(hm.tables.src, cfg.perSource, src, GLOBAL_S);
    AxisFacts(hm.tables.tgt, cfg.perTarget, tgt, GLOBAL_T);
    RefineCell(hm, CaptureStep(hm, cfg, src, tgt, time).hm, TableKey(cfg.perSource, src, GLOBAL_S),
               TableKey(cfg.perTarget, tgt, GLOBAL_T), a, b);
  }

  /** Overwriting one cell of a grid whose tables may just have grown. */
  lemma RefineCell(hm: Hitmap, hm': Hitmap, ks: string, kt: string, a: string, b: string)
    requires forall k | k in hm.cells :: k.0 < |hm.tables.src| && k.1 < |hm.tables.tgt|
    requires ks in hm'.tables.src && kt in hm'.tables.tgt
    requires var s, t := hm'.tables.src[ks], hm'.tables.tgt[kt];
             (s, t) in hm'.cells && hm'.cells == hm.cells[(s, t) := hm'.cells[(s, t)]]
    requires a in hm.tables.src ==> a in hm'.tables.src && hm'.tables.src[a] == hm.tables.src[a]
    requires b in hm.tables.tgt ==> b in hm'.tables.tgt && hm'.tables.tgt[b] == hm.tables.tgt[b]
    requires a in hm'.tables.src && a !in hm.tables.src ==> hm'.tables.src[a] >= |hm.tables.src|
    requires b in hm'.tables.tgt && b !in hm.tables.tgt ==> hm'.tables.tgt[b] >= |hm.tables.tgt|
    requires a in hm'.tables.src ==> (hm'.tables.src[a] == hm'.tables.src[ks] <==> a == ks)
    requires b in hm'.tables.tgt ==> (hm'.tables.tgt[b] == hm'.tables.tgt[kt] <==> b == kt)
    requires ks !in hm.tables.src ==> hm'.tables.src[ks] >= |hm.tables.src|
    requires kt !in hm.tables.tgt ==> hm'.tables.tgt[kt] >= |hm.tables.tgt|
    requires ks in hm.tables.src ==> hm'.tables.src[ks] == hm.tables.src[ks]
    requires kt in hm.tables.tgt ==> hm'.tables.tgt[kt] == hm.tables.tgt[kt]
    ensures Named(hm, ks, kt) == CellAt(hm, hm'.tables.src[ks], hm'.tables.tgt[kt])
    ensures Named(hm', a, b) == if a == ks && b == kt then CellAt(hm', hm'.tables.src[ks], hm'.tables.tgt[kt])
                                else Named(hm, a, b)
  {
  }

  // ------------------------------------------------------------ name lookups

  function FindIndex(m: map<string, nat>, name: string): int
  {
    if name in m then m[name] else NIL
  }

  /** An index that a name can be looked up for: not nil, and any or an index of the
      table, which is not empty. */
  predicate Nameable(m: map<string, nat>, p: int)
  {
    m != map[] && (p == ANY || 0 <= p < |m|)
  }

  /** get_source / get_target: the name at an index; the first name for `any`. */
  method NameAt(m: map<string, nat>, idx: int) returns (r: Result<string>)
    requires m != map[] && (idx == NIL || idx == ANY || 0 <= idx < |m|)
    requires Bijective(m)
    ensures r.Throw? <==> idx == NIL
    ensures r.Ok? <==> Nameable(m, idx)
    ensures r.Ok? ==> r.value in m
    ensures r.Ok? && idx == ANY ==> forall x | x in m && x != r.value :: CharsLess(r.value, x)
    ensures r.Ok? && idx != ANY ==> m[r.value] == idx && FindIndex(m, r.value) == idx
  {
    if idx == NIL { return Throw("get_source: nil idx"); }
    var rest := m.Keys;
    LeastExists(rest);
    if idx == ANY {
      var k :| IsLeast(k, rest);
      LeastMeaning(k, rest);
      return Ok(k);
    }
    assert idx in m.Values;
    while rest != {}
      invariant rest <= m.Keys
      invariant exists k :: k in rest && m[k] == idx
      decreases |rest|
    {
      LeastExists(rest);
      var k :| IsLeast(k, rest);
      if m[k] == idx { return Ok(k); }
      rest := rest - {k};
    }
    assert false;
    r := Throw("get_source: idx not found");
  }

  /** Indices and names are mutual inverses on a bijective table. */
  lemma FindInverse(m: map<string, nat>, name: string, i: nat)
    requires Bijective(m) && i < |m|
    ensures exists n :: n in m && FindIndex(m, n) == i && forall n' | n' in m && FindIndex(m, n') == i :: n' == n
    ensures name in m ==> 0 <= FindIndex(m, name) < |m|
    ensures FindIndex(m, name) == NIL <==> name !in m
  {
    assert i in m.Values;
    var n :| n in m && m[n] == i;
    assert FindIndex(m, n) == i;
  }

  // ------------------------------------------------------------- the object

  class HitMap {
    const cfg: C.Config
    const name: string
    const events: C.TimingEvents
    var srcIdx: map<string, nat>
    var tgtIdx: map<string, nat>
    var srcCap: nat
    var tgtCap: nat
    var grid: array2<C.CellState>
    ghost var model: Hitmap

    ghost predicate Valid()
      reads this, grid
    {
      cfg.Ok() && HitmapOk(model, cfg) && Shape()
    }

    /** The grid and the tables against the model. */
    ghost predicate Shape()
      reads this, grid
    {
      && model.tables == Tables(srcIdx, tgtIdx)
      && grid.Length0 == srcCap && grid.Length1 == tgtCap
      && 1 <= srcCap && |srcIdx| <= srcCap && 1 <= tgtCap && |tgtIdx| <= tgtCap
      && Shows(model)
    }

    ghost predicate Shows(hm: Hitmap)
      reads this`grid, grid
    {
      forall i: nat, j: nat | i < grid.Length0 && j < grid.Length1 :: grid[i, j] == CellAt(hm, i, j)
    }

    constructor (cfg: C.Config, name: string, events: C.TimingEvents)
      requires cfg.Ok()
      ensures Valid() && fresh(grid) && model == EMPTY
      ensures this.cfg == cfg && this.name == name && this.events == events
    {
      this.cfg, this.name, this.events := cfg, name, events;
      srcIdx, tgtIdx := map[], map[];
      srcCap, tgtCap := CAP_INCREMENT, CAP_INCREMENT;
      grid := new C.CellState[CAP_INCREMENT, CAP_INCREMENT]((i, j) => C.FRESH);
      model := EMPTY;
    }

    method Reset()
      requires Valid()
      modifies this, grid
      ensures Valid() && model == EMPTY && grid == old(grid)
      ensures srcCap == old(srcCap) && tgtCap == old(tgtCap)
    {
      srcIdx, tgtIdx := map[], map[];
      for s := 0 to srcCap
        invariant grid == old(grid) && grid.Length0 == srcCap && grid.Length1 == tgtCap
        invariant srcCap == old(srcCap) && tgtCap == old(tgtCap) && srcIdx == tgtIdx == map[]
        invariant forall i: nat, j: nat | i < s && j < tgtCap :: grid[i, j] == C.FRESH
      {
        for t := 0 to tgtCap
          invariant grid == old(grid) && grid.Length0 == srcCap && grid.Length1 == tgtCap
          invariant srcCap == old(srcCap) && tgtCap == old(tgtCap) && srcIdx == tgtIdx == map[]
          invariant forall i: nat, j: nat | i < s && j < tgtCap :: grid[i, j] == C.FRESH
          invariant forall j: nat | j < t :: grid[s, j] == C.FRESH
        {
          grid[s, t] := C.FRESH;
        }
      }
      model := EMPTY;
    }

    /** Finds or appends the source and target, returning the change flags. */
    method Locate(src: string, tgt: string) returns (s: nat, t: nat, source: bool, target: bool)
      modifies this`srcIdx, this`tgtIdx
      ensures (srcIdx, s) == Register(old(srcIdx), cfg.perSource, src, GLOBAL_S)
      ensures (tgtIdx, t) == Register(old(tgtIdx), cfg.perTarget, tgt, GLOBAL_T)
      ensures (source <==> srcIdx != old(srcIdx)) && (target <==> tgtIdx != old(tgtIdx))
    {
      source, target := false, false;
      if !cfg.perSource {
        if srcIdx == map[] {
          srcIdx := map[GLOBAL_S := 0];
          source := true;
          assert GLOBAL_S in srcIdx;
        }
        s := 0;
      } else if src !in srcIdx {
        s := |srcIdx|;
        srcIdx := srcIdx[src := s];
        source := true;
        assert src in srcIdx;
      } else {
        s := srcIdx[src];
      }
      if !cfg.perTarget {
        if tgtIdx == map[] {
          tgtIdx := map[GLOBAL_T := 0];
          target := true;
          assert GLOBAL_T in tgtIdx;
        }
        t := 0;
      } else if tgt !in tgtIdx {
        t := |tgtIdx|;
        tgtIdx := tgtIdx[tgt := t];
        target := true;
        assert tgt in tgtIdx;
      } else {
        t := tgtIdx[tgt];
      }
    }

    /** Grows the grid when an index has run into its capacity; old cells keep
        their place and state. */
    method Grow(s: nat, t: nat)
      requires grid.Length0 == srcCap && grid.Length1 == tgtCap && s <= srcCap && t <= tgtCap
      modifies this`srcCap, this`tgtCap, this`grid
      ensures s < srcCap == Widened(old(srcCap), s) && t < tgtCap == Widened(old(tgtCap), t)
      ensures grid.Length0 == srcCap && grid.Length1 == tgtCap && (grid == old(grid) || fresh(grid))
      ensures forall i: nat, j: nat | i < srcCap && j < tgtCap ::
                grid[i, j] == if i < old(srcCap) && j < old(tgtCap) then old(grid[i, j]) else C.FRESH
    {
      var was, w, h := grid, srcCap, tgtCap;
      if s >= srcCap { srcCap := srcCap + CAP_INCREMENT; }
      if t >= tgtCap { tgtCap := tgtCap + CAP_INCREMENT; }
      if srcCap != w || tgtCap != h {
        grid := new C.CellState[srcCap, tgtCap]((i, j) reads was =>
          if 0 <= i < w && 0 <= j < h && w == was.Length0 && h == was.Length1 then was[i, j] else C.FRESH);
      }
    }

    method Capture(src: string, tgt: string, time: int)
      returns (status: bool, source: bool, target: bool, ghost r: Captured)
      requires Valid()
      modifies this, grid, events
      ensures Valid() && (grid == old(grid) || fresh(grid))
      ensures r == CaptureStep(old(model), cfg, src, tgt, time)
      ensures model == r.hm && status == r.status && source == r.source && target == r.target
      ensures events.queue == old(events.queue) + C.Pushed(r.stamp, name, r.s, r.t)
      ensures srcCap == Widened(old(srcCap), r.s) && tgtCap == Widened(old(tgtCap), r.t)
    {
      r := CaptureStep(model, cfg, src, tgt, time);
      CaptureOk(model, cfg, src, tgt, time);
      CaptureBounds(model, cfg, src, tgt, time);
      status, source, target := CaptureInGrid(src, tgt, time, r);
    }

    method CaptureInGrid(src: string, tgt: string, time: int, ghost r: Captured)
      returns (status: bool, source: bool, target: bool)
      requires cfg.Ok() && Shape() && r == CaptureStep(model, cfg, src, tgt, time)
      requires forall k | k in model.cells :: k.0 < |srcIdx| && k.1 < |tgtIdx|
      requires r.s <= |srcIdx| && r.t <= |tgtIdx|
      requires |r.hm.tables.src| <= |srcIdx| || |r.hm.tables.src| == r.s + 1
      requires |r.hm.tables.tgt| <= |tgtIdx| || |r.hm.tables.tgt| == r.t + 1
      modifies this, grid, events
      ensures Shape() && (grid == old(grid) || fresh(grid))
      ensures model == r.hm && status == r.status && source == r.source && target == r.target
      ensures events.queue == old(events.queue) + C.Pushed(r.stamp, name, r.s, r.t)
      ensures srcCap == Widened(old(srcCap), r.s) && tgtCap == Widened(old(tgtCap), r.t)
    {
      var s, t: nat;
      s, t, source, target := Locate(src, tgt);
      GrowAndKeep(s, t);
      status := KnockAndKeep(s, t, src, tgt, time, r);
      model := r.hm;
    }

    /** The hit, after which the grid shows the model one capture later. */
    method KnockAndKeep(s: nat, t: nat, ghost src: string, ghost tgt: string, time: int, ghost r: Captured)
      returns (status: bool)
      requires cfg.Ok() && s < grid.Length0 && t < grid.Length1 && Shows(model)
      requires r == CaptureStep(model, cfg, src, tgt, time) && r.s == s && r.t == t
      modifies grid, events
      ensures status == r.status && Shows(r.hm)
      ensures events.queue == old(events.queue) + C.Pushed(r.stamp, name, s, t)
    {
      assert grid[s, t] == CellAt(model, s, t);
      CaptureCells(model, cfg, src, tgt, time);
      status := Knock(s, t, time);
    }

    /** A timing event; its stamp is a message time plus timespan + 1, hence
        positive, so it can only flip a cell that was hit. */
    method Event(s: nat, t: nat, stamp: int) returns (flipped: bool)
      requires Valid() && s < srcCap && t < tgtCap && stamp >= 1
      modifies this`model, grid
      ensures Valid() && grid == old(grid)
      ensures (model, flipped) == EventStep(old(model), cfg, s, t, stamp)
    {
      assert grid[s, t] == CellAt(model, s, t);
      var cell := new C.Cell.Load(grid[s, t]);
      flipped := cell.Event(stamp, cfg);
      grid[s, t] := cell.State();
      model := EventStep(model, cfg, s, t, stamp).0;
    }

    method GrowAndKeep(s: nat, t: nat)
      requires grid.Length0 == srcCap && grid.Length1 == tgtCap && s <= srcCap && t <= tgtCap && Shows(model)
      requires forall k | k in model.cells :: k.0 < srcCap && k.1 < tgtCap
      modifies this`srcCap, this`tgtCap, this`grid
      ensures s < srcCap == Widened(old(srcCap), s) && t < tgtCap == Widened(old(tgtCap), t)
      ensures grid.Length0 == srcCap && grid.Length1 == tgtCap && (grid == old(grid) || fresh(grid)) && Shows(model)
    {
      Grow(s, t);
      forall i: nat, j: nat | i < srcCap && j < tgtCap ensures grid[i, j] == CellAt(model, i, j) {
        if !(i < old(srcCap) && j < old(tgtCap)) { assert (i, j) !in model.cells; }
      }
    }

    /** The hit itself, on one cell of the grid. */
    method Knock(s: nat, t: nat, time: int) returns (status: bool)
      requires cfg.Ok() && s < grid.Length0 && t < grid.Length1
      modifies grid, events
      ensures status == C.HitStep(old(grid[s, t]), cfg, time).flipped
      ensures grid[s, t] == C.HitStep(old(grid[s, t]), cfg, time).state
      ensures forall i: nat, j: nat | i < grid.Length0 && j < grid.Length1 && (i != s || j != t) ::
                grid[i, j] == old(grid[i, j])
      ensures events.queue == old(events.queue) + C.Pushed(C.HitStep(old(grid[s, t]), cfg, time).stamp, name, s, t)
    {
      var cell := new C.Cell.Load(grid[s, t]);
      status := cell.Hit(time, cfg, name, s, t, events);
      grid[s, t] := cell.State();
    }
  }
}
