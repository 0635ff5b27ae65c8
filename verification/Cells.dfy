/** One cell of a hit map: the bounded message buffer, the on/off bit and the
    time of the next timing event. A message is represented by its second. */
module Cells {
  import opened Options

  /** The rate and granularity settings of a condition. */
  datatype Config = Config(tc: int, atLeast: bool, ts: int, perSource: bool, perTarget: bool, persistent: bool) {
    predicate Ok() { tc >= 1 && ts >= 0 }
  }

  /** "At least n" triggers at n messages, "at most n" fails at n + 1. */
  function MakeConfig(occur: int, atLeast: bool, ts: int, perSource: bool, perTarget: bool, persistent: bool): Config
  {
    Config(if atLeast then occur else occur + 1, atLeast, ts, perSource, perTarget, persistent)
  }

  datatype CellState = CellState(msgs: seq<int>, on: bool, tEvent: int)

  const FRESH := CellState([], false, 0)

  /** The new state, whether the status flipped, and the stamp of the timing
      event that was queued, if any. */
  datatype HitResult = HitResult(state: CellState, flipped: bool, stamp: Option<int>)

  function DropExpired(msgs: seq<int>, latest: int, ts: int): (r: seq<int>)
    ensures |r| <= |msgs| && r == msgs[|msgs| - |r|..]
    ensures msgs != [] && msgs[|msgs| - 1] == latest && ts >= 0 ==> r != []
  {
    if msgs != [] && latest - msgs[0] > ts then DropExpired(msgs[1..], latest, ts) else msgs
  }

  function LastN(msgs: seq<int>, n: nat): seq<int>
  {
    if |msgs| > n then msgs[|msgs| - n..] else msgs
  }

  /** The buffer after a hit at `t`: expired, then excessive messages dropped. */
  function Kept(msgs: seq<int>, t: int, cfg: Config): (r: seq<int>)
    requires cfg.Ok()
    ensures r != []
  {
    LastN(DropExpired(msgs + [t], t, cfg.ts), cfg.tc)
  }

  /** The state after a hit whose kept buffer is `msgs`. */
  function Settle(msgs: seq<int>, wasOn: bool, tEvent: int, cfg: Config): HitResult
    requires msgs != []
  {
    var full := |msgs| == cfg.tc;
    var on := full && cfg.atLeast;
    if full || !cfg.atLeast then
      var stamp := msgs[0] + cfg.ts + 1;
      HitResult(CellState(msgs, on, stamp), on != wasOn, Some(stamp))
    else
      HitResult(CellState(msgs, on, tEvent), on != wasOn, None)
  }

  function HitStep(c: CellState, cfg: Config, t: int): HitResult
    requires cfg.Ok()
  {
    if c.on && cfg.persistent then
      HitResult(c.(msgs := (c.msgs + [t])[1..]), false, None)
    else
      Settle(Kept(c.msgs, t, cfg), c.on, c.tEvent, cfg)
  }

  function FireStep(c: CellState, cfg: Config, stamp: int): (CellState, bool)
  {
    var status := !cfg.atLeast || cfg.persistent;
    if stamp != c.tEvent || status == c.on then (c, false)
    else (c.(on := status), true)
  }

  // ------------------------------------------------------------ the objects

  datatype TimingEvent = TimingEvent(ts: int, cond: string, s: nat, t: nat)

  /** What a hit adds to the queue. */
  function Pushed(stamp: Option<int>, cond: string, s: nat, t: nat): multiset<TimingEvent>
  {
    if stamp.Some? then multiset{TimingEvent(stamp.value, cond, s, t)} else multiset{}
  }

  /** The priority queue of timing events; equal stamps leave in any order. */
  class TimingEvents {
    var queue: multiset<TimingEvent>

    constructor ()
      ensures queue == multiset{}
    {
      queue := multiset{};
    }

    method Push(e: TimingEvent)
      modifies this
      ensures queue == old(queue) + multiset{e}
    {
      queue := queue + multiset{e};
    }
  }

  class Cell {
    var msgs: seq<int>
    var on: bool
    var tEvent: int

    function State(): CellState
      reads this
    {
      CellState(msgs, on, tEvent)
    }

    constructor ()
      ensures State() == FRESH
    {
      msgs, on, tEvent := [], false, 0;
    }

    /** A cell copied out of its grid. */
    constructor Load(c: CellState)
      ensures State() == c
    {
      msgs, on, tEvent := c.msgs, c.on, c.tEvent;
    }

    method Reset()
      modifies this
      ensures State() == FRESH
    {
      on := false;
      tEvent := 0;
      msgs := [];
    }

    method PopExpired(latest: int, ts: int)
      requires msgs != [] && msgs[|msgs| - 1] == latest && ts >= 0
      modifies this`msgs
      ensures msgs == DropExpired(old(msgs), latest, ts)
    {
      while latest - msgs[0] > ts
        invariant msgs != [] && msgs[|msgs| - 1] == latest
        invariant DropExpired(msgs, latest, ts) == DropExpired(old(msgs), latest, ts)
        decreases |msgs|
      {
        msgs := msgs[1..];
      }
    }

    method PopExcess(n: nat)
      modifies this`msgs
      ensures msgs == LastN(old(msgs), n)
    {
      while |msgs| > n
        invariant LastN(msgs, n) == LastN(old(msgs), n)
        decreases |msgs|
      {
        msgs := msgs[1..];
      }
    }

    method Hit(time: int, cfg: Config, name: string, s: nat, t: nat, events: TimingEvents) returns (flipped: bool)
      requires cfg.Ok()
      modifies this, events
      ensures State() == HitStep(old(State()), cfg, time).state
      ensures flipped == HitStep(old(State()), cfg, time).flipped
      ensures events.queue == old(events.queue) + Pushed(HitStep(old(State()), cfg, time).stamp, name, s, t)
    {
      msgs := msgs + [time];
      if on && cfg.persistent {
        msgs := msgs[1..];
        flipped := false;
      } else {
        PopOld(time, cfg);
        flipped := Decide(cfg, name, s, t, events);
      }
    }

    method PopOld(latest: int, cfg: Config)
      requires cfg.Ok() && msgs != [] && msgs[|msgs| - 1] == latest
      modifies this`msgs
      ensures msgs == LastN(DropExpired(old(msgs), latest, cfg.ts), cfg.tc)
    {
      PopExpired(latest, cfg.ts);
      PopExcess(cfg.tc);
    }

    /** The new status, and the event for the moment the window moves on. */
    method Decide(cfg: Config, name: string, s: nat, t: nat, events: TimingEvents) returns (flipped: bool)
      requires msgs != []
      modifies this`on, this`tEvent, events
      ensures State() == Settle(msgs, old(on), old(tEvent), cfg).state
      ensures flipped == Settle(msgs, old(on), old(tEvent), cfg).flipped
      ensures events.queue == old(events.queue) + Pushed(Settle(msgs, old(on), old(tEvent), cfg).stamp, name, s, t)
    {
      var newState := false;
      if |msgs| == cfg.tc {
        newState := cfg.atLeast;
        tEvent := msgs[0] + cfg.ts + 1;
        events.Push(TimingEvent(tEvent, name, s, t));
      } else if !cfg.atLeast {
        tEvent := msgs[0] + cfg.ts + 1;
        events.Push(TimingEvent(tEvent, name, s, t));
      }

      if newState == on { return false; }
      on := newState;
      return true;
    }

    method Event(stamp: int, cfg: Config) returns (flipped: bool)
      modifies this`on
      ensures (State(), flipped) == FireStep(old(State()), cfg, stamp)
    {
      if stamp != tEvent { return false; }
      var status := if !cfg.atLeast then true else cfg.persistent;
      if status == on { return false; }
      on := status;
      return true;
    }
  }
}
