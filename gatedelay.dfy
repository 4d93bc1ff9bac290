/** The delayed output of the GateDelay firmware. A rising clock edge arms an
    on-delay; once `del` milliseconds have passed the output goes high. A falling
    edge received while the gate is open arms an off-delay; once it has passed
    the output goes low again and both stages wait for the next rising edge.
    The edges only arm the stages: the output is written solely by the periodic
    `current(t)` call, which is handed the time in milliseconds.

    As in the UncertaintyRMX model, the state is described by the value `Timer`,
    on which the operations are specified by functions, and by the class
    `DelayedOutput`, whose methods are proved to move `Snapshot()` exactly as
    those functions say. */
module GateDelay {
  import opened Arduino

  const MaxDelay: int := 5000
  /** The coarse and the fine step of the delay setters (`incDelay`, `incDelay2`). */
  const DelayStep: int := 50
  const FineDelayStep: int := 5

  datatype DelayStage = Delay | Gate | Wait

  /** The clock lines a channel listens to. */
  datatype Clock = ClockA | ClockB | ClockBoth

  // ---------------------------------------------------------------------------
  // The clock selection

  /** `IncClock`: A, then B, then BOTH, then A again. */
  function NextClock(c: Clock): (n: Clock)
    ensures n != c
  {
    match c
    case ClockA => ClockB
    case ClockB => ClockBoth
    case ClockBoth => ClockA
  }

  /** `DecClock`: the cycle of `NextClock` run backwards. */
  function PrevClock(c: Clock): (p: Clock)
    ensures NextClock(p) == c
  {
    match c
    case ClockA => ClockBoth
    case ClockB => ClockA
    case ClockBoth => ClockB
  }

  lemma PrevClockUndoesNextClock(c: Clock)
    ensures PrevClock(NextClock(c)) == c
  {
  }

  lemma ThreeIncrementsAreIdentity(c: Clock)
    ensures NextClock(NextClock(NextClock(c))) == c
  {
  }

  /** `n` successive `IncClock` calls. */
  function Cycled(c: Clock, n: nat): Clock {
    if n == 0 then c else NextClock(Cycled(c, n - 1))
  }

  /** The clock selection has period three: only the number of increments modulo
      three matters. */
  lemma {:induction false} CycledModThree(c: Clock, n: nat)
    ensures Cycled(c, n) == Cycled(c, n % 3)
  {
    if 3 <= n {
      CycledModThree(c, n - 3);
      assert Cycled(c, n - 1) == NextClock(NextClock(Cycled(c, n - 3)));
      ThreeIncrementsAreIdentity(Cycled(c, n - 3));
      assert (n - 3) % 3 == n % 3;
    }
  }

  // ---------------------------------------------------------------------------
  // The timer as a value

  /** `out` stands for the `DigitalOutput` driver and holds the level last written
      to it; times are `unsigned long` milliseconds. */
  datatype Timer = Timer(
    clock: Clock,
    onStage: DelayStage,
    offStage: DelayStage,
    trigStart: uint32,
    trigStop: uint32,
    del: int,
    current: uint32,
    out: bool)
  {
    /** The off-stage is never GATE; it only runs while the gate is open, and the
        gate is open only with the output high. */
    predicate Valid() {
      && 0 <= del <= MaxDelay
      && offStage != Gate
      && (offStage == Delay ==> onStage == Gate)
      && (onStage == Gate ==> out)
    }
  }

  /** `now - since` in `unsigned long` arithmetic: the milliseconds from `since` to
      `now`, counted across a wrap-around of the clock. */
  function Elapsed(now: uint32, since: uint32): nat {
    Sub32(now, since) as nat
  }

  /** The elapsed time is exact across the wrap-around: `k` milliseconds after
      `start` the difference is `k`, whether or not the clock wrapped meanwhile. */
  lemma ElapsedAcrossWrap(start: uint32, k: nat)
    requires k < 0x1_0000_0000
    ensures Elapsed(((start as int + k) % 0x1_0000_0000) as uint32, start) == k
  {
    if start as int + k < 0x1_0000_0000 {
      assert (start as int + k) % 0x1_0000_0000 == start as int + k;
    } else {
      assert (start as int + k) % 0x1_0000_0000 == start as int + k - 0x1_0000_0000;
    }
  }

  /** `On()`: a rising edge arms the on-delay, unless one is already pending or
      the gate is open. */
  function AfterOn(s: Timer): (r: Timer)
    requires s.Valid()
    ensures r.Valid()
    ensures r.out == s.out
    ensures s.onStage == Wait ==> r == s.(onStage := Delay, trigStart := s.current)
    ensures s.onStage != Wait ==> r == s
  {
    if s.onStage == Wait then s.(trigStart := s.current, onStage := Delay) else s
  }

  /** `Off()`: a falling edge arms the off-delay, but only while the gate is open
      and no off-delay is pending. */
  function AfterOff(s: Timer): (r: Timer)
    requires s.Valid()
    ensures r.Valid()
    ensures r.out == s.out
    ensures s.onStage == Gate && s.offStage == Wait ==> r == s.(offStage := Delay, trigStop := s.current)
    ensures !(s.onStage == Gate && s.offStage == Wait) ==> r == s
  {
    if s.onStage != Gate then s
    else if s.offStage == Wait then s.(trigStop := s.current, offStage := Delay)
    else s
  }

  /** The first switch of `current`: an on-delay that has run out opens the gate. */
  function OnStageTick(s: Timer): Timer {
    match s.onStage
    case Wait => s
    case Delay =>
      if Elapsed(s.current, s.trigStart) >= s.del then s.(onStage := Gate, trigStart := s.current, out := true)
      else s
    case Gate => s
  }

  /** The second switch of `current`: an off-delay that has run out closes the
      gate and re-arms both stages. */
  function OffStageTick(s: Timer): Timer {
    match s.offStage
    case Wait => s
    case Delay =>
      if Elapsed(s.current, s.trigStop) >= s.del then s.(offStage := Wait, onStage := Wait, out := false)
      else s
    case Gate => s
  }

  predicate OnDelayOver(s: Timer, t: uint32) {
    s.onStage == Delay && Elapsed(t, s.trigStart) >= s.del
  }

  predicate OffDelayOver(s: Timer, t: uint32) {
    s.offStage == Delay && Elapsed(t, s.trigStop) >= s.del
  }

  /** `current(t)`: the time moves to `t`, and at most one of the two delays
      completes; with neither over, only the time changes. */
  function AfterCurrent(s: Timer, t: uint32): (r: Timer)
    requires s.Valid()
    ensures r.Valid()
    ensures OnDelayOver(s, t) ==> r == s.(current := t, onStage := Gate, trigStart := t, out := true)
    ensures OffDelayOver(s, t) ==> r == s.(current := t, onStage := Wait, offStage := Wait, out := false)
    ensures !OnDelayOver(s, t) && !OffDelayOver(s, t) ==> r == s.(current := t)
  {
    OffStageTick(OnStageTick(s.(current := t)))
  }

  /** The delay setters: `del` moved by `delta` and pulled back into [0, MaxDelay]. */
  function DelayMovedBy(s: Timer, delta: int): (r: Timer)
    ensures 0 <= r.del <= MaxDelay
    ensures 0 <= s.del + delta <= MaxDelay ==> r.del == s.del + delta
    ensures s.del + delta < 0 ==> r.del == 0
    ensures MaxDelay < s.del + delta ==> r.del == MaxDelay
    ensures r == s.(del := r.del)
    ensures s.Valid() ==> r.Valid()
  {
    s.(del := Constrain(s.del + delta, 0, MaxDelay))
  }

  /** `SetDelay(d)`: the delay clamped into [0, MaxDelay]. */
  function AfterSetDelay(s: Timer, d: int16): (r: Timer)
    ensures 0 <= r.del <= MaxDelay
    ensures 0 <= d as int <= MaxDelay ==> r.del == d as int
    ensures d < 0 ==> r.del == 0
    ensures MaxDelay < d as int ==> r.del == MaxDelay
    ensures r == s.(del := r.del)
    ensures s.Valid() ==> r.Valid()
  {
    s.(del := Constrain(d as int, 0, MaxDelay))
  }

  /** A step up followed by the same step down restores the delay, when the step
      up did not hit the top of the range. */
  lemma StepUpThenDown(s: Timer, step: int)
    requires 0 <= s.del && 0 <= step && s.del + step <= MaxDelay
    ensures DelayMovedBy(DelayMovedBy(s, step), -step) == s
  {
  }

  /** The state `Init(output, delay, clock)` leaves: both stages waiting and the
      times zero (values the firmware leaves to static initialisation), the delay
      clamped. */
  function Initial(output: bool, delay: int16, k: Clock): (r: Timer)
    ensures r.Valid()
    ensures r.onStage == Wait && r.offStage == Wait && r.clock == k && r.out == output
    ensures r.del == Constrain(delay as int, 0, MaxDelay)
  {
    Timer(k, Wait, Wait, 0, 0, Constrain(delay as int, 0, MaxDelay), 0, output)
  }

  /** Zero-filled static storage would start both stages at DELAY (the first
      enumerator), outside the stage invariant. The first tick at a time `t` of at
      least `del` then runs both switches in turn: the gate opens and at once
      closes, and the timer is idle with the output low. Before that tick nothing
      but the time changes. */
  lemma ZeroFilledTimerSettles(k: Clock, d: int, output: bool, t: uint32)
    requires 0 <= d <= MaxDelay
    ensures var z := Timer(k, Delay, Delay, 0, 0, d, 0, output);
            var r := OffStageTick(OnStageTick(z.(current := t)));
            && (d <= t as int ==> r.Valid() && r.onStage == Wait && r.offStage == Wait && !r.out)
            && (t as int < d ==> r == z.(current := t))
  {
  }

  // ---------------------------------------------------------------------------
  // Properties of the timer

  /** A rising edge is not re-armed by further rising edges: while the on-delay is
      pending or the gate is open, `On()` keeps the original start time. */
  lemma RepeatedRisingEdgeKeepsStart(s: Timer)
    requires s.Valid() && s.onStage == Wait
    ensures AfterOn(AfterOn(s)) == AfterOn(s)
    ensures AfterOn(AfterOn(s)).trigStart == s.current
  {
  }

  /** Across the wrap-around of the clock, a pending on-delay armed at `trigStart`
      completes on the tick `k` milliseconds later exactly when `k` has reached the
      delay. */
  lemma GateOpensExactlyAfterDelay(s: Timer, k: nat)
    requires s.Valid() && s.onStage == Delay && k < 0x1_0000_0000
    ensures var t := ((s.trigStart as int + k) % 0x1_0000_0000) as uint32;
            (AfterCurrent(s, t).onStage == Gate <==> s.del <= k)
            && (AfterCurrent(s, t).out <==> s.del <= k || s.out)
  {
    var t := ((s.trigStart as int + k) % 0x1_0000_0000) as uint32;
    ElapsedAcrossWrap(s.trigStart, k);
    assert Elapsed(t, s.trigStart) == k;
  }

  /** Successive `current` calls at the times `ts`, in order. */
  function Ticks(s: Timer, ts: seq<uint32>): (r: Timer)
    requires s.Valid()
    ensures r.Valid()
    decreases |ts|
  {
    if ts == [] then s else Ticks(AfterCurrent(s, ts[0]), ts[1..])
  }

  /** The time after the ticks `ts`: the last of them, or `now` when there are none. */
  function LastTime(now: uint32, ts: seq<uint32>): uint32 {
    if ts == [] then now else ts[|ts| - 1]
  }

  /** An open gate with no falling edge armed stays open, high, whatever ticks
      arrive: only the time moves, to the last tick. */
  lemma {:induction false} GateHeldThroughTicks(s: Timer, ts: seq<uint32>)
    requires s.Valid() && s.onStage == Gate && s.offStage == Wait
    ensures Ticks(s, ts) == s.(current := LastTime(s.current, ts))
    decreases |ts|
  {
    if ts != [] {
      var n := AfterCurrent(s, ts[0]);
      assert n == s.(current := ts[0]);
      GateHeldThroughTicks(n, ts[1..]);
      assert LastTime(n.current, ts[1..]) == LastTime(s.current, ts);
    }
  }

  /** A whole gate. From an idle timer: a rising edge, then a tick at `t1` at
      least `del` after the edge opens the gate; the gate stays open and high
      through any further ticks `ts`; a falling edge then arms the off-delay at
      the time of the last tick, and a tick at `t3` at least `del` after that
      closes the gate and leaves both stages waiting for the next edge. */
  lemma GateCycle(s: Timer, t1: uint32, ts: seq<uint32>, t3: uint32)
    requires s.Valid() && s.onStage == Wait && s.offStage == Wait
    requires Elapsed(t1, s.current) >= s.del
    requires Elapsed(t3, LastTime(t1, ts)) >= s.del
    ensures var gateUp := AfterCurrent(AfterOn(s), t1);
            && gateUp.onStage == Gate && gateUp.out
            && var held := Ticks(gateUp, ts);
               && held.onStage == Gate && held.out && held.current == LastTime(t1, ts)
               && var closed := AfterCurrent(AfterOff(held), t3);
                  closed == s.(trigStart := t1, trigStop := LastTime(t1, ts), current := t3, out := false)
  {
    var armed := AfterOn(s);
    assert OnDelayOver(armed, t1);
    var gateUp := AfterCurrent(armed, t1);
    GateHeldThroughTicks(gateUp, ts);
    var held := Ticks(gateUp, ts);
    var releasing := AfterOff(held);
    assert OffDelayOver(releasing, t3);
  }

  // ---------------------------------------------------------------------------
  // The timer as an object

  /** `DelayedOutput`: one channel with its on- and off-stage, whose `out` field
      stands for the `DigitalOutput` driver. */
  class DelayedOutput {
    var out: bool
    var clock: Clock
    var onStage: DelayStage
    var offStage: DelayStage
    var trigStart: uint32
    var trigStop: uint32
    var del: int
    var current: uint32

    function Snapshot(): Timer
      reads this
    {
      Timer(clock, onStage, offStage, trigStart, trigStop, del, current, out)
    }

    predicate Valid()
      reads this
    {
      Snapshot().Valid()
    }

    /** `Init(output, delay, clock)`. */
    constructor Init(output: bool, delay: int16, k: Clock)
      ensures Valid() && Snapshot() == Initial(output, delay, k)
    {
      out, clock, onStage, offStage := output, ClockA, Wait, Wait;
      trigStart, trigStop, del, current := 0, 0, 0, 0;
      new;
      SetDelay(delay);
      SetClock(k);
    }

    method On()
      requires Valid()
      modifies this
      ensures Valid() && Snapshot() == AfterOn(old(Snapshot()))
    {
      if onStage == Wait {
        trigStart := current;
        onStage := Delay;
      }
    }

    method Off()
      requires Valid()
      modifies this
      ensures Valid() && Snapshot() == AfterOff(old(Snapshot()))
    {
      if onStage != Gate {
        return;
      }
      if offStage == Wait {
        trigStop := current;
        offStage := Delay;
      }
    }

    /** `current(t)`: the periodic call with the time in milliseconds. */
    method Current(t: uint32)
      requires Valid()
      modifies this
      ensures Valid() && Snapshot() == AfterCurrent(old(Snapshot()), t)
    {
      current := t;
      match onStage {
        case Wait =>
        case Delay =>
          if Sub32(current, trigStart) as int >= del {
            onStage := Gate;
            trigStart := current;
            DriveHigh();
          }
        case Gate =>
      }
      match offStage {
        case Wait =>
        case Delay =>
          if Sub32(current, trigStop) as int >= del {
            offStage := Wait;
            onStage := Wait;
            DriveLow();
          }
        case Gate =>
      }
    }

    /** The level last written to the output. */
    function State(): (v: bool)
      reads this
      ensures v == Snapshot().out
    {
      out
    }

    function GetDelay(): (d: int16)
      reads this
      requires Valid()
      ensures 0 <= d as int <= MaxDelay && d as int == Snapshot().del
    {
      del as int16
    }

    method IncDelay()
      requires Valid()
      modifies this
      ensures Valid() && Snapshot() == DelayMovedBy(old(Snapshot()), DelayStep)
    {
      del := Constrain(del + DelayStep, 0, MaxDelay);
    }

    method DecDelay()
      requires Valid()
      modifies this
      ensures Valid() && Snapshot() == DelayMovedBy(old(Snapshot()), -DelayStep)
    {
      del := Constrain(del - DelayStep, 0, MaxDelay);
    }

    method IncDelay2()
      requires Valid()
      modifies this
      ensures Valid() && Snapshot() == DelayMovedBy(old(Snapshot()), FineDelayStep)
    {
      del := Constrain(del + FineDelayStep, 0, MaxDelay);
    }

    method DecDelay2()
      requires Valid()
      modifies this
      ensures Valid() && Snapshot() == DelayMovedBy(old(Snapshot()), -FineDelayStep)
    {
      del := Constrain(del - FineDelayStep, 0, MaxDelay);
    }

    method SetDelay(d: int16)
      requires Valid()
      modifies this
      ensures Valid() && Snapshot() == AfterSetDelay(old(Snapshot()), d)
    {
      del := Constrain(d as int, 0, MaxDelay);
    }

    function GetClock(): (k: Clock)
      reads this
      ensures k == Snapshot().clock
    {
      clock
    }

    method SetClock(k: Clock)
      requires Valid()
      modifies this
      ensures Valid() && Snapshot() == old(Snapshot()).(clock := k)
    {
      clock := k;
    }

    method IncClock()
      requires Valid()
      modifies this
      ensures Valid() && Snapshot() == old(Snapshot()).(clock := NextClock(old(clock)))
    {
      match clock {
        case ClockA => clock := ClockB;
        case ClockB => clock := ClockBoth;
        case ClockBoth => clock := ClockA;
      }
    }

    method DecClock()
      requires Valid()
      modifies this
      ensures Valid() && Snapshot() == old(Snapshot()).(clock := PrevClock(old(clock)))
    {
      match clock {
        case ClockA => clock := ClockBoth;
        case ClockB => clock := ClockA;
        case ClockBoth => clock := ClockB;
      }
    }

    /** `high()` */
    method DriveHigh()
      modifies this
      ensures Snapshot() == old(Snapshot()).(out := true)
    {
      out := true;
    }

    /** `low()` */
    method DriveLow()
      modifies this
      ensures Snapshot() == old(Snapshot()).(out := false)
    {
      out := false;
    }
  }
}
