/** The probabilistic / clock-divider / chain output of the UncertaintyRMX firmware.
    Each channel reacts to the rising (`On`) and falling (`Off`) edges of the
    clock lines A and B according to one of twelve modes, and hands its
    resulting level on to the next channel of the chain.

    The channel's state is described twice: as the value `Channel`, on which the
    edge handlers and setters are specified by the functions `AfterOn`,
    `AfterOff`, `AfterSetProb`, ... and their properties are proved, and as the
    class `ProbablisticOutput`, whose fields the methods update in place and
    whose every method is proved to move `Snapshot()` exactly as the matching
    function says. */
module Uncertainty {
  import opened Arduino

  datatype Option<T> = None | Some(value: T)

  /** The clock lines a channel listens to. */
  datatype Clock = A | B | Both

  /** The twelve behaviours, in the order of their numeric codes 0..11. */
  datatype Mode =
    | Trigger            // coin toss sets high on rising, low on falling
    | Flip               // coin toss toggles on rising
    | ClockDiv           // every n-th rising edge sets high, falling sets low
    | ClockDivFlip       // every n-th rising edge toggles
    | PrevCopy           // copy the previous channel's level
    | PrevBernoulli      // invert the previous level on rising, low on falling
    | PrevBernoulliFlip  // invert the previous level on both edges
    | PrevFollow         // coin toss, only when the previous level is high
    | PrevFollowFlip     // coin toss toggle, only when the previous level is high
    | PrevClockDiv       // division, counting only when the previous level is high
    | PrevClockDivFlip   // division toggle, counting only when the previous level is high
    | Off                // drive low and pass the previous level through

  /** The clock divisions selectable by the division index 0..MaxDiv. */
  const Divisions: seq<nat> := [1, 2, 3, 4, 5, 6, 7, 8, 9, 10, 11, 12, 13, 16, 24, 32, 48, 64, 96]
  const MaxDiv: nat := 18
  /** Coin-toss draws are taken from [0, MaxRandRange); it is also the top probability. */
  const MaxRandRange: nat := 100

  function Divisor(div: nat): (d: nat)
    requires div <= MaxDiv
    ensures 1 <= d <= Divisions[MaxDiv]
  {
    Divisions[div]
  }

  lemma DivisionsIncrease(i: nat, j: nat)
    requires i < j <= MaxDiv
    ensures Divisor(i) < Divisor(j)
  {
  }

  // ---------------------------------------------------------------------------
  // Numeric codes of the configuration (GetMode / SetMode, GetClock / SetClock)

  function ModeCode(m: Mode): (k: byte)
    ensures k < 12
  {
    match m
    case Trigger => 0
    case Flip => 1
    case ClockDiv => 2
    case ClockDivFlip => 3
    case PrevCopy => 4
    case PrevBernoulli => 5
    case PrevBernoulliFlip => 6
    case PrevFollow => 7
    case PrevFollowFlip => 8
    case PrevClockDiv => 9
    case PrevClockDivFlip => 10
    case Off => 11
  }

  /** The switch of `SetMode`: codes 0..11 name a mode, every other byte names none. */
  function DecodeMode(b: byte): (r: Option<Mode>)
    ensures r.Some? <==> b < 12
    ensures r.Some? ==> ModeCode(r.value) == b
  {
    match b
    case 0 => Some(Trigger)
    case 1 => Some(Flip)
    case 2 => Some(ClockDiv)
    case 3 => Some(ClockDivFlip)
    case 4 => Some(PrevCopy)
    case 5 => Some(PrevBernoulli)
    case 6 => Some(PrevBernoulliFlip)
    case 7 => Some(PrevFollow)
    case 8 => Some(PrevFollowFlip)
    case 9 => Some(PrevClockDiv)
    case 10 => Some(PrevClockDivFlip)
    case 11 => Some(Off)
    case _ => None
  }

  lemma ModeCodeRoundTrip(m: Mode)
    ensures DecodeMode(ModeCode(m)) == Some(m)
  {
  }

  function ClockCode(c: Clock): (k: byte)
    ensures k < 3
  {
    match c
    case A => 0
    case B => 1
    case Both => 2
  }

  /** The switch of `SetClock`: codes 0..2 name a clock, every other byte names none. */
  function DecodeClock(b: byte): (r: Option<Clock>)
    ensures r.Some? <==> b < 3
    ensures r.Some? ==> ClockCode(r.value) == b
  {
    match b
    case 0 => Some(A)
    case 1 => Some(B)
    case 2 => Some(Both)
    case _ => None
  }

  lemma ClockCodeRoundTrip(c: Clock)
    ensures DecodeClock(ClockCode(c)) == Some(c)
  {
  }

  // ---------------------------------------------------------------------------
  // Mode families

  predicate IsDivisionMode(m: Mode) {
    m == ClockDiv || m == ClockDivFlip || m == PrevClockDiv || m == PrevClockDivFlip
  }

  /** The modes that toggle where their siblings set high, and ignore falling edges. */
  predicate IsFlipMode(m: Mode) {
    m == Flip || m == ClockDivFlip || m == PrevFollowFlip || m == PrevClockDivFlip
  }

  /** The modes that do nothing at all on a rising edge whose previous level is low. */
  predicate IsPrevGated(m: Mode) {
    m == PrevFollow || m == PrevFollowFlip || m == PrevClockDiv || m == PrevClockDivFlip
  }

  /** A rising edge in mode `m` with previous level `prev` tosses a coin. */
  predicate Tosses(m: Mode, prev: bool) {
    m == Trigger || m == Flip || (prev && (m == PrevFollow || m == PrevFollowFlip))
  }

  /** A rising edge in mode `m` with previous level `prev` advances the division counter. */
  predicate Divides(m: Mode, prev: bool) {
    m == ClockDiv || m == ClockDivFlip || (prev && (m == PrevClockDiv || m == PrevClockDivFlip))
  }

  // ---------------------------------------------------------------------------
  // The channel as a value

  /** `prevClock` is the source of the last high/low/flip write. The firmware keeps
      it in a `bool`, so a write from A stores false and one from B or BOTH stores
      true; here those two values are A and B. */
  datatype Channel = Channel(
    prob: nat,
    div: nat,
    count: nat,
    mode: Mode,
    clock: Clock,
    prevClock: Clock,
    out: bool)
  {
    predicate Valid() {
      && prob <= MaxRandRange
      && div <= MaxDiv
      && count < Divisions[MaxDiv]
      && prevClock != Both
    }
  }

  /** The result of an edge handler: the new channel and the level it returns. */
  datatype Step = Step(ch: Channel, ret: bool)

  /** The source recorded by a write from `c` (the conversion of a Clock to `bool`). */
  function Writer(c: Clock): (w: Clock)
    ensures w != Both
    ensures c != Both ==> w == c
    ensures c == Both ==> w == B
  {
    match c
    case A => A
    case B => B
    case Both => B
  }

  /** `high`, `low` and `flip`: drive the output to `v` and record `c` as its writer. */
  function Write(s: Channel, c: Clock, v: bool): Channel {
    s.(out := v, prevClock := Writer(c))
  }

  /** The clock filter: an edge from `c` concerns a channel listening to `c` or to both. */
  predicate Admitted(s: Channel, c: Clock) {
    s.clock == Both || s.clock == c
  }

  /** A falling edge is acted on when admitted and, for a channel listening to both
      lines, only when it comes from the line that made the last write. */
  predicate Honoured(s: Channel, c: Clock) {
    Admitted(s, c) && !(s.clock == Both && s.prevClock != c)
  }

  /** What a fired coin toss or an expired division does: set high, or toggle in
      the flip modes. */
  function Fire(s: Channel, c: Clock): Channel {
    if IsFlipMode(s.mode) then Write(s, c, !s.out) else Write(s, c, true)
  }

  /** The coin toss: a draw from [0, MaxRandRange) fires unless it exceeds `prob`. */
  predicate CoinFires(s: Channel, draw: nat) {
    !(draw > s.prob)
  }

  /** One step of the division counter. */
  function Advanced(s: Channel): Channel
    requires s.Valid()
  {
    s.(count := (s.count + 1) % Divisor(s.div))
  }

  /** The configuration a channel's edge handlers never touch. */
  predicate SameConfig(s: Channel, t: Channel) {
    s.prob == t.prob && s.div == t.div && s.mode == t.mode && s.clock == t.clock
  }

  /** `On(c, prev)`, the rising-edge handler, with the coin toss's draw injected. */
  function AfterOn(s: Channel, c: Clock, prev: bool, draw: nat): (r: Step)
    requires s.Valid()
    requires draw < MaxRandRange
    ensures r.ch.Valid() && SameConfig(r.ch, s)
    // OFF bypasses the filter, drives low and forwards the chain value
    ensures s.mode.Off? ==> r == Step(Write(s, c, false), prev)
    // every other mode returns its own resulting level
    ensures !s.mode.Off? ==> r.ret == r.ch.out
    // an edge from a line the channel does not listen to changes nothing
    ensures !s.mode.Off? && !Admitted(s, c) ==> r.ch == s
    // only an admitted division step moves the counter, always below the divisor
    ensures r.ch.count != s.count ==> !s.mode.Off? && Admitted(s, c) && Divides(s.mode, prev)
    ensures Admitted(s, c) && Divides(s.mode, prev) ==>
              r.ch.count == (s.count + 1) % Divisor(s.div) && r.ch.count < Divisor(s.div)
    // ... and fires exactly when the counter comes round to 0
    ensures Admitted(s, c) && Divides(s.mode, prev) ==>
              r.ch == (if r.ch.count == 0 then Fire(Advanced(s), c) else Advanced(s))
    // a coin toss fires when the draw does not exceed the probability
    ensures Admitted(s, c) && Tosses(s.mode, prev) ==>
              r.ch == (if draw <= s.prob then Fire(s, c) else s)
    // the previous-gated modes ignore a low previous level, counter included
    ensures Admitted(s, c) && IsPrevGated(s.mode) && !prev ==> r.ch == s
    // copying and inverting the previous level
    ensures Admitted(s, c) && s.mode == PrevCopy ==> r.ch == Write(s, c, prev)
    ensures Admitted(s, c) && (s.mode == PrevBernoulli || s.mode == PrevBernoulliFlip) ==>
              r.ch == Write(s, c, !prev)
  {
    if s.mode.Off? then Step(Write(s, c, false), prev)
    else if !Admitted(s, c) then Step(s, s.out)
    else
      var t := ModeRise(s, c, prev, draw);
      Step(t, t.out)
  }

  /** The mode switch of `On`, reached by an admitted edge in a mode other than OFF. */
  function ModeRise(s: Channel, c: Clock, prev: bool, draw: nat): Channel
    requires s.Valid()
  {
    match s.mode
    case Trigger => if !CoinFires(s, draw) then s else Write(s, c, true)
    case Flip => if !CoinFires(s, draw) then s else Write(s, c, !s.out)
    case ClockDiv =>
      var n := Advanced(s);
      if n.count == 0 then Write(n, c, true) else n
    case ClockDivFlip =>
      var n := Advanced(s);
      if n.count == 0 then Write(n, c, !n.out) else n
    case PrevCopy => if prev then Write(s, c, true) else Write(s, c, false)
    case PrevBernoulli => if prev then Write(s, c, false) else Write(s, c, true)
    case PrevBernoulliFlip => if prev then Write(s, c, false) else Write(s, c, true)
    case PrevFollow =>
      if !prev then s
      else if !CoinFires(s, draw) then s else Write(s, c, true)
    case PrevFollowFlip =>
      if !prev then s
      else if !CoinFires(s, draw) then s else Write(s, c, !s.out)
    case PrevClockDiv =>
      if !prev then s
      else
        var n := Advanced(s);
        if n.count == 0 then Write(n, c, true) else n
    case PrevClockDivFlip =>
      if !prev then s
      else
        var n := Advanced(s);
        if n.count == 0 then Write(n, c, !n.out) else n
    case Off => s
  }

  /** `Off(c, prev)`, the falling-edge handler. */
  function AfterOff(s: Channel, c: Clock, prev: bool): (r: Step)
    requires s.Valid()
    ensures r.ch.Valid() && SameConfig(r.ch, s)
    // a falling edge never touches the division counter
    ensures r.ch.count == s.count
    // OFF bypasses the filter, drives low and forwards the chain value
    ensures s.mode.Off? ==> r == Step(Write(s, c, false), prev)
    ensures !s.mode.Off? ==> r.ret == r.ch.out
    // filtered edges, and on BOTH the edges of the line that did not write last, change nothing
    ensures !s.mode.Off? && !Honoured(s, c) ==> r.ch == s
    ensures Honoured(s, c) &&
              (s.mode == Trigger || s.mode == ClockDiv || s.mode == PrevFollow ||
               s.mode == PrevClockDiv || s.mode == PrevBernoulli) ==>
              r.ch == Write(s, c, false)
    ensures Honoured(s, c) && IsFlipMode(s.mode) ==> r.ch == s
    ensures Honoured(s, c) && s.mode == PrevCopy ==> r.ch == Write(s, c, prev)
    ensures Honoured(s, c) && s.mode == PrevBernoulliFlip ==> r.ch == Write(s, c, !prev)
  {
    if s.mode.Off? then Step(Write(s, c, false), prev)
    else if !Admitted(s, c) then Step(s, s.out)
    else if s.clock == Both && s.prevClock != c then Step(s, s.out)
    else
      var t := match s.mode
        case Trigger => Write(s, c, false)
        case ClockDiv => Write(s, c, false)
        case PrevFollow => Write(s, c, false)
        case PrevClockDiv => Write(s, c, false)
        case PrevBernoulli => Write(s, c, false)
        case Flip => s
        case ClockDivFlip => s
        case PrevFollowFlip => s
        case PrevClockDivFlip => s
        case PrevCopy => if prev then Write(s, c, true) else Write(s, c, false)
        case PrevBernoulliFlip => if prev then Write(s, c, false) else Write(s, c, true)
        case Off => s;
      Step(t, t.out)
  }

  // ---------------------------------------------------------------------------
  // Configuration

  /** `SetProb`: the probability clamped into [0, MaxRandRange]. */
  function AfterSetProb(s: Channel, p: byte): (r: Channel)
    ensures r == s.(prob := r.prob)
    ensures r.prob <= MaxRandRange
    ensures p as int <= MaxRandRange ==> r.prob == p as int
    ensures p as int > MaxRandRange ==> r.prob == MaxRandRange
  {
    s.(prob := Constrain(p as int, 0, MaxRandRange))
  }

  /** `IncProb`: the division index in the division modes, the probability otherwise,
      one step up and never past its bound. */
  function AfterIncProb(s: Channel): (r: Channel)
    requires s.Valid()
    ensures r.Valid()
    ensures IsDivisionMode(s.mode) ==>
              r == s.(div := r.div) && r.div == (if s.div < MaxDiv then s.div + 1 else MaxDiv)
    ensures !IsDivisionMode(s.mode) ==>
              r == s.(prob := r.prob) &&
              r.prob == (if s.prob < MaxRandRange then s.prob + 1 else MaxRandRange)
  {
    if IsDivisionMode(s.mode) then s.(div := Constrain(s.div + 1, 0, MaxDiv))
    else s.(prob := Constrain(s.prob + 1, 0, MaxRandRange))
  }

  /** `DecProb`: the division index in the division modes, the probability otherwise,
      one step down and never below 0. */
  function AfterDecProb(s: Channel): (r: Channel)
    requires s.Valid()
    ensures r.Valid()
    ensures IsDivisionMode(s.mode) ==>
              r == s.(div := r.div) && r.div == (if 0 < s.div then s.div - 1 else 0)
    ensures !IsDivisionMode(s.mode) ==>
              r == s.(prob := r.prob) && r.prob == (if 0 < s.prob then s.prob - 1 else 0)
  {
    if IsDivisionMode(s.mode) then s.(div := Constrain(s.div - 1, 0, MaxDiv))
    else s.(prob := Constrain(s.prob - 1, 0, MaxRandRange))
  }

  /** `SetMode`: a code 0..11 selects the mode with that code; other codes are ignored. */
  function AfterSetMode(s: Channel, m: byte): (r: Channel)
    ensures m < 12 ==> r == s.(mode := r.mode) && ModeCode(r.mode) == m
    ensures 12 <= m ==> r == s
  {
    match DecodeMode(m)
    case Some(md) => s.(mode := md)
    case None => s
  }

  /** `SetClock`: a code 0..2 selects the clock with that code; other codes are ignored. */
  function AfterSetClock(s: Channel, k: byte): (r: Channel)
    ensures k < 3 ==> r == s.(clock := r.clock) && ClockCode(r.clock) == k
    ensures 3 <= k ==> r == s
  {
    match DecodeClock(k)
    case Some(ck) => s.(clock := ck)
    case None => s
  }

  /** `Init(output, probability, mode, clock, div)` on a statically allocated channel,
      whose fields start out zero: mode TRIGGER, clock A, writer A, counter 0. */
  function Initial(output: bool, probability: byte, m: byte, k: byte, d: byte): (r: Channel)
    requires d as int <= MaxDiv
    ensures r.Valid()
    ensures r.count == 0 && r.div == d as int && r.out == output && r.prevClock == A
    ensures r.prob == (if probability as int <= MaxRandRange then probability as int else MaxRandRange)
    ensures r.mode == (if m < 12 then DecodeMode(m).value else Trigger)
    ensures r.clock == (if k < 3 then DecodeClock(k).value else A)
  {
    var zero := Channel(0, 0, 0, Trigger, A, A, output);
    AfterSetClock(AfterSetMode(AfterSetProb(zero, probability), m), k).(count := 0, div := d as nat)
  }

  // ---------------------------------------------------------------------------
  // Properties of the handlers

  /** With probability 100 every coin toss fires, whatever the draw. */
  lemma CertainCoinAlwaysFires(s: Channel, c: Clock, prev: bool, draw: nat)
    requires s.Valid() && draw < MaxRandRange
    requires s.prob == MaxRandRange && Admitted(s, c) && Tosses(s.mode, prev)
    ensures AfterOn(s, c, prev, draw).ch == Fire(s, c)
  {
  }

  /** With probability 0 a coin toss fires only on the draw 0. */
  lemma ZeroProbabilityFiresOnlyOnZero(s: Channel, c: Clock, prev: bool, draw: nat)
    requires s.Valid() && draw < MaxRandRange
    requires s.prob == 0 && Admitted(s, c) && Tosses(s.mode, prev)
    ensures AfterOn(s, c, prev, draw).ch == (if draw == 0 then Fire(s, c) else s)
  {
  }

  /** With division index 0 (divisor 1) every admitted division step fires. */
  lemma DivisionByOneAlwaysFires(s: Channel, c: Clock, prev: bool, draw: nat)
    requires s.Valid() && draw < MaxRandRange
    requires s.div == 0 && Admitted(s, c) && Divides(s.mode, prev)
    ensures AfterOn(s, c, prev, draw).ch == Fire(s.(count := 0), c)
  {
  }

  /** On BOTH, once line `c` has written, a falling edge of the other line is
      ignored and the falling edge of `c` is honoured. */
  lemma BothTieBreak(s: Channel, c: Clock, other: Clock, prev: bool)
    requires s.Valid() && s.clock == Both && !s.mode.Off?
    requires c != Both && other != Both && other != c && s.prevClock == c
    ensures AfterOff(s, other, prev) == Step(s, s.out)
    ensures Honoured(s, c)
  {
  }

  /** The channel after `n` admitted rising edges that each advance the counter. */
  function DivideMany(s: Channel, c: Clock, n: nat): (r: Channel)
    requires s.Valid() && Admitted(s, c) && Divides(s.mode, true)
    ensures r.Valid() && SameConfig(r, s)
    ensures s.count < Divisor(s.div) ==> r.count == (s.count + n) % Divisor(s.div)
    decreases n
  {
    if n == 0 then s
    else
      var t := DivideMany(s, c, n - 1);
      assert s.count < Divisor(s.div) ==> (t.count + 1) % Divisor(s.div) == (s.count + n) % Divisor(s.div) by {
        if s.count < Divisor(s.div) {
          ModSucc(s.count + n - 1, Divisor(s.div));
        }
      }
      AfterOn(t, c, true, 0).ch
  }

  /** The number of those `n` edges at which the counter came round to 0. */
  function Wraps(s: Channel, c: Clock, n: nat): nat
    requires s.Valid() && Admitted(s, c) && Divides(s.mode, true)
    decreases n
  {
    if n == 0 then 0
    else Wraps(s, c, n - 1) + (if DivideMany(s, c, n).count == 0 then 1 else 0)
  }

  /** From `Reset()`, the `n`-th admitted division edge fires exactly when `d`
      divides `n`, so `n` edges fire `n / d` times. */
  lemma {:induction false} EveryDthEdgeFires(s: Channel, c: Clock, n: nat)
    requires s.Valid() && Admitted(s, c) && Divides(s.mode, true) && s.count == 0
    ensures DivideMany(s, c, n).count == n % Divisor(s.div)
    ensures Wraps(s, c, n) == n / Divisor(s.div)
  {
    var d := Divisor(s.div);
    if n > 0 {
      EveryDthEdgeFires(s, c, n - 1);
      DivSucc(n - 1, d);
    }
  }

  /** A smaller division index does not clamp the counter: the counter can be left
      at or above the new divisor until the next division step brings it back. */
  lemma DecProbCanLeaveCounterAboveDivisor()
    ensures var s := Channel(0, 5, 5, ClockDiv, A, A, false);
            && s.Valid() && s.count < Divisor(s.div)
            && AfterDecProb(s).count >= Divisor(AfterDecProb(s).div)
            && AfterOn(AfterDecProb(s), A, true, 0).ch.count < Divisor(AfterDecProb(s).div)
  {
  }

  // ---------------------------------------------------------------------------
  // Arithmetic helpers

  lemma MulAtLeast(k: int, d: int)
    requires 1 <= k && 0 < d
    ensures d <= k * d
  {
    assert k * d == (k - 1) * d + d;
  }

  /** Euclidean division is determined by quotient and remainder. */
  lemma DivModUnique(x: int, d: int, q: int, m: int)
    requires 0 < d && 0 <= m < d && x == q * d + m
    ensures x / d == q && x % d == m
  {
    var q', m' := x / d, x % d;
    assert (q - q') * d == m' - m;
    if q' < q {
      MulAtLeast(q - q', d);
    } else if q < q' {
      MulAtLeast(q' - q, d);
    }
  }

  lemma ModSucc(x: nat, d: nat)
    requires 0 < d
    ensures (x % d + 1) % d == (x + 1) % d
  {
    var q, m := x / d, x % d;
    if m + 1 < d {
      DivModUnique(x + 1, d, q, m + 1);
    } else {
      DivModUnique(x + 1, d, q + 1, 0);
    }
  }

  lemma DivSucc(x: nat, d: nat)
    requires 0 < d
    ensures (x + 1) / d == x / d + (if (x + 1) % d == 0 then 1 else 0)
    ensures (x + 1) % d == (x % d + 1) % d
  {
    var q, m := x / d, x % d;
    if m + 1 < d {
      DivModUnique(x + 1, d, q, m + 1);
    } else {
      DivModUnique(x + 1, d, q + 1, 0);
    }
  }

  // ---------------------------------------------------------------------------
  // The channel as an object

  /** `ProbablisticOutput`: one channel, whose `out` field stands for the
      `DigitalOutput` driver and holds the level last written to it. */
  class ProbablisticOutput {
    var out: bool
    var prob: nat
    var mode: Mode
    var clock: Clock
    var div: nat
    var count: nat
    var prevClock: Clock

    function Snapshot(): Channel
      reads this
    {
      Channel(prob, div, count, mode, clock, prevClock, out)
    }

    predicate Valid()
      reads this
    {
      Snapshot().Valid()
    }

    /** `Init(output, probability, mode, clock, div)`; `div` is stored unclamped,
        so it must be a valid index. */
    constructor Init(output: bool, probability: byte, m: byte, k: byte, d: byte)
      requires d as int <= MaxDiv
      ensures Valid() && Snapshot() == Initial(output, probability, m, k, d)
    {
      out, prob, mode, clock, div, count, prevClock := output, 0, Trigger, A, 0, 0, A;
      new;
      SetProb(probability);
      SetMode(m);
      SetClock(k);
      Reset();
      div := d as nat;
    }

    /** `Init(output, probability)`: mode TRIGGER on clock A with division index 0. */
    constructor InitTrigger(output: bool, probability: byte)
      ensures Valid() && Snapshot() == Initial(output, probability, 0, 0, 0)
    {
      out, prob, mode, clock, div, count, prevClock := output, 0, Trigger, A, 0, 0, A;
      new;
      SetProb(probability);
      SetMode(0);
      SetClock(0);
      Reset();
      div := 0;
    }

    /** `On(c, prev)`: the rising edge of line `c`; `draw` is the value the coin
        toss `random(0, MaxRandRange)` would produce. */
    method On(c: Clock, prev: bool, draw: nat) returns (r: bool)
      requires Valid() && draw < MaxRandRange
      modifies this
      ensures Valid()
      ensures Step(Snapshot(), r) == AfterOn(old(Snapshot()), c, prev, draw)
    {
      if mode.Off? {
        DriveLow(c);
        return prev;
      }
      if clock != Both && clock != c {
        return State();
      }
      RiseAdmitted(c, prev, draw);
      return State();
    }

    /** The mode switch of `On`, for an admitted edge in a mode other than OFF. */
    method RiseAdmitted(c: Clock, prev: bool, draw: nat)
      requires Valid()
      modifies this
      ensures Valid() && Snapshot() == ModeRise(old(Snapshot()), c, prev, draw)
    {
      match mode {
        case Trigger =>
          if draw > prob { return; }
          DriveHigh(c);
        case Flip =>
          if draw > prob { return; }
          Toggle(c);
        case ClockDiv =>
          count := (count + 1) % Divisions[div];
          if count == 0 { DriveHigh(c); }
        case ClockDivFlip =>
          count := (count + 1) % Divisions[div];
          if count == 0 { Toggle(c); }
        case PrevCopy =>
          if prev { DriveHigh(c); } else { DriveLow(c); }
        case PrevBernoulli =>
          if prev { DriveLow(c); } else { DriveHigh(c); }
        case PrevBernoulliFlip =>
          if prev { DriveLow(c); } else { DriveHigh(c); }
        case PrevFollow =>
          if !prev { return; }
          if draw > prob { return; }
          DriveHigh(c);
        case PrevFollowFlip =>
          if !prev { return; }
          if draw > prob { return; }
          Toggle(c);
        case PrevClockDiv =>
          if !prev { return; }
          count := (count + 1) % Divisions[div];
          if count == 0 { DriveHigh(c); }
        case PrevClockDivFlip =>
          if !prev { return; }
          count := (count + 1) % Divisions[div];
          if count == 0 { Toggle(c); }
        case Off =>
      }
    }

    /** `Off(c, prev)`: the falling edge of line `c`. */
    method Off(c: Clock, prev: bool) returns (r: bool)
      requires Valid()
      modifies this
      ensures Valid()
      ensures Step(Snapshot(), r) == AfterOff(old(Snapshot()), c, prev)
    {
      if mode.Off? {
        DriveLow(c);
        return prev;
      }
      if clock != Both && clock != c {
        return State();
      }
      if clock == Both && prevClock != c {
        return State();
      }
      match mode {
        case Trigger => DriveLow(c);
        case ClockDiv => DriveLow(c);
        case PrevFollow => DriveLow(c);
        case PrevClockDiv => DriveLow(c);
        case PrevBernoulli => DriveLow(c);
        case Flip =>
        case ClockDivFlip =>
        case PrevFollowFlip =>
        case PrevClockDivFlip =>
        case PrevCopy =>
          if prev { DriveHigh(c); } else { DriveLow(c); }
        case PrevBernoulliFlip =>
          if prev { DriveLow(c); } else { DriveHigh(c); }
        case Off =>
      }
      return State();
    }

    /** The level last written to the output. */
    function State(): (v: bool)
      reads this
      ensures v == Snapshot().out
    {
      out
    }

    /** The clock's letter for the display: none for a channel that is off. */
    function DisplayClock(): (ch: char)
      reads this
      ensures ch == ' ' <==> mode.Off?
      ensures !mode.Off? ==> (ch == 'a' <==> clock == A) && (ch == 'b' <==> clock == B)
                             && (ch == '*' <==> clock == Both)
    {
      if mode.Off? then ' '
      else match clock
        case A => 'a'
        case B => 'b'
        case Both => '*'
    }

    function GetClock(): (k: byte)
      reads this
      ensures k < 3 && DecodeClock(k) == Some(clock)
    {
      ClockCode(clock)
    }

    method SetClock(k: byte)
      requires Valid()
      modifies this
      ensures Valid() && Snapshot() == AfterSetClock(old(Snapshot()), k)
    {
      match DecodeClock(k) {
        case Some(ck) => clock := ck;
        case None =>
      }
    }

    function GetMode(): (m: byte)
      reads this
      ensures m < 12 && DecodeMode(m) == Some(mode)
    {
      ModeCode(mode)
    }

    method SetMode(m: byte)
      requires Valid()
      modifies this
      ensures Valid() && Snapshot() == AfterSetMode(old(Snapshot()), m)
    {
      match DecodeMode(m) {
        case Some(md) => mode := md;
        case None =>
      }
    }

    /** `Reset()`: the division counter back to 0. */
    method Reset()
      requires Valid()
      modifies this
      ensures Valid() && Snapshot() == old(Snapshot()).(count := 0)
    {
      count := 0;
    }

    /** The divisor selected by the division index. */
    function DisplayDivision(): (d: nat)
      reads this
      requires Valid()
      ensures d == Divisions[div] && 1 <= d <= Divisions[MaxDiv]
    {
      Divisor(div)
    }

    function GetDivision(): (i: nat)
      reads this
      requires Valid()
      ensures i <= MaxDiv && i == Snapshot().div
    {
      div
    }

    function GetProbInt(): (p: nat)
      reads this
      requires Valid()
      ensures p <= MaxRandRange && p == Snapshot().prob
    {
      prob
    }

    method IncProb()
      requires Valid()
      modifies this
      ensures Valid() && Snapshot() == AfterIncProb(old(Snapshot()))
    {
      if IsDivisionMode(mode) {
        div := Constrain(div + 1, 0, MaxDiv);
        return;
      }
      prob := Constrain(prob + 1, 0, MaxRandRange);
    }

    method DecProb()
      requires Valid()
      modifies this
      ensures Valid() && Snapshot() == AfterDecProb(old(Snapshot()))
    {
      if IsDivisionMode(mode) {
        div := Constrain(div - 1, 0, MaxDiv);
        return;
      }
      prob := Constrain(prob - 1, 0, MaxRandRange);
    }

    method SetProb(probability: byte)
      requires Valid()
      modifies this
      ensures Valid() && Snapshot() == AfterSetProb(old(Snapshot()), probability)
    {
      prob := Constrain(probability as int, 0, MaxRandRange);
    }

    /** `high(c)` */
    method DriveHigh(c: Clock)
      modifies this
      ensures Snapshot() == Write(old(Snapshot()), c, true)
    {
      prevClock := Writer(c);
      out := true;
    }

    /** `low(c)` */
    method DriveLow(c: Clock)
      modifies this
      ensures Snapshot() == Write(old(Snapshot()), c, false)
    {
      prevClock := Writer(c);
      out := false;
    }

    /** `flip(c)` */
    method Toggle(c: Clock)
      modifies this
      ensures Snapshot() == Write(old(Snapshot()), c, !old(out))
    {
      prevClock := Writer(c);
      out := !out;
    }
  }
}
