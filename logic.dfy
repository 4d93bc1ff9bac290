/** The logic output of the Logic firmware: each channel drives its output with
    one of eleven boolean functions of the two clock levels A and B, chosen by a
    mode code 0..10. */
module Logic {
  import opened Arduino

  /** The mode codes. Each odd code is followed by its negation. */
  const ModeOff: byte := 0
  const ModeA: byte := 1
  const ModeNotA: byte := 2
  const ModeB: byte := 3
  const ModeNotB: byte := 4
  const ModeAnd: byte := 5
  const ModeNand: byte := 6
  const ModeOr: byte := 7
  const ModeNor: byte := 8
  const ModeXor: byte := 9
  const ModeXnor: byte := 10
  /** The highest mode code. */
  const NMode: byte := 10

  /** The level `Update(a, b)` drives in mode `m`: the switch of `Update`, where a
      true condition calls `On()` and a false one `Off()`. */
  function Select(m: byte, a: bool, b: bool): (v: bool)
    requires m <= NMode
    ensures m == ModeOff ==> !v
    ensures m == ModeA ==> v == a
    ensures m == ModeB ==> v == b
    ensures m == ModeAnd ==> v == (a && b)
    ensures m == ModeOr ==> v == (a || b)
    ensures m == ModeXor ==> v == (a != b)
  {
    if m == ModeOff then false
    else if m == ModeA then a
    else if m == ModeNotA then !a
    else if m == ModeB then b
    else if m == ModeNotB then !b
    else if m == ModeAnd then a && b
    else if m == ModeNand then !(a && b)
    else if m == ModeOr then a || b
    else if m == ModeNor then !(a || b)
    else if m == ModeXor then a != b
    else !(a != b)
  }

  /** NOT A, NOT B, NAND, NOR and XNOR are the negations of the mode before them. */
  lemma EvenModesNegateOddModes(m: byte, a: bool, b: bool)
    requires m < NMode && m % 2 == 1
    ensures Select(m + 1, a, b) == !Select(m, a, b)
  {
  }

  /** The outputs of mode `m` for the inputs (A, B) = (0, 0), (0, 1), (1, 0), (1, 1). */
  function TruthTable(m: byte): (t: seq<bool>)
    requires m <= NMode
    ensures |t| == 4
    ensures forall a: bool, b: bool :: Select(m, a, b) == t[(if a then 2 else 0) + (if b then 1 else 0)]
  {
    [Select(m, false, false), Select(m, false, true), Select(m, true, false), Select(m, true, true)]
  }

  /** The eleven modes are eleven different functions: no mode duplicates another. */
  lemma ModesAreDistinct(m: byte, n: byte)
    requires m <= NMode && n <= NMode && m != n
    ensures TruthTable(m) != TruthTable(n)
  {
    assert TruthTable(m)[0] != TruthTable(n)[0] || TruthTable(m)[1] != TruthTable(n)[1]
        || TruthTable(m)[2] != TruthTable(n)[2] || TruthTable(m)[3] != TruthTable(n)[3];
  }

  // ---------------------------------------------------------------------------
  // The channel as a value

  datatype Channel = Channel(mode: byte, out: bool) {
    predicate Valid() {
      mode <= NMode
    }
  }

  /** `Update(a, b)`: the output driven to the selected function, the mode kept. */
  function AfterUpdate(s: Channel, a: bool, b: bool): (r: Channel)
    requires s.Valid()
    ensures r.Valid() && r.mode == s.mode
    ensures r.out == Select(s.mode, a, b)
  {
    s.(out := Select(s.mode, a, b))
  }

  /** The output after `Update` does not depend on the output before it, so a
      repeated `Update` with the same levels changes nothing. */
  lemma UpdateIsIdempotent(s: Channel, a: bool, b: bool)
    requires s.Valid()
    ensures AfterUpdate(AfterUpdate(s, a, b), a, b) == AfterUpdate(s, a, b)
    ensures AfterUpdate(s.(out := !s.out), a, b) == AfterUpdate(s, a, b)
  {
  }

  /** `SetMode(b)`, `IncMode` and `DecMode`: the code clamped into [0, NMode]. */
  function ClampedMode(x: int): (m: byte)
    ensures m <= NMode
    ensures 0 <= x <= NMode as int ==> m as int == x
    ensures x < 0 ==> m == 0
    ensures NMode as int < x ==> m == NMode
  {
    Constrain(x, 0, NMode as int) as byte
  }

  // ---------------------------------------------------------------------------
  // The channel as an object

  /** `LogicOutput`: the mode and, standing for the `DigitalOutput` driver, the
      level last written to the output. */
  class LogicOutput {
    var mode: byte
    var out: bool

    function Snapshot(): Channel
      reads this
    {
      Channel(mode, out)
    }

    predicate Valid()
      reads this
    {
      Snapshot().Valid()
    }

    /** `Init(output, mode)`. */
    constructor Init(output: bool, m: byte)
      ensures Valid() && Snapshot() == Channel(ClampedMode(m as int), output)
    {
      mode, out := 0, output;
      new;
      SetMode(m);
    }

    method Update(a: bool, b: bool)
      requires Valid()
      modifies this
      ensures Valid() && Snapshot() == AfterUpdate(old(Snapshot()), a, b)
    {
      if mode == ModeOff {
        Off();
      } else if mode == ModeA {
        if a { On(); } else { Off(); }
      } else if mode == ModeNotA {
        if !a { On(); } else { Off(); }
      } else if mode == ModeB {
        if b { On(); } else { Off(); }
      } else if mode == ModeNotB {
        if !b { On(); } else { Off(); }
      } else if mode == ModeAnd {
        if a && b { On(); } else { Off(); }
      } else if mode == ModeNand {
        if !(a && b) { On(); } else { Off(); }
      } else if mode == ModeOr {
        if a || b { On(); } else { Off(); }
      } else if mode == ModeNor {
        if !(a || b) { On(); } else { Off(); }
      } else if mode == ModeXor {
        if a != b { On(); } else { Off(); }
      } else if mode == ModeXnor {
        if !(a != b) { On(); } else { Off(); }
      }
    }

    /** `On()`: drive the output high. */
    method On()
      requires Valid()
      modifies this
      ensures Valid() && Snapshot() == old(Snapshot()).(out := true)
    {
      out := true;
    }

    /** `Off()`: drive the output low. */
    method Off()
      requires Valid()
      modifies this
      ensures Valid() && Snapshot() == old(Snapshot()).(out := false)
    {
      out := false;
    }

    /** The level last written to the output. */
    function State(): (v: bool)
      reads this
      ensures v == Snapshot().out
    {
      out
    }

    function GetMode(): (m: byte)
      reads this
      requires Valid()
      ensures m <= NMode && m == Snapshot().mode
    {
      mode
    }

    method IncMode()
      modifies this
      ensures Valid() && Snapshot() == old(Snapshot()).(mode := ClampedMode(old(mode) as int + 1))
    {
      mode := Constrain(mode as int + 1, 0, NMode as int) as byte;
    }

    method DecMode()
      modifies this
      ensures Valid() && Snapshot() == old(Snapshot()).(mode := ClampedMode(old(mode) as int - 1))
    {
      mode := Constrain(mode as int - 1, 0, NMode as int) as byte;
    }

    method SetMode(b: byte)
      modifies this
      ensures Valid() && Snapshot() == old(Snapshot()).(mode := ClampedMode(b as int))
    {
      mode := Constrain(b as int, 0, NMode as int) as byte;
    }
  }
}
