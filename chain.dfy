/** The chain of UncertaintyRMX channels. For one clock edge the channels are
    visited in order; each receives as `prev` the level its predecessor just
    returned, and the first receives a seed chosen by the caller (the loop that
    drives the chain is not part of this model, so the seed is a parameter). */
module Chain {
  import opened Uncertainty

  datatype Edge = Rising | Falling

  /** The handler an edge calls: `On` for a rising edge, `Off` for a falling one. */
  function Handle(s: Channel, e: Edge, c: Clock, prev: bool, draw: nat): (r: Step)
    requires s.Valid() && draw < MaxRandRange
    ensures r.ch.Valid()
    ensures s.mode.Off? ==> r.ret == prev
  {
    match e
    case Rising => AfterOn(s, c, prev, draw)
    case Falling => AfterOff(s, c, prev)
  }

  predicate AllValid(chs: seq<Channel>) {
    forall i :: 0 <= i < |chs| ==> chs[i].Valid()
  }

  predicate DrawsInRange(draws: seq<nat>) {
    forall i :: 0 <= i < |draws| ==> draws[i] < MaxRandRange
  }

  /** The value handed on after a run of channels that returned `rets`. */
  function Last(seed: bool, rets: seq<bool>): bool {
    if rets == [] then seed else rets[|rets| - 1]
  }

  // ---------------------------------------------------------------------------
  // The fold, for any per-channel handler

  /** A per-channel handler: a channel, the `prev` it is given and its draw, to the
      step it makes. */
  type Handler = (Channel, bool, nat) --> Step

  ghost predicate Accepts(h: Handler, chs: seq<Channel>, draws: seq<nat>) {
    |draws| == |chs| && forall i, prev :: 0 <= i < |chs| ==> h.requires(chs[i], prev, draws[i])
  }

  lemma AcceptsTail(h: Handler, chs: seq<Channel>, draws: seq<nat>)
    requires Accepts(h, chs, draws) && chs != []
    ensures Accepts(h, chs[1..], draws[1..])
  {
    forall i, prev | 0 <= i < |chs[1..]| ensures h.requires(chs[1..][i], prev, draws[1..][i]) {
      assert chs[1..][i] == chs[i + 1] && draws[1..][i] == draws[i + 1];
    }
  }

  lemma AcceptsConcat(h: Handler, p: seq<Channel>, q: seq<Channel>, dp: seq<nat>, dq: seq<nat>)
    requires Accepts(h, p, dp) && Accepts(h, q, dq)
    ensures Accepts(h, p + q, dp + dq)
  {
    forall i, prev | 0 <= i < |p + q| ensures h.requires((p + q)[i], prev, (dp + dq)[i]) {
      if i < |p| {
        assert (p + q)[i] == p[i] && (dp + dq)[i] == dp[i];
      } else {
        assert (p + q)[i] == q[i - |p|] && (dp + dq)[i] == dq[i - |p|];
      }
    }
  }

  /** `h` applied down the chain, each result feeding the next channel's `prev`. */
  function Fold(h: Handler, chs: seq<Channel>, seed: bool, draws: seq<nat>)
    : (r: (seq<Channel>, seq<bool>))
    requires Accepts(h, chs, draws)
    ensures |r.0| == |chs| && |r.1| == |chs|
    decreases |chs|
  {
    if chs == [] then ([], [])
    else
      var first := h(chs[0], seed, draws[0]);
      AcceptsTail(h, chs, draws);
      var rest := Fold(h, chs[1..], first.ret, draws[1..]);
      ([first.ch] + rest.0, [first.ret] + rest.1)
  }

  lemma {:induction false} FoldAt(h: Handler, chs: seq<Channel>, seed: bool, draws: seq<nat>, i: nat)
    requires Accepts(h, chs, draws) && i < |chs|
    ensures var r := Fold(h, chs, seed, draws);
            Step(r.0[i], r.1[i]) == h(chs[i], if i == 0 then seed else r.1[i - 1], draws[i])
    decreases i
  {
    if 0 < i {
      var first := h(chs[0], seed, draws[0]);
      AcceptsTail(h, chs, draws);
      FoldAt(h, chs[1..], first.ret, draws[1..], i - 1);
      assert chs[1..][i - 1] == chs[i] && draws[1..][i - 1] == draws[i];
    }
  }

  lemma {:induction false} FoldSplit(h: Handler, p: seq<Channel>, q: seq<Channel>, seed: bool,
                                     dp: seq<nat>, dq: seq<nat>)
    requires Accepts(h, p, dp) && Accepts(h, q, dq)
    ensures Accepts(h, p + q, dp + dq)
    ensures var rp := Fold(h, p, seed, dp);
            var rq := Fold(h, q, Last(seed, rp.1), dq);
            Fold(h, p + q, seed, dp + dq) == (rp.0 + rq.0, rp.1 + rq.1)
    decreases |p|
  {
    AcceptsConcat(h, p, q, dp, dq);
    if p == [] {
      assert p + q == q && dp + dq == dq;
      var rq := Fold(h, q, seed, dq);
      assert Fold(h, p, seed, dp) == ([], []);
      assert [] + rq.0 == rq.0 && [] + rq.1 == rq.1;
    } else {
      var first := h(p[0], seed, dp[0]);
      AcceptsTail(h, p, dp);
      AcceptsTail(h, p + q, dp + dq);
      assert (p + q)[0] == p[0] && (dp + dq)[0] == dp[0];
      assert (p + q)[1..] == p[1..] + q && (dp + dq)[1..] == dp[1..] + dq;
      FoldSplit(h, p[1..], q, first.ret, dp[1..], dq);
      var rp' := Fold(h, p[1..], first.ret, dp[1..]);
      assert Last(first.ret, rp'.1) == Last(seed, [first.ret] + rp'.1);
      var rq := Fold(h, q, Last(first.ret, rp'.1), dq);
      assert [first.ch] + (rp'.0 + rq.0) == ([first.ch] + rp'.0) + rq.0;
      assert [first.ret] + (rp'.1 + rq.1) == ([first.ret] + rp'.1) + rq.1;
    }
  }

  // ---------------------------------------------------------------------------
  // The chain of channels

  /** The handler for one edge of line `c`. */
  function HandlerFor(e: Edge, c: Clock): Handler {
    (s: Channel, prev: bool, draw: nat) requires s.Valid() && draw < MaxRandRange =>
      Handle(s, e, c, prev, draw)
  }

  lemma ChainAccepts(chs: seq<Channel>, e: Edge, c: Clock, draws: seq<nat>)
    requires AllValid(chs) && |draws| == |chs| && DrawsInRange(draws)
    ensures Accepts(HandlerFor(e, c), chs, draws)
  {
  }

  /** One edge sent down the chain: the new channels and the level each returned.
      `draws[i]` is the coin-toss draw channel `i` would make. */
  function Propagate(chs: seq<Channel>, e: Edge, c: Clock, seed: bool, draws: seq<nat>)
    : (r: (seq<Channel>, seq<bool>))
    requires AllValid(chs) && |draws| == |chs| && DrawsInRange(draws)
    ensures |r.0| == |chs| && |r.1| == |chs|
  {
    ChainAccepts(chs, e, c, draws);
    Fold(HandlerFor(e, c), chs, seed, draws)
  }

  /** Channel `i` of the chain handles the edge with, as `prev`, the seed when it is
      first and otherwise the level channel `i - 1` returned for the same edge; every
      channel stays valid. */
  lemma PropagateAt(chs: seq<Channel>, e: Edge, c: Clock, seed: bool, draws: seq<nat>, i: nat)
    requires AllValid(chs) && |draws| == |chs| && DrawsInRange(draws)
    requires i < |chs|
    ensures var r := Propagate(chs, e, c, seed, draws);
            && Step(r.0[i], r.1[i]) == Handle(chs[i], e, c, if i == 0 then seed else r.1[i - 1], draws[i])
            && r.0[i].Valid()
  {
    ChainAccepts(chs, e, c, draws);
    FoldAt(HandlerFor(e, c), chs, seed, draws, i);
  }

  lemma PropagateValid(chs: seq<Channel>, e: Edge, c: Clock, seed: bool, draws: seq<nat>)
    requires AllValid(chs) && |draws| == |chs| && DrawsInRange(draws)
    ensures AllValid(Propagate(chs, e, c, seed, draws).0)
  {
    forall i | 0 <= i < |chs| ensures Propagate(chs, e, c, seed, draws).0[i].Valid() {
      PropagateAt(chs, e, c, seed, draws, i);
    }
  }

  /** Sending an edge down `p + q` is sending it down `p` and then down `q`,
      seeded with what `p` handed on. */
  lemma PropagateSplit(p: seq<Channel>, q: seq<Channel>, e: Edge, c: Clock,
                       seed: bool, dp: seq<nat>, dq: seq<nat>)
    requires AllValid(p) && |dp| == |p| && DrawsInRange(dp)
    requires AllValid(q) && |dq| == |q| && DrawsInRange(dq)
    ensures AllValid(p + q) && DrawsInRange(dp + dq)
    ensures var rp := Propagate(p, e, c, seed, dp);
            var rq := Propagate(q, e, c, Last(seed, rp.1), dq);
            Propagate(p + q, e, c, seed, dp + dq) == (rp.0 + rq.0, rp.1 + rq.1)
  {
    ChainAccepts(p, e, c, dp);
    ChainAccepts(q, e, c, dq);
    FoldSplit(HandlerFor(e, c), p, q, seed, dp, dq);
    assert AllValid(p + q) by {
      forall i | 0 <= i < |p + q| ensures (p + q)[i].Valid() {
        if i < |p| { assert (p + q)[i] == p[i]; } else { assert (p + q)[i] == q[i - |p|]; }
      }
    }
    assert DrawsInRange(dp + dq) by {
      forall i | 0 <= i < |dp + dq| ensures (dp + dq)[i] < MaxRandRange {
        if i < |dp| { assert (dp + dq)[i] == dp[i]; } else { assert (dp + dq)[i] == dq[i - |dp|]; }
      }
    }
  }

  /** A channel in mode OFF does not break the chain: the channels after it see
      the same `prev` values, and return the same levels, as they would with the
      OFF channel taken out. */
  lemma OffChannelIsTransparent(p: seq<Channel>, off: Channel, q: seq<Channel>, e: Edge, c: Clock,
                                seed: bool, dp: seq<nat>, d: nat, dq: seq<nat>)
    requires AllValid(p) && |dp| == |p| && DrawsInRange(dp)
    requires AllValid(q) && |dq| == |q| && DrawsInRange(dq)
    requires off.Valid() && off.mode.Off? && d < MaxRandRange
    ensures AllValid(p + [off] + q) && DrawsInRange(dp + [d] + dq)
    ensures AllValid(p + q) && DrawsInRange(dp + dq)
    ensures Propagate(p + [off] + q, e, c, seed, dp + [d] + dq).1[|p| + 1..]
         == Propagate(p + q, e, c, seed, dp + dq).1[|p|..]
  {
    var rp := Propagate(p, e, c, seed, dp);
    var h := Last(seed, rp.1);
    PropagateAt([off], e, c, h, [d], 0);
    var ro := Propagate([off], e, c, h, [d]);
    assert ro.1 == [h];
    PropagateSplit(p, [off], e, c, seed, dp, [d]);
    var rpo := Propagate(p + [off], e, c, seed, dp + [d]);
    assert rpo.1 == rp.1 + [h];
    assert Last(seed, rpo.1) == h;
    PropagateSplit(p + [off], q, e, c, seed, dp + [d], dq);
    PropagateSplit(p, q, e, c, seed, dp, dq);
  }

  /** Three channels listening to A: TRIGGER at probability 100, PREV_COPY and
      PREV_BERNOULLI. A rising edge of A gives high, high, low; the falling edge
      that follows gives low, low, and low again, because PREV_BERNOULLI drives
      its output low on every honoured falling edge. */
  lemma ThreeChannelScenario(seed: bool, d0: nat, d1: nat, d2: nat, o0: bool, o1: bool, o2: bool)
    requires d0 < MaxRandRange && d1 < MaxRandRange && d2 < MaxRandRange
    ensures var chs := [Channel(100, 0, 0, Trigger, A, A, o0),
                        Channel(0, 0, 0, PrevCopy, A, A, o1),
                        Channel(0, 0, 0, PrevBernoulli, A, A, o2)];
            && AllValid(chs)
            && var up := Propagate(chs, Rising, A, seed, [d0, d1, d2]);
               && up.1 == [true, true, false]
               && AllValid(up.0)
               && Propagate(up.0, Falling, A, seed, [d0, d1, d2]).1 == [false, false, false]
  {
    var chs := [Channel(100, 0, 0, Trigger, A, A, o0),
                Channel(0, 0, 0, PrevCopy, A, A, o1),
                Channel(0, 0, 0, PrevBernoulli, A, A, o2)];
    var draws := [d0, d1, d2];
    var up := Propagate(chs, Rising, A, seed, draws);
    PropagateAt(chs, Rising, A, seed, draws, 0);
    PropagateAt(chs, Rising, A, seed, draws, 1);
    PropagateAt(chs, Rising, A, seed, draws, 2);
    assert up.1 == [true, true, false];
    PropagateValid(chs, Rising, A, seed, draws);
    var down := Propagate(up.0, Falling, A, seed, draws);
    PropagateAt(up.0, Falling, A, seed, draws, 0);
    PropagateAt(up.0, Falling, A, seed, draws, 1);
    PropagateAt(up.0, Falling, A, seed, draws, 2);
    assert down.1 == [false, false, false];
  }
}
