/** Unbiased bounded sampling by rejection: every result has exactly the same number of 64-bit draws behind it. */
module BoundedRandom {

  const DRAWS: nat := 0x1_0000_0000_0000_0000
  const BOUNDS: nat := 0x1_0000_0000

  datatype Outcome = Sample(value: nat, used: nat) | Aborted | Starved

  /** (0 - bound) % bound on 64-bit unsigned words: the raw values below it are rejected. */
  function Threshold(bound: nat): (t: nat)
    requires 0 < bound < BOUNDS
    ensures t < bound
    ensures (DRAWS - t) % bound == 0
  {
    MultipleRemoved(DRAWS - bound, bound);
    (DRAWS - bound) % bound
  }

  lemma MultipleRemoved(x: nat, bound: nat)
    requires bound > 0
    ensures (x + bound - x % bound) % bound == 0
  {
    var q := x / bound;
    assert x + bound - x % bound == bound * (q + 1) + 0;
    MultipleMod(q + 1, bound, 0);
  }

  /** A multiple of `bound` strictly between -bound and bound is zero. */
  lemma SmallMultiple(bound: nat, factor: int)
    requires bound > 0 && -(bound as int) < bound * factor < bound
    ensures factor == 0
  {
    if factor >= 1 { AtLeastOnce(bound, factor); }
    if factor <= -1 { AtLeastOnce(bound, -factor); }
  }

  lemma AtLeastOnce(bound: nat, times: int)
    requires bound > 0 && times >= 1
    ensures bound * times >= bound && bound * -times <= -(bound as int)
  {
    assert bound * (times - 1) >= 0;
  }

  lemma MultipleMod(q: nat, bound: nat, r: nat)
    requires r < bound
    ensures (bound * q + r) % bound == r
  {
    var x := bound * q + r;
    var d := q - x / bound;
    assert x == bound * (x / bound) + x % bound;
    assert bound * d == bound * q - bound * (x / bound);
    SmallMultiple(bound, d);
  }

  /** The first draw that is not rejected. */
  function FirstAccepted(draws: seq<nat>, threshold: nat): (r: nat)
    ensures r <= |draws| && forall i :: 0 <= i < r ==> draws[i] < threshold
    ensures r < |draws| ==> draws[r] >= threshold
  {
    if draws == [] then 0
    else if draws[0] >= threshold then 0
    else 1 + FirstAccepted(draws[1..], threshold)
  }

  /** fuzzBoundedRandom over the generator's draws; a zero bound aborts. The draws given may all be rejected. */
  method Draw(draws: seq<nat>, bound: nat) returns (r: Outcome)
    requires bound < BOUNDS && forall i :: 0 <= i < |draws| ==> draws[i] < DRAWS
    ensures r == Aborted <==> bound == 0
    ensures r == Starved <==>
              bound > 0 && forall i :: 0 <= i < |draws| ==> draws[i] < (0x1_0000_0000_0000_0000 - bound) % bound
    ensures r.Sample? ==>
              && bound > 0 && 0 < r.used <= |draws| && r.value == draws[r.used - 1] % bound
              && draws[r.used - 1] >= (0x1_0000_0000_0000_0000 - bound) % bound
              && forall i :: 0 <= i < r.used - 1 ==> draws[i] < (0x1_0000_0000_0000_0000 - bound) % bound
  {
    if bound == 0 { return Aborted; }
    var threshold := (DRAWS - bound) % bound;
    var used := 0;
    while used < |draws|
      invariant 0 <= used <= |draws|
      invariant used + FirstAccepted(draws[used..], threshold) == FirstAccepted(draws, threshold)
    {
      var raw := draws[used];
      used := used + 1;
      if raw >= threshold { return Sample(raw % bound, used); }
      assert draws[used - 1..][1..] == draws[used..];
    }
    return Starved;
  }

  /** The accepted draws that give `result`. */
  function Preimages(bound: nat, result: nat): set<nat>
    requires 0 < bound < BOUNDS
  {
    set raw: nat | Threshold(bound) <= raw < DRAWS && raw % bound == result
  }

  /** The size of every residue class among the accepted draws. */
  function ClassSize(bound: nat): nat
    requires 0 < bound < BOUNDS
  {
    (DRAWS - Threshold(bound)) / bound
  }

  lemma {:induction false} ClassCount(lo: nat, blocks: nat, bound: nat, result: nat)
    requires 0 < bound && result < bound
    ensures |set raw: nat | lo <= raw < lo + blocks * bound && raw % bound == result| == blocks
    decreases blocks
  {
    var all := set raw: nat | lo <= raw < lo + blocks * bound && raw % bound == result;
    if blocks == 0 {
      assert all == {};
    } else {
      var mid := lo + (blocks - 1) * bound;
      assert mid + bound == lo + blocks * bound;
      var front := set raw: nat | lo <= raw < mid && raw % bound == result;
      ClassCount(lo, blocks - 1, bound, result);
      var one := OneInBlock(mid, bound, result);
      assert all == front + {one};
    }
  }

  /** Each block of `bound` consecutive numbers holds each residue once. */
  lemma OneInBlock(lo: nat, bound: nat, result: nat) returns (one: nat)
    requires 0 < bound && result < bound
    ensures lo <= one < lo + bound && one % bound == result
    ensures forall x: nat :: lo <= x < lo + bound && x % bound == result ==> x == one
  {
    var q := lo / bound;
    assert lo == bound * q + lo % bound;
    if result >= lo % bound {
      one := bound * q + result;
      MultipleMod(q, bound, result);
    } else {
      one := bound * (q + 1) + result;
      assert bound * (q + 1) == bound * q + bound;
      MultipleMod(q + 1, bound, result);
    }
    forall x: nat | lo <= x < lo + bound && x % bound == result ensures x == one {
      SameResidue(x, one, bound);
    }
  }

  lemma SameResidue(x: nat, y: nat, bound: nat)
    requires bound > 0 && x % bound == y % bound && -(bound as int) < x - y < bound
    ensures x == y
  {
    var d := x / bound - y / bound;
    assert x == bound * (x / bound) + x % bound && y == bound * (y / bound) + y % bound;
    assert bound * d == bound * (x / bound) - bound * (y / bound);
    SmallMultiple(bound, d);
  }

  /** Exact uniformity: for every bound, each result below it comes from the same number of accepted draws, and at
      least half of all draws are accepted. */
  lemma Uniform(bound: nat, result: nat)
    requires 0 < bound < BOUNDS && result < bound
    ensures |Preimages(bound, result)| == ClassSize(bound)
    ensures ClassSize(bound) * bound == DRAWS - Threshold(bound)
    ensures 2 * Threshold(bound) < DRAWS && ClassSize(bound) > 0
  {
    var t := Threshold(bound);
    var n := ClassSize(bound);
    assert (DRAWS - t) == bound * n + (DRAWS - t) % bound;
    assert n * bound == bound * n;
    ClassCount(t, n, bound, result);
    assert Preimages(bound, result) == set raw: nat | t <= raw < t + n * bound && raw % bound == result;
  }
}
