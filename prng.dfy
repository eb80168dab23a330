/**
 * The seeded pseudo-random stream shared by all three variants of the
 * generator: Mulberry32 (`Mulberry32` in script.js, `mulberry32` in
 * bkp/1/script.js and bkp/2/script.js).
 *
 * The state `a` is a JavaScript number that `a += 0x6D2B79F5` grows without
 * wrapping; only the bit operations of the output step reduce it modulo 2^32
 * (`ToInt32`). So the state is an unbounded `int`, and the 32-bit arithmetic
 * lives in `Scramble`. A draw is modelled by its raw unsigned word `k`; the
 * float the source returns is `k / 2^32` (`ToUnit`).
 *
 * The specifications of the generators take the output function as a
 * parameter `mix`: everything proved about them holds for any output
 * function, and the generator object fixes it to `Mix`.
 */
module Prng {

  /** The increment added to the state on every draw. */
  const Increment: int := 0x6D2B79F5

  /** 2^32, the divisor that turns a word into a float in [0, 1). */
  const TwoTo32: int := 0x1_0000_0000

  /** `ToUint32` of an integral number: its residue modulo 2^32 as 32 bits. */
  function Word(a: int): bv32 {
    (a % TwoTo32) as bv32
  }

  /**
   * The output mixing of one draw, on the already advanced state:
   * `t = imul(t ^ t >>> 15, t | 1)`, then `t ^= t + imul(t ^ t >>> 7, t | 61)`,
   * then `(t ^ t >>> 14) >>> 0`. `Math.imul` is the wrapping 32-bit product.
   */
  function Scramble(t0: bv32): bv32 {
    var t1 := (t0 ^ (t0 >> 15)) * (t0 | 1);
    var t2 := t1 ^ (t1 + (t1 ^ (t1 >> 7)) * (t1 | 61));
    t2 ^ (t2 >> 14)
  }

  /** The unsigned word drawn when the advanced state is `a`. */
  function Mix(a: int): int {
    Scramble(Word(a)) as int
  }

  /** An output function whose results are unsigned 32-bit words. */
  ghost predicate IsWordValued(mix: int -> int) {
    forall a :: 0 <= mix(a) < TwoTo32
  }

  /** Mulberry32's output is always an unsigned 32-bit word. */
  lemma MixIsWordValued()
    ensures IsWordValued(Mix)
  {
  }

  /** States that agree modulo 2^32 produce the same word. */
  lemma MixPeriodic(a: int, k: int)
    ensures Mix(a + k * TwoTo32) == Mix(a)
  {
    assert (a + k * TwoTo32) % TwoTo32 == a % TwoTo32;
  }

  /** The float `k / 2^32` that `next()` returns for the word `k`. */
  function ToUnit(k: int): (r: real)
    requires 0 <= k < TwoTo32
    ensures 0.0 <= r < 1.0
  {
    k as real / TwoTo32 as real
  }

  /**
   * The state after `n` draws from state `a`: the increment is added once per
   * draw, with no wrap-around (the literal is `Increment`).
   */
  function Skip(a: int, n: nat): int {
    a + n * 0x6D2B79F5
  }

  /** The word of draw number `n` (counting from 0) from state `a`. */
  function Draw(a: int, n: nat, mix: int -> int): int {
    mix(Skip(a, n + 1))
  }

  /** One functional step of the stream: the drawn word and the next state. */
  datatype Step = Step(word: int, state: int)

  /** `next()` as a function of the state: draw 0 and the state one draw later. */
  function NextOf(a: int, mix: int -> int): (s: Step)
    ensures s.state == Skip(a, 1) && s.word == Draw(a, 0, mix)
  {
    Step(mix(a + Increment), a + Increment)
  }

  /**
   * `Math.floor(next() * 3) + 2` for the draw with word `k`. The quotient
   * `k / 2^32` is exact in a double and so is its product with 3 (below
   * 2^53), so the floor is the integer quotient of `3 * k` by 2^32. The word
   * is taken modulo 2^32 first, which changes nothing for a drawn word.
   */
  function ChildCount(k: int): (c: nat)
    ensures 2 <= c <= 4
  {
    3 * (k % TwoTo32) / TwoTo32 + 2
  }

  /** `ChildCount` is the floor of the float `next() * 3`, plus two. */
  lemma ChildCountIsFloor(k: int)
    requires 0 <= k < TwoTo32
    ensures ChildCount(k) == (ToUnit(k) * 3.0).Floor + 2
  {
    var r := ToUnit(k) * 3.0;
    assert r == (3 * k) as real / TwoTo32 as real;
    var q := (3 * k) / TwoTo32;
    assert q * TwoTo32 <= 3 * k < (q + 1) * TwoTo32;
    assert q as real <= r < (q + 1) as real;
  }

  /** The floor splits the words into three equal ranges, one per child count. */
  lemma ChildCountRanges(k: int)
    requires 0 <= k < TwoTo32
    ensures ChildCount(k) == (if k <= 0x5555_5555 then 2 else if k <= 0xAAAA_AAAA then 3 else 4)
  {
  }

  /** Skipping `m` draws and then `n` more is skipping `m + n` draws. */
  lemma SkipAdd(a: int, m: nat, n: nat)
    ensures Skip(Skip(a, m), n) == Skip(a, m + n)
  {
  }

  /** Draw `m + n` from `a` is draw `n` from the state `m` draws later. */
  lemma DrawAfterSkip(a: int, m: nat, n: nat, mix: int -> int)
    ensures Draw(Skip(a, m), n, mix) == Draw(a, m + n, mix)
  {
    SkipAdd(a, m, n + 1);
  }

  /**
   * The generator object of script.js: `this.a` is updated on every call of
   * `next`; `mix` is the output function of the `next` closure the
   * constructor installs.
   */
  class Mulberry32 {
    var a: int
    const mix: int -> int

    /** `new Mulberry32(seed)`: the state starts at the seed itself. */
    constructor (seed: int)
      ensures a == seed && mix == Mix && IsWordValued(mix)
    {
      a := seed;
      mix := Mix;
      MixIsWordValued();
    }

    /** `next()`: advances the state by the increment and mixes it. */
    method Next() returns (k: int)
      requires IsWordValued(mix)
      modifies this
      ensures a == Skip(old(a), 1)
      ensures k == Draw(old(a), 0, mix)
      ensures 0 <= k < TwoTo32 && 0.0 <= ToUnit(k) < 1.0
    {
      a := a + Increment;
      k := mix(a);
    }
  }
}
