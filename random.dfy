/** The per-stock pseudo-random source, made injectable: the stream of draws the
    `java.util.Random` of a stock would produce, consumed one draw per call. */
module Randomness {

  /** One output of `nextFloat()` or `nextDouble()`: a number in [0, 1). */
  type Draw = r: real | 0.0 <= r < 1.0

  /** The whole (unbounded) sequence of draws a source yields. */
  type Stream = nat -> Draw

  /** The uniform sample `uniformRandom(min, max)` computes from one draw. */
  function Scale(d: Draw, min: real, max: real): (r: real)
    ensures min < max ==> min <= r < max
    ensures min == max ==> r == min
  {
    var w := max - min;
    ScaleBounds(d, w);
    d * w + min
  }

  lemma ScaleBounds(d: Draw, w: real)
    ensures w > 0.0 ==> 0.0 <= d * w < w
    ensures w == 0.0 ==> d * w == 0.0
  {
    if w > 0.0 {
      assert d * w < 1.0 * w;
    }
  }

  /** A stock's private generator: a fixed stream and the position of the next draw. */
  class Random {
    const stream: Stream
    var pos: nat

    constructor (stream: Stream)
      ensures this.stream == stream && pos == 0
    {
      this.stream := stream;
      pos := 0;
    }

    /** Takes the next draw (`nextFloat()` / `nextDouble()`). */
    method Next() returns (d: Draw)
      modifies this
      ensures d == stream(old(pos))
      ensures pos == old(pos) + 1
    {
      d := stream(pos);
      pos := pos + 1;
    }
  }
}
