/** The chunk-by-chunk resampler: whatever the chunk sizes, the output so far has exactly the length
    the sample-rate ratio gives for the input so far. */
module Resampler {
  import opened Arithmetic

  const ContextSamples: nat := 64

  predicate Supported(rate: int) { rate in {8_000, 16_000, 24_000, 48_000} }

  function Gcd(a: nat, b: nat): (g: nat)
    requires a > 0 || b > 0
    ensures g > 0
    decreases b
  {
    if b == 0 then a else Gcd(b, a % b)
  }

  lemma GcdDivides(a: nat, b: nat) returns (x: nat, y: nat)
    requires a > 0 || b > 0
    ensures a == Gcd(a, b) * x && b == Gcd(a, b) * y
    decreases b
  {
    if b == 0 {
      x, y := 1, 0;
    } else {
      var x', y' := GcdDivides(b, a % b);
      var g, q := Gcd(a, b), a / b;
      x, y := q * x' + y', x';
      assert a == q * b + a % b;
      assert q * (g * x') + g * y' == g * (q * x' + y');
    }
  }

  /** The length of the output for `n` input samples. */
  function Scaled(n: nat, up: nat, down: nat): nat
    requires down > 0
  {
    n * up / down
  }

  /** The ratio in lowest terms rounds any length as the rates themselves do. */
  lemma RatioOfRates(src: nat, dst: nat, n: nat)
    requires src > 0 && dst > 0
    ensures src / Gcd(src, dst) > 0
    ensures Scaled(n, dst / Gcd(src, dst), src / Gcd(src, dst)) == Scaled(n, dst, src)
  {
    var g := Gcd(src, dst);
    var x, y := GcdDivides(src, dst);
    assert x > 0;
    QuotientUnique(src, g, x, 0);
    QuotientUnique(dst, g, y, 0);
    ScaledQuotient(g, n * y, x);
    assert g * (n * y) == n * dst;
  }

  function Up(src: nat, dst: nat): nat
    requires src > 0 && dst > 0
  {
    dst / Gcd(src, dst)
  }

  function Down(src: nat, dst: nat): (r: nat)
    requires src > 0 && dst > 0
    ensures r > 0
  {
    RatioOfRates(src, dst, 0);
    src / Gcd(src, dst)
  }

  lemma NothingScaled(up: nat, down: nat)
    requires down > 0
    ensures Scaled(0, up, down) == 0
  {
  }

  type Filter = (seq<real>, nat, nat) -> seq<real>

  predicate Fits(a: nat, d: nat, n: nat) { a <= d * n < a + d }

  /** The polyphase filter answers with the input's length times up/down, rounded up. */
  ghost predicate Rounds(poly: Filter) {
    forall xs: seq<real>, up: nat, down: nat | down > 0 :: Fits(|xs| * up, down, |poly(xs, up, down)|)
  }

  /** What remains of the filter's answer behind the carried context covers what is still wanted,
      although both lengths are rounded. */
  lemma NeverTooShort(up: nat, down: nat, context: nat, before: nat, chunk: nat, n: nat)
    requires down > 0 && Fits((context + chunk) * up, down, n)
    ensures Scaled(before, up, down) <= Scaled(before + chunk, up, down)
    ensures Scaled(context, up, down) + (Scaled(before + chunk, up, down) - Scaled(before, up, down)) <= n
  {
    var x, y := before * up, chunk * up;
    assert (before + chunk) * up == x + y;
    assert (context + chunk) * up == context * up + y;
    FloorGrowth(down, x, y);
    FloorBounds(context * up, down);
    CeilOfSum(down, context * up, y, context * up / down, (x + y) / down - x / down, n);
  }

  function Lesser(a: nat, b: nat): nat { if a < b then a else b }

  /** The last `k` samples, or all when there are fewer: Python's `xs[-k:]` for positive k. */
  function Tail(xs: seq<real>, k: nat): (r: seq<real>)
    ensures |r| == Lesser(|xs|, k)
  {
    xs[|xs| - Lesser(|xs|, k)..]
  }

  lemma TailOfTail(xs: seq<real>, ys: seq<real>, k: nat)
    ensures Tail(Tail(xs, k) + ys, k) == Tail(xs + ys, k)
  {
  }

  class StreamResampler {
    const up: nat
    const down: nat
    const poly: Filter
    var context: seq<real>
    var consumed: nat
    var emitted: nat
    /** Everything given and everything returned so far. */
    ghost var input: seq<real>
    ghost var output: seq<real>

    predicate Passthrough() { up == 1 && down == 1 }

    /** However the input was cut into chunks, the output has the exact scaled length, and the carried
        context is the end of the input. */
    ghost predicate Valid()
      reads this
    {
      && down > 0 && Rounds(poly)
      && |output| == Scaled(|input|, up, down)
      && if Passthrough() then output == input
         else consumed == |input| && emitted == |output| && context == Tail(input, ContextSamples)
    }

    constructor (src: nat, dst: nat, poly: Filter)
      requires src > 0 && Supported(dst) && Rounds(poly)
      ensures Valid() && input == [] && output == [] && this.poly == poly
      ensures up == Up(src, dst) && down == Down(src, dst)
    {
      up, down := Up(src, dst), Down(src, dst);
      this.poly := poly;
      context, consumed, emitted := [], 0, 0;
      input, output := [], [];
      NothingScaled(Up(src, dst), Down(src, dst));
    }

    /** Resamples one chunk. The answer is the filter's, from behind the carried context, as long as
        the exact ratio asks for. */
    method Process(chunk: seq<real>) returns (out: seq<real>)
      requires Valid()
      modifies this
      ensures Valid() && input == old(input) + chunk && output == old(output) + out
      ensures |out| == Scaled(|input|, up, down) - Scaled(|old(input)|, up, down)
      ensures Passthrough() ==> out == chunk
      ensures !Passthrough() ==>
                var skip := Scaled(|old(context)|, up, down);
                var all := poly(old(context) + chunk, up, down);
                skip + |out| <= |all| && out == all[skip..skip + |out|]
      ensures !Passthrough() ==> |context| == Lesser(consumed, ContextSamples)
    {
      if Passthrough() {
        out := chunk;
        input, output := input + chunk, output + chunk;
        return;
      }
      var buffered := context + chunk;
      var resampled := poly(buffered, up, down);
      assert Fits(|buffered| * up, down, |resampled|);
      NeverTooShort(up, down, |context|, consumed, |chunk|, |resampled|);
      TailOfTail(input, chunk, ContextSamples);
      var skip := Scaled(|context|, up, down);
      out := resampled[skip..];
      consumed := consumed + |chunk|;
      var wanted := Scaled(consumed, up, down) - emitted;
      out := out[..Lesser(if wanted > 0 then wanted else 0, |out|)];
      emitted := emitted + |out|;
      context := Tail(buffered, ContextSamples);
      input, output := input + chunk, output + out;
    }
  }

  /** The total length does not depend on the chunking: it is the input's length times the ratio of
      the rates, rounded down. */
  lemma LengthByRates(r: StreamResampler, src: nat, dst: nat)
    requires r.Valid() && src > 0 && dst > 0
    requires r.up == Up(src, dst) && r.down == Down(src, dst)
    ensures |r.output| == |r.input| * dst / src
  {
    RatioOfRates(src, dst, |r.input|);
  }

  /** A resampler for an unsupported rate is refused. */
  method NewResampler(src: nat, dst: int, poly: Filter) returns (r: StreamResampler?)
    requires src > 0 && Rounds(poly)
    ensures r == null <==> !Supported(dst)
    ensures r != null ==> fresh(r) && r.Valid() && r.input == [] && r.up == Up(src, dst) && r.down == Down(src, dst)
  {
    if !Supported(dst) {
      return null;
    }
    r := new StreamResampler(src, dst, poly);
  }
}
