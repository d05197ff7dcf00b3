/**
 * The light sensor array: the weighted-average line position over the
 * unsigned bytes the array returns, and the argument checks of the mode and
 * line-frequency commands.
 *
 * The position is `Σ data[i]·(i + 1) / Σ data[i]` over 0-based indices
 * `i`, or 0 when every value is 0. The sums below are taken from the end of
 * the reading, so the weight of the last element is the length of the
 * prefix that ends with it.
 */
module LightArray {
  import opened Wrappers

  /** One element of `bin_data('B' * 8)`: an unsigned byte. */
  type Byte = x: int | 0 <= x < 256

  /** The number of elements the array reports. */
  const ElementCount := 8

  /** `Σ data[i]`: the sum of the reading. */
  function Total(data: seq<Byte>): nat
    decreases |data|
  {
    if data == [] then 0 else Total(data[..|data| - 1]) + data[|data| - 1]
  }

  /** `Σ data[i]·(i + 1)` over 0-based indices `i`: each value weighted by its 1-based position. */
  function WeightedSum(data: seq<Byte>): nat
    decreases |data|
  {
    if data == [] then 0 else WeightedSum(data[..|data| - 1]) + data[|data| - 1] * |data|
  }

  /** `a * (b + c) == a * b + a * c`, stated once for the proofs below. */
  lemma Distribute(a: int, b: int, c: int)
    ensures a * (b + c) == a * b + a * c
  {
  }

  /** `(a + b) * c == a * c + b * c`, stated once for the proofs below. */
  lemma AddMul(a: int, b: int, c: int)
    ensures (a + b) * c == a * c + b * c
  {
  }

  /** Multiplying by a non-negative factor keeps the order. */
  lemma ScaleMonotone(a: int, b: int, c: nat)
    requires a <= b
    ensures a * c <= b * c
  {
  }

  /** Every weight lies between 1 and the length, so the weighted sum lies between the two totals. */
  lemma {:induction false} WeightBounds(data: seq<Byte>)
    ensures Total(data) <= WeightedSum(data) <= |data| * Total(data)
    decreases |data|
  {
    if data != [] {
      var n := |data|;
      var prefix, x := data[..n - 1], data[n - 1];
      WeightBounds(prefix);
      var t, w := Total(prefix), WeightedSum(prefix);
      assert Total(data) == t + x;
      assert WeightedSum(data) == w + x * n;
      ScaleMonotone(n - 1, n, t);
      ScaleMonotone(1, n, x);
      Distribute(n, t, x);
    }
  }

  /** A ratio whose numerator lies between one and `n` times its positive denominator lies in `[1, n]`. */
  lemma RatioBounds(w: real, t: real, n: real)
    requires 0.0 < t && t <= w <= n * t
    ensures 1.0 <= w / t <= n
  {
    assert w / t * t == w;
  }

  /** The line position computed from one reading. */
  function LinePosition(data: seq<Byte>): (p: real)
    ensures Total(data) == 0 ==> p == 0.0
    ensures Total(data) > 0 ==> 1.0 <= p <= |data| as real
  {
    var total := Total(data);
    if total == 0 then 0.0
    else
      WeightBounds(data);
      RatioBounds(WeightedSum(data) as real, total as real, |data| as real);
      WeightedSum(data) as real / total as real
  }

  /** A reading in which every element is 0 has both sums 0. */
  lemma {:induction false} DarkSums(data: seq<Byte>)
    requires forall j :: 0 <= j < |data| ==> data[j] == 0
    ensures Total(data) == 0 && WeightedSum(data) == 0
    decreases |data|
  {
    if data != [] {
      DarkSums(data[..|data| - 1]);
    }
  }

  /** The sums of a reading with a single non-zero element at index `i`. */
  lemma {:induction false} SingleContactSums(data: seq<Byte>, i: nat)
    requires i < |data|
    requires forall j :: 0 <= j < |data| && j != i ==> data[j] == 0
    ensures Total(data) == data[i] && WeightedSum(data) == data[i] * (i + 1)
    decreases |data|
  {
    var prefix := data[..|data| - 1];
    if i == |data| - 1 {
      DarkSums(prefix);
    } else {
      SingleContactSums(prefix, i);
    }
  }

  /** A reading with exactly one non-zero element, at 0-based index `i`, is at position `i + 1`. */
  lemma SingleContact(data: seq<Byte>, i: nat)
    requires i < |data| && data[i] > 0
    requires forall j :: 0 <= j < |data| && j != i ==> data[j] == 0
    ensures LinePosition(data) == (i + 1) as real
  {
    SingleContactSums(data, i);
  }

  /** The sums of a reading whose elements all equal `v`. */
  lemma {:induction false} UniformSums(data: seq<Byte>, v: Byte)
    requires forall j :: 0 <= j < |data| ==> data[j] == v
    ensures Total(data) == |data| * v
    ensures 2 * WeightedSum(data) == (|data| * (|data| + 1)) * v
    decreases |data|
  {
    if data != [] {
      var n := |data|;
      UniformSums(data[..n - 1], v);
      AddMul(n - 1, 1, v);
      assert 2 * WeightedSum(data) == ((n - 1) * n) * v + (2 * n) * v;
      AddMul((n - 1) * n, 2 * n, v);
      Distribute(n, n, 1);
      AddMul(n, -1, n);
    }
  }

  /** A non-zero reading whose elements are all equal is at the centre, `(N + 1) / 2`: 4.5 for 8 elements. */
  lemma UniformReading(data: seq<Byte>, v: Byte)
    requires |data| > 0 && v > 0
    requires forall j :: 0 <= j < |data| ==> data[j] == v
    ensures LinePosition(data) == (|data| + 1) as real / 2.0
    ensures |data| == ElementCount ==> LinePosition(data) == 4.5
  {
    var n := |data|;
    UniformSums(data, v);
    CastMul(n, v);
    CastMul(n * (n + 1), v);
    CastMul(n, n + 1);
    CentreRatio(n as real, v as real, Total(data) as real, WeightedSum(data) as real);
  }

  /** Conversion to `real` distributes over a product. */
  lemma CastMul(a: int, b: int)
    ensures (a * b) as real == a as real * b as real
  {
  }

  /** The ratio of the sums of a uniform reading. */
  lemma CentreRatio(n: real, v: real, t: real, w: real)
    requires n > 0.0 && v > 0.0
    requires t == n * v && 2.0 * w == (n * (n + 1.0)) * v
    ensures w / t == (n + 1.0) / 2.0
  {
    var q := (n + 1.0) / 2.0;
    assert w == t * q;
    QuotientOfProduct(t, q);
    assert w / t == (t * q) / t;
  }

  /** `(q * t) / t == q` for a positive `t`. */
  lemma QuotientOfProduct(t: real, q: real)
    requires t > 0.0
    ensures (t * q) / t == q
  {
  }

  /** The reading in reverse index order. */
  function Reverse(data: seq<Byte>): (r: seq<Byte>)
    ensures |r| == |data|
    ensures forall i :: 0 <= i < |data| ==> r[i] == data[|data| - 1 - i]
    decreases |data|
  {
    if data == [] then [] else [data[|data| - 1]] + Reverse(data[..|data| - 1])
  }

  /** Putting an element in front shifts every other weight up by one. */
  lemma {:induction false} PrependSums(x: Byte, data: seq<Byte>)
    ensures Total([x] + data) == x + Total(data)
    ensures WeightedSum([x] + data) == x + WeightedSum(data) + Total(data)
    decreases |data|
  {
    if data == [] {
      assert [x] + data == [x];
      assert [x][..0] == [];
    } else {
      var n := |data|;
      var prefix, y := data[..n - 1], data[n - 1];
      assert ([x] + data)[..n] == [x] + prefix;
      PrependSums(x, prefix);
      assert WeightedSum([x] + data) == WeightedSum([x] + prefix) + y * (n + 1);
    }
  }

  /** Reversal keeps the total and mirrors every weight `k` to `N + 1 - k`. */
  lemma {:induction false} ReverseSums(data: seq<Byte>)
    ensures Total(Reverse(data)) == Total(data)
    ensures WeightedSum(Reverse(data)) == (|data| + 1) * Total(data) - WeightedSum(data)
    decreases |data|
  {
    if data != [] {
      var n := |data|;
      var prefix, x := data[..n - 1], data[n - 1];
      var tp := Total(prefix);
      assert Reverse(data) == [x] + Reverse(prefix);
      ReverseSums(prefix);
      PrependSums(x, Reverse(prefix));
      var wp := WeightedSum(prefix);
      assert WeightedSum(Reverse(data)) == x + (n * tp - wp) + tp;
      assert Total(data) == tp + x;
      assert WeightedSum(data) == wp + x * n;
      Distribute(n + 1, tp, x);
      AddMul(n, 1, tp);
      AddMul(n, 1, x);
    }
  }

  /** `((n + 1) * t - w) / t == (n + 1) - w / t` for a positive `t`. */
  lemma MirrorRatio(n: real, t: real, w: real)
    requires t > 0.0
    ensures ((n + 1.0) * t - w) / t == (n + 1.0) - w / t
  {
    var q := w / t;
    assert q * t == w;
    var m := (n + 1.0) - q;
    assert t * m == (n + 1.0) * t - w;
    QuotientOfProduct(t, m);
    assert ((n + 1.0) * t - w) / t == (t * m) / t;
  }

  /** The ratio of the mirrored sums, from their integer relation. */
  lemma MirrorPosition(len: nat, total: nat, weighted: nat, mirrored: int)
    requires total > 0
    requires mirrored == (len + 1) * total - weighted
    ensures mirrored as real / total as real == (len + 1) as real - weighted as real / total as real
  {
    CastMul(len + 1, total);
    MirrorRatio(len as real, total as real, weighted as real);
  }

  /** Reading the array in reverse order mirrors the position: `N + 1 - p`, so `9 - p` for 8 elements. */
  lemma MirroredReading(data: seq<Byte>)
    requires Total(data) > 0
    ensures LinePosition(Reverse(data)) == (|data| + 1) as real - LinePosition(data)
    ensures |data| == ElementCount ==> LinePosition(Reverse(data)) == 9.0 - LinePosition(data)
  {
    var mirrored := Reverse(data);
    ReverseSums(data);
    MirrorPosition(|data|, Total(data), WeightedSum(data), WeightedSum(mirrored));
  }

  /** The acquisition modes `set_mode` accepts. */
  predicate IsMode(mode: string)
  {
    mode == "CAL" || mode == "RAW"
  }

  /** The line-frequency commands `set_frequency` accepts. */
  predicate IsFrequency(mode: string)
  {
    mode == "50HZ" || mode == "60HZ" || mode == "UNIVERSAL"
  }

  /**
   * The sensor's Python-side state: the acquisition mode, and the commands
   * written to the device so far, oldest first.
   */
  class LightArraySensor {
    var mode: string
    var commands: seq<string>

    constructor ()
      ensures mode == "CAL" && commands == []
    {
      mode := "CAL";
      commands := [];
    }

    /** Select "CAL" or "RAW"; any other mode raises and changes nothing. */
    method SetMode(mode: string) returns (r: Outcome)
      modifies this`mode
      ensures r.Pass? <==> IsMode(mode)
      ensures this.mode == if r.Pass? then mode else old(this.mode)
      ensures commands == old(commands)
    {
      if !IsMode(mode) {
        return Fail("Invalid mode. Use 'CAL' or 'RAW'.");
      }
      this.mode := mode;
      r := Pass;
    }

    /** Write a line-frequency command; any other argument raises before anything is written. */
    method SetFrequency(mode: string) returns (r: Outcome)
      modifies this`commands
      ensures r.Pass? <==> IsFrequency(mode)
      ensures commands == if r.Pass? then old(commands) + [mode] else old(commands)
      ensures this.mode == old(this.mode)
    {
      if !IsFrequency(mode) {
        return Fail("Invalid frequency mode. Use '50HZ', '60HZ', or 'UNIVERSAL'.");
      }
      commands := commands + [mode];
      r := Pass;
    }
  }
}
