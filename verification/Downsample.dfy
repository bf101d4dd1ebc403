/** The bounded series of a node's metric samples. */
module Downsample {

  datatype Sample = Sample(ts: int, value: real)

  const MAX_POINTS := 500

  /** The caller's limit when it is positive and smaller. */
  function Cap(limit: int): (cap: nat)
    ensures 1 <= cap <= MAX_POINTS
    ensures limit <= 0 || limit >= 500 ==> cap == 500
    ensures 0 < limit <= 500 ==> cap == limit
  {
    if limit > 0 && limit < MAX_POINTS then limit else MAX_POINTS
  }

  /** n divided by cap, rounded up. */
  function Stride(n: nat, cap: nat): nat
    requires cap > 0
  {
    (n + cap - 1) / cap
  }

  /** With this gap `cap` samples span a series of `n`, and with a smaller one they do not. */
  predicate Spans(gap: nat, cap: nat, n: nat) {
    (gap - 1) * cap < n <= gap * cap
  }

  lemma StrideCovers(n: nat, cap: nat)
    requires cap > 0
    ensures n <= Stride(n, cap) * cap && (n > 0 ==> Stride(n, cap) > 0)
    ensures n > 0 ==> Spans(Stride(n, cap), cap, n)
  {
    var a := n + cap - 1;
    assert a == (a / cap) * cap + a % cap;
    assert (a / cap - 1) * cap == (a / cap) * cap - cap;
  }

  /** Where a multiple of `d` lies between consecutive multiples. */
  lemma NextMultiple(i: nat, q: nat, d: nat)
    requires d > 0 && (q > 0 ==> (q - 1) * d < i) && i <= q * d
    ensures i % d == 0 <==> i == q * d
  {
    var m := i / d;
    assert i == m * d + i % d && (m + 1) * d == m * d + d;
    if m >= q {
      Monotone(q, m, d);
    } else {
      Monotone(m + 1, q, d);
      Monotone(m, q - 1, d);
    }
    if m + 1 < q {
      Monotone(m + 1, q - 1, d);
    }
  }

  lemma Monotone(a: int, b: int, d: nat)
    requires a <= b
    ensures a * d <= b * d
  {
  }

  lemma Above(a: int, b: int, d: nat)
    requires a * d < b * d
    ensures a < b
  {
    if b <= a {
      Monotone(b, a, d);
    }
  }

  /** `idx` are the positions of the kept samples: in order, the first sample first, with bounded gaps. */
  ghost predicate Keeps(raw: seq<Sample>, out: seq<Sample>, idx: seq<nat>, gap: nat) {
    && |out| == |idx|
    && (forall k :: 0 <= k < |idx| ==> idx[k] < |raw| && out[k] == raw[idx[k]])
    && (forall k :: 0 < k < |idx| ==> idx[k - 1] < idx[k] <= idx[k - 1] + gap)
    && (raw != [] ==> |idx| > 0 && idx[0] == 0 && |raw| <= idx[|idx| - 1] + gap)
  }

  /** The last sample is kept, or there is no room for it, or a kept sample has its time. */
  predicate EndsWell(raw: seq<Sample>, out: seq<Sample>, idx: seq<nat>, cap: nat) {
    raw != [] && |idx| > 0 && |out| == |idx| ==>
      idx[|idx| - 1] == |raw| - 1 || |out| == cap || out[|out| - 1].ts == raw[|raw| - 1].ts
  }

  /** The gap is the least with which the capped number of samples can span the series. */
  method Sampled(raw: seq<Sample>, limit: int) returns (out: seq<Sample>, ghost idx: seq<nat>, ghost gap: nat)
    ensures |out| <= Cap(limit) && (|raw| <= Cap(limit) ==> out == raw)
    ensures Keeps(raw, out, idx, gap) && EndsWell(raw, out, idx, Cap(limit))
    ensures raw != [] ==> Spans(gap, Cap(limit), |raw|)
  {
    if |raw| == 0 {
      return [], [], 1;
    }
    var cap := Cap(limit);
    if |raw| <= cap {
      assert Spans(1, cap, |raw|);
      return raw, seq(|raw|, i => i), 1;
    }
    hide Spans, Stride;
    var stride := Stride(|raw|, cap);
    gap := stride;
    StrideCovers(|raw|, cap);
    out, idx := Strided(raw, stride, cap);
    if |out| < cap {
      if out[|out| - 1].ts != raw[|raw| - 1].ts {
        Appended(raw, out, idx, stride);
        out, idx := out + [raw[|raw| - 1]], idx + [|raw| - 1];
      }
    }
  }

  lemma Appended(raw: seq<Sample>, out: seq<Sample>, idx: seq<nat>, gap: nat)
    requires raw != [] && gap > 0 && Keeps(raw, out, idx, gap) && out[|out| - 1].ts != raw[|raw| - 1].ts
    ensures Keeps(raw, out + [raw[|raw| - 1]], idx + [|raw| - 1], gap)
  {
    var idx2, out2 := idx + [|raw| - 1], out + [raw[|raw| - 1]];
    forall k | 0 < k < |idx2| ensures idx2[k - 1] < idx2[k] <= idx2[k - 1] + gap {
      assert k < |idx| ==> idx[k - 1] < idx[k] <= idx[k - 1] + gap;
    }
  }

  method Strided(raw: seq<Sample>, stride: nat, cap: nat) returns (out: seq<Sample>, ghost idx: seq<nat>)
    requires raw != [] && 0 < stride && |raw| <= stride * cap
    ensures Keeps(raw, out, idx, stride) && |out| <= cap
  {
    out, idx := [], [];
    for i := 0 to |raw|
      invariant |out| == |idx| && i <= |idx| * stride && (|idx| > 0 ==> (|idx| - 1) * stride < i)
      invariant forall k :: 0 <= k < |idx| ==> idx[k] < i && idx[k] == k * stride && out[k] == raw[idx[k]]
    {
      NextMultiple(i, |idx|, stride);
      if i % stride == 0 {
        assert (|idx| + 1) * stride == |idx| * stride + stride;
        out := out + [raw[i]];
        idx := idx + [i];
      }
    }
    forall k | 0 < k < |idx| ensures idx[k] == idx[k - 1] + stride {
      assert k * stride == (k - 1) * stride + stride;
    }
    Above(|idx| - 1, cap, stride);
    assert |idx| * stride == (|idx| - 1) * stride + stride;
  }
}
