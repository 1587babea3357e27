/** Signed 16-bit little-endian PCM: a sequence of samples as the bytes the
    engine writes, their decoding, and writes of byte runs into a buffer. */
module Pcm {
  import opened JavaNum

  /** The two bytes of one sample, low byte first. */
  function Pair(v: Short): seq<Byte>
  {
    [LowByte(v), HighByte(v)]
  }

  /** Samples as little-endian byte pairs, one pair per sample in order. */
  function Encode(samples: seq<Short>): (bytes: seq<Byte>)
    ensures |bytes| == 2 * |samples|
  {
    if samples == [] then []
    else Encode(samples[..|samples| - 1]) + Pair(samples[|samples| - 1])
  }

  /** Encoding one more sample appends its byte pair. */
  lemma EncodeSnoc(samples: seq<Short>, v: Short)
    ensures Encode(samples + [v]) == Encode(samples) + Pair(v)
  {
    assert (samples + [v])[..|samples|] == samples;
  }

  /** Sample k of the input sits at bytes 2k (low byte) and 2k+1 (high byte). */
  lemma {:induction false} EncodeAt(samples: seq<Short>, k: int)
    requires 0 <= k < |samples|
    ensures Encode(samples)[2 * k] == LowByte(samples[k])
    ensures Encode(samples)[2 * k + 1] == HighByte(samples[k])
  {
    var n := |samples| - 1;
    if k < n {
      EncodeAt(samples[..n], k);
    }
  }

  /** Reads byte pairs back as samples. */
  function Decode(bytes: seq<Byte>): (samples: seq<Short>)
    requires |bytes| % 2 == 0
  {
    if bytes == [] then [] else [Decode16(bytes[0], bytes[1])] + Decode(bytes[2..])
  }

  /** A freshly allocated Java byte array: all zero. */
  function Zeros(n: nat): seq<Byte>
  {
    seq(n, _ => 0)
  }

  /** Encoding a concatenation encodes its parts one after the other. */
  lemma {:induction false} EncodeAppend(x: seq<Short>, y: seq<Short>)
    ensures Encode(x + y) == Encode(x) + Encode(y)
    decreases |y|
  {
    if y != [] {
      var n := |y| - 1;
      assert x + y == (x + y[..n]) + [y[n]];
      assert y == y[..n] + [y[n]];
      EncodeSnoc(x + y[..n], y[n]);
      EncodeSnoc(y[..n], y[n]);
      EncodeAppend(x, y[..n]);
    } else {
      assert x + y == x;
    }
  }

  /** Decoding the written bytes gives back exactly the samples. */
  lemma {:induction false} DecodeEncode(samples: seq<Short>)
    ensures Decode(Encode(samples)) == samples
  {
    if samples != [] {
      var first, rest := samples[0], samples[1..];
      assert [first] == [] + [first];
      EncodeSnoc([], first);
      EncodeAppend([first], rest);
      assert samples == [first] + rest;
      var bytes := Encode(samples);
      assert bytes == Pair(first) + Encode(rest);
      assert bytes[2..] == Encode(rest);
      EncodeDecode16(first);
      DecodeEncode(rest);
    }
  }

  /** Silence encodes as zero bytes. */
  lemma {:induction false} EncodeSilence(samples: seq<Short>)
    requires forall k :: 0 <= k < |samples| ==> samples[k] == 0
    ensures Encode(samples) == Zeros(2 * |samples|)
  {
    if samples != [] {
      var n := |samples| - 1;
      EncodeSilence(samples[..n]);
      assert LowByte(0) == 0 && HighByte(0) == 0;
      assert Zeros(2 * n) + Pair(0) == Zeros(2 * n + 2);
    }
  }

  /** Two runs of zeros make one. */
  lemma ZerosAppend(m: nat, n: nat)
    ensures Zeros(m) + Zeros(n) == Zeros(m + n)
  {
  }

  // ------------------------------------------------------------ buffer writes

  /** `base` with `bytes` written over it from position `start` on, one byte
      after the other. */
  function Splice(base: seq<Byte>, start: int, bytes: seq<Byte>): (r: seq<Byte>)
    requires 0 <= start && start + |bytes| <= |base|
    ensures |r| == |base|
    decreases |bytes|
  {
    if bytes == [] then base
    else
      var n := |bytes| - 1;
      Splice(base, start, bytes[..n])[start + n := bytes[n]]
  }

  /** Inside the written region the buffer holds the bytes written, outside it
      the old bytes. */
  lemma {:induction false} SpliceAt(base: seq<Byte>, start: int, bytes: seq<Byte>, j: int)
    requires 0 <= start && start + |bytes| <= |base| && 0 <= j < |base|
    ensures Splice(base, start, bytes)[j] == if start <= j < start + |bytes| then bytes[j - start] else base[j]
    decreases |bytes|
  {
    if bytes != [] {
      var n := |bytes| - 1;
      if j != start + n {
        SpliceAt(base, start, bytes[..n], j);
      }
    }
  }

  /** Writing the byte pair of sample `i` of a segment right after the bytes
      of samples `0..i-1` extends the written region to samples `0..i`. */
  lemma SpliceNext(base: seq<Byte>, start: int, samples: seq<Short>, i: int)
    requires 0 <= start && 0 <= i < |samples| && start + 2 * |samples| <= |base|
    ensures var p := start + 2 * i;
      Splice(base, start, Encode(samples[..i + 1]))
        == Splice(base, start, Encode(samples[..i]))[p := LowByte(samples[i])][p + 1 := HighByte(samples[i])]
  {
    assert samples[..i + 1] == samples[..i] + [samples[i]];
    SpliceStep(base, start, samples[..i], samples[i]);
  }

  /** Writing the byte pair of one more sample right after the bytes already
      written extends the written region by that pair. */
  lemma SpliceStep(base: seq<Byte>, start: int, done: seq<Short>, v: Short)
    requires 0 <= start && start + 2 * |done| + 2 <= |base|
    ensures var p := start + 2 * |done|;
      Splice(base, start, Encode(done + [v]))
        == Splice(base, start, Encode(done))[p := LowByte(v)][p + 1 := HighByte(v)]
  {
    var bytes := Encode(done);
    var lo, hi := LowByte(v), HighByte(v);
    EncodeSnoc(done, v);
    var more := bytes + [lo, hi];
    assert Encode(done + [v]) == more;
    assert more[..|bytes| + 1] == bytes + [lo];
    assert (bytes + [lo])[..|bytes|] == bytes;
  }

  /** Writing three segments one after the other is writing their concatenation. */
  lemma SpliceThree(base: seq<Byte>, p: int, q: int, x: seq<Byte>, y: seq<Byte>, z: seq<Byte>)
    requires p == |x| && q == |x| + |y| && |x| + |y| + |z| <= |base|
    ensures Splice(Splice(Splice(base, 0, x), p, y), q, z) == Splice(base, 0, x + y + z)
  {
    var a := Splice(base, 0, x);
    var b := Splice(a, |x|, y);
    var c := Splice(b, |x| + |y|, z);
    var d := Splice(base, 0, x + y + z);
    forall j | 0 <= j < |base|
      ensures c[j] == d[j]
    {
      SpliceAt(base, 0, x, j);
      SpliceAt(a, |x|, y, j);
      SpliceAt(b, |x| + |y|, z, j);
      SpliceAt(base, 0, x + y + z, j);
      if j < |x| {
        assert (x + y + z)[j] == x[j];
      } else if j < |x| + |y| {
        assert (x + y + z)[j] == y[j - |x|];
      } else if j < |x| + |y| + |z| {
        assert (x + y + z)[j] == z[j - |x| - |y|];
      }
    }
  }

  /** Writing bytes that are already there changes nothing. */
  lemma SpliceSame(base: seq<Byte>, bytes: seq<Byte>)
    requires |bytes| <= |base| && base[..|bytes|] == bytes
    ensures Splice(base, 0, bytes) == base
  {
    forall j | 0 <= j < |base|
      ensures Splice(base, 0, bytes)[j] == base[j]
    {
      SpliceAt(base, 0, bytes, j);
      if j < |bytes| {
        assert base[..|bytes|][j] == base[j];
      }
    }
  }

  /** After writing from position 0 on, the buffer starts with the bytes written. */
  lemma SplicePrefix(base: seq<Byte>, bytes: seq<Byte>)
    requires |bytes| <= |base|
    ensures Splice(base, 0, bytes)[..|bytes|] == bytes
  {
    forall j | 0 <= j < |bytes|
      ensures Splice(base, 0, bytes)[j] == bytes[j]
    {
      SpliceAt(base, 0, bytes, j);
    }
  }
}
