/** `chunked(seq, size)`: consecutive slices `seq[i:i+size]` for
    `i = 0, size, 2*size, ...` below `len(seq)`; the last slice is cut
    short at the end of the sequence. */
module Chunking {

  /** The slices `chunked` yields, in order. */
  function Chunks<T>(s: seq<T>, size: nat): seq<seq<T>>
    requires size > 0
    decreases |s|
  {
    if s == [] then []
    else
      var end := if size < |s| then size else |s|;
      [s[..end]] + Chunks(s[end..], size)
  }

  /** The concatenation of a sequence of slices. */
  function Flatten<T>(chunks: seq<seq<T>>): seq<T>
  {
    if chunks == [] then [] else chunks[0] + Flatten(chunks[1..])
  }

  /** The generator loop: step `i` by `size`, slicing each time. */
  method Chunked<T>(s: seq<T>, size: nat) returns (chunks: seq<seq<T>>)
    requires size > 0
    ensures chunks == Chunks(s, size)
  {
    chunks := [];
    var i := 0;
    while i < |s|
      invariant 0 <= i <= |s|
      invariant chunks + Chunks(s[i..], size) == Chunks(s, size)
    {
      var end := if i + size < |s| then i + size else |s|;
      assert s[i..][..end - i] == s[i..end];
      assert s[i..][end - i..] == s[end..];
      chunks := chunks + [s[i..end]];
      i := end;
    }
    assert s[i..] == [];
  }

  /** Concatenating the chunks gives back the input. */
  lemma {:induction false} FlattenChunks<T>(s: seq<T>, size: nat)
    requires size > 0
    ensures Flatten(Chunks(s, size)) == s
    decreases |s|
  {
    if s != [] {
      var end := if size < |s| then size else |s|;
      var c := Chunks(s, size);
      assert c[0] == s[..end] && c[1..] == Chunks(s[end..], size);
      FlattenChunks(s[end..], size);
      assert s[..end] + s[end..] == s;
    }
  }

  /** Every chunk is non-empty and at most `size` long, and every chunk
      but the last is exactly `size` long. */
  lemma {:induction false} ChunkSizes<T>(s: seq<T>, size: nat)
    requires size > 0
    ensures forall k :: 0 <= k < |Chunks(s, size)| ==> 0 < |Chunks(s, size)[k]| <= size
    ensures forall k :: 0 <= k < |Chunks(s, size)| - 1 ==> |Chunks(s, size)[k]| == size
    decreases |s|
  {
    if s != [] {
      var end := if size < |s| then size else |s|;
      var c := Chunks(s, size);
      var rest := Chunks(s[end..], size);
      assert c == [s[..end]] + rest;
      ChunkSizes(s[end..], size);
      assert |c[0]| == end;
      if end < size {
        assert s[end..] == [] && rest == [];
      }
      forall k | 1 <= k < |c|
        ensures 0 < |c[k]| <= size && (k < |c| - 1 ==> |c[k]| == size)
      {
        assert c[k] == rest[k - 1];
      }
    }
  }

  /** There are ceil(n / size) chunks; in particular none for an empty input. */
  lemma {:induction false} ChunkCount<T>(s: seq<T>, size: nat)
    requires size > 0
    ensures |Chunks(s, size)| == (|s| + size - 1) / size
    decreases |s|
  {
    if s == [] {
      DivUnique(size - 1, size, 0, size - 1);
    } else if |s| <= size {
      assert s[|s|..] == [];
      DivUnique(|s| + size - 1, size, 1, |s| - 1);
    } else {
      ChunkCount(s[size..], size);
      DivPlusOne(|s| - 1, size);
    }
  }

  lemma DivPlusOne(x: nat, d: nat)
    requires d > 0
    ensures (x + d) / d == x / d + 1
  {
    var q, r := x / d, x % d;
    assert x + d == (q + 1) * d + r;
    DivUnique(x + d, d, q + 1, r);
  }

  /** Euclidean division has one quotient. */
  lemma DivUnique(x: nat, d: nat, q: nat, r: nat)
    requires d > 0 && r < d && x == q * d + r
    ensures x / d == q
  {
    var q', r' := x / d, x % d;
    assert q' * d + r' == q * d + r;
    if q' > q {
      MulStep(q, q', d);
    } else if q' < q {
      MulStep(q', q, d);
    }
  }

  lemma MulStep(a: nat, b: nat, d: nat)
    requires a < b
    ensures a * d + d <= b * d
  {
    assert b * d == a * d + (b - a) * d;
    MulAtLeast(b - a, d);
  }

  lemma MulAtLeast(a: nat, d: nat)
    requires a >= 1
    ensures a * d >= d
  {
  }
}
