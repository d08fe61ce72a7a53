/** `slice::chunks`: consecutive pieces of at most `size` elements, in order. */
module Chunking {

  /** Concatenation of a sequence of sequences, in order. */
  function Flatten<T>(cs: seq<seq<T>>): seq<T>
  {
    if cs == [] then [] else cs[0] + Flatten(cs[1..])
  }

  lemma {:induction false} FlattenAppend<T>(a: seq<seq<T>>, b: seq<seq<T>>)
    ensures Flatten(a + b) == Flatten(a) + Flatten(b)
  {
    if a == [] {
      assert a + b == b;
    } else {
      assert (a + b)[1..] == a[1..] + b;
      FlattenAppend(a[1..], b);
    }
  }

  /** The chunks `records.chunks(size)` yields: every chunk is non-empty and at most
      `size` long, and only the last may be shorter than `size`. Rust panics for a
      size of zero; callers handle that case before asking for chunks. */
  function Chunks<T>(s: seq<T>, size: nat): (cs: seq<seq<T>>)
    requires size > 0
    ensures forall i :: 0 <= i < |cs| ==> 0 < |cs[i]| <= size
    ensures forall i :: 0 <= i < |cs| - 1 ==> |cs[i]| == size
    ensures s == [] <==> cs == []
    decreases |s|
  {
    if |s| <= size then
      (if s == [] then [] else [s])
    else
      [s[..size]] + Chunks(s[size..], size)
  }

  /** Concatenating the chunks in order gives back the input exactly. */
  lemma {:induction false} FlattenChunks<T>(s: seq<T>, size: nat)
    requires size > 0
    ensures Flatten(Chunks(s, size)) == s
  {
    if |s| <= size {
      if s != [] {
        assert Flatten([s]) == s + Flatten([]);
      }
    } else {
      var rest := Chunks(s[size..], size);
      assert Chunks(s, size) == [s[..size]] + rest;
      assert ([s[..size]] + rest)[1..] == rest;
      FlattenChunks(s[size..], size);
      assert s[..size] + s[size..] == s;
    }
  }

  /** With n chunks, n * size is the least multiple of size not below |s|
      (n = ceil(|s| / size)), and the last chunk holds what the first n - 1 full
      chunks leave over. */
  lemma {:induction false} ChunkCount<T>(s: seq<T>, size: nat)
    requires size > 0
    ensures var n := |Chunks(s, size)|;
      (n - 1) * size < |s| <= n * size || (s == [] && n == 0)
    ensures s != [] ==>
      var cs := Chunks(s, size);
      |cs[|cs| - 1]| == |s| - (|cs| - 1) * size
    decreases |s|
  {
    if |s| > size {
      var rest := Chunks(s[size..], size);
      ChunkCount(s[size..], size);
      assert Chunks(s, size) == [s[..size]] + rest;
      var m := |rest|;
      assert (m + 1 - 1) * size == m * size;
      assert (m + 1) * size == m * size + size;
      assert m * size == (m - 1) * size + size;
    }
  }
}
