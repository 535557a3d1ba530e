/** The positional split of the summary text in `get_gemini_analysis`:
    consecutive slices of at most `ChunkSize` characters. */
module Chunking {
  import opened Text

  /** The largest number of characters sent to the model in one request. */
  const ChunkSize: nat := 100000

  /** Python's `[s[i:i + ChunkSize] for i in range(0, len(s), ChunkSize)]`:
      non-empty slices, none longer than `ChunkSize`, ceil(|s| / ChunkSize) of
      them, which put back together give `s`. */
  function Chunks(s: string): (r: seq<string>)
    ensures forall i :: 0 <= i < |r| ==> 0 < |r[i]| <= ChunkSize
    ensures |r| == (|s| + ChunkSize - 1) / ChunkSize
    ensures Concat(r) == s
    decreases |s|
  {
    if |s| == 0 then []
    else if |s| <= ChunkSize then
      assert Concat([s]) == s + Concat([]);
      [s]
    else
      var rest := Chunks(s[ChunkSize..]);
      var r := [s[..ChunkSize]] + rest;
      assert r[1..] == rest;
      assert Concat(r) == s[..ChunkSize] + Concat(rest);
      r
  }

  /** Chunk `k` is the slice of `s` that starts at `k * ChunkSize`: boundaries
      are purely positional. */
  lemma {:induction false} ChunkAt(s: string, k: nat)
    requires k < |Chunks(s)|
    ensures k * ChunkSize < |s|
    ensures Chunks(s)[k] == s[k * ChunkSize..Min((k + 1) * ChunkSize, |s|)]
  {
    if k > 0 {
      var rest := s[ChunkSize..];
      assert Chunks(s)[k] == Chunks(rest)[k - 1];
      ChunkAt(rest, k - 1);
      ShiftedSlice(s, k);
    }
  }

  /** The window of chunk `k - 1` in `s[ChunkSize..]` is the window of chunk `k` in `s`. */
  lemma ShiftedSlice(s: string, k: nat)
    requires 0 < k && ChunkSize < |s| && (k - 1) * ChunkSize < |s| - ChunkSize
    ensures var rest := s[ChunkSize..];
            rest[(k - 1) * ChunkSize..Min(k * ChunkSize, |rest|)]
            == s[k * ChunkSize..Min((k + 1) * ChunkSize, |s|)]
  {
    var rest := s[ChunkSize..];
    var lo, hi := (k - 1) * ChunkSize, Min(k * ChunkSize, |rest|);
    assert lo + ChunkSize == k * ChunkSize;
    assert hi + ChunkSize == Min((k + 1) * ChunkSize, |s|);
  }

  /** The list comprehension as the loop it stands for: one slice per step of
      `range(0, len(s), ChunkSize)`. */
  method SplitIntoChunks(s: string) returns (chunks: seq<string>)
    ensures chunks == Chunks(s)
  {
    chunks := [];
    var i := 0;
    while i < |s|
      invariant i == |chunks| * ChunkSize
      invariant chunks == [] || (|chunks| - 1) * ChunkSize < |s|
      invariant forall k :: 0 <= k < |chunks| ==>
                  chunks[k] == s[k * ChunkSize..Min((k + 1) * ChunkSize, |s|)]
    {
      chunks := chunks + [s[i..Min(i + ChunkSize, |s|)]];
      i := i + ChunkSize;
    }
    assert |chunks| == |Chunks(s)|;
    forall k | 0 <= k < |chunks|
      ensures chunks[k] == Chunks(s)[k]
    {
      ChunkAt(s, k);
    }
  }
}
