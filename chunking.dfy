/**
 * The chunking step of summarization (api/app.py, lines 116-117): one slice of the body, up to
 * 5000 characters long, for every start position the range from zero to the body's length in
 * steps of 5000 produces.
 */
module Chunking {
  import opened Text

  /** `max_chunk_size` in the source. */
  const MaxChunkSize: nat := 5000

  /** Ceiling of `n / d`. */
  function CeilDiv(n: nat, d: nat): nat
    requires d > 0
  {
    (n + d - 1) / d
  }

  /** Python's `range(start, stop, 5000)` for non-negative bounds. */
  function ChunkStarts(start: nat, stop: nat): seq<nat>
    decreases stop - start
  {
    if start >= stop then [] else [start] + ChunkStarts(start + MaxChunkSize, stop)
  }

  /** Python's `s[lo:hi]` for non-negative bounds: both are clamped to the length, an empty slice when `lo >= hi`. */
  function Slice(s: string, lo: nat, hi: nat): string
  {
    var h := if hi < |s| then hi else |s|;
    var l := if lo < h then lo else h;
    s[l..h]
  }

  /** The list comprehension of the source: one slice of the body per start of the range. */
  function Chunks(body: string): seq<string>
  {
    var starts := ChunkStarts(0, |body|);
    seq(|starts|, j requires 0 <= j < |starts| => Slice(body, starts[j], starts[j] + MaxChunkSize))
  }

  /** `range(start, stop, 5000)` has ceil((stop - start) / 5000) elements, the j-th being start + 5000 * j. */
  lemma {:induction false} ChunkStartsShape(start: nat, stop: nat)
    ensures |ChunkStarts(start, stop)| == if start >= stop then 0 else CeilDiv(stop - start, MaxChunkSize)
    ensures forall j :: 0 <= j < |ChunkStarts(start, stop)| ==>
      ChunkStarts(start, stop)[j] == start + j * MaxChunkSize < stop
    decreases stop - start
  {
    if start < stop {
      var rest := ChunkStarts(start + MaxChunkSize, stop);
      ChunkStartsShape(start + MaxChunkSize, stop);
      assert ChunkStarts(start, stop) == [start] + rest;
      forall j | 0 < j < |ChunkStarts(start, stop)|
        ensures ChunkStarts(start, stop)[j] == start + j * MaxChunkSize
      {
        assert ChunkStarts(start, stop)[j] == rest[j - 1];
      }
    }
  }

  /**
   * Chunk `j` is the body's characters from `5000 * j` on: exactly 5000 of them for every chunk
   * but the last, and at least one and at most 5000 for the last. So the chunks are contiguous,
   * do not overlap, and start at exact multiples of 5000.
   */
  lemma ChunkAt(body: string, j: nat)
    requires j < |Chunks(body)|
    ensures j * MaxChunkSize < |body|
    ensures 0 < |Chunks(body)[j]| <= MaxChunkSize
    ensures j < |Chunks(body)| - 1 ==> |Chunks(body)[j]| == MaxChunkSize
    ensures j * MaxChunkSize + |Chunks(body)[j]| <= |body|
    ensures j * MaxChunkSize + |Chunks(body)[j]| < |body| ==> j < |Chunks(body)| - 1
    ensures Chunks(body)[j] == body[j * MaxChunkSize .. j * MaxChunkSize + |Chunks(body)[j]|]
  {
    var starts := ChunkStarts(0, |body|);
    ChunkStartsShape(0, |body|);
    var lo := j * MaxChunkSize;
    assert starts[j] == lo;
    var hi := if lo + MaxChunkSize < |body| then lo + MaxChunkSize else |body|;
    assert Chunks(body)[j] == Slice(body, lo, lo + MaxChunkSize) == body[lo..hi];
    if j < |starts| - 1 {
      assert starts[j + 1] == lo + MaxChunkSize < |body|;
    } else {
      assert |starts| == CeilDiv(|body|, MaxChunkSize);
      assert hi == |body|;
    }
  }

  /** The number of chunks, and so of model calls, is ceil(len(body) / 5000). */
  lemma ChunkCount(body: string)
    ensures |Chunks(body)| == CeilDiv(|body|, MaxChunkSize)
    ensures |body| == 0 <==> |Chunks(body)| == 0
    ensures |body| > 0 ==> (|Chunks(body)| - 1) * MaxChunkSize < |body| <= |Chunks(body)| * MaxChunkSize
  {
    ChunkStartsShape(0, |body|);
  }

  /** Concatenating the first `k` chunks gives the body's first `5000 * k` characters (or all of it). */
  lemma {:induction false} ChunksPrefix(body: string, k: nat)
    requires k <= |Chunks(body)|
    ensures Concat(Chunks(body)[..k]) == body[..if k * MaxChunkSize < |body| then k * MaxChunkSize else |body|]
  {
    if k > 0 {
      var chunks := Chunks(body);
      ChunksPrefix(body, k - 1);
      ChunkAt(body, k - 1);
      assert chunks[..k][..k - 1] == chunks[..k - 1];
      var lo := (k - 1) * MaxChunkSize;
      var hi := lo + |chunks[k - 1]|;
      ChunkCount(body);
      assert hi == if k * MaxChunkSize < |body| then k * MaxChunkSize else |body|;
      assert body[..lo] + body[lo..hi] == body[..hi];
    }
  }

  /** The chunks, concatenated in order, give back exactly the body. */
  lemma ChunksConcat(body: string)
    ensures Concat(Chunks(body)) == body
  {
    var chunks := Chunks(body);
    ChunksPrefix(body, |chunks|);
    ChunkCount(body);
    assert chunks[..|chunks|] == chunks;
  }

  /** A non-empty body of at most 5000 characters is a single chunk, itself. */
  lemma ChunksOfShortBody(body: string)
    requires 0 < |body| <= MaxChunkSize
    ensures Chunks(body) == [body]
  {
    var chunks := Chunks(body);
    ChunkCount(body);
    assert |chunks| == 1;
    ChunkAt(body, 0);
    assert chunks[0] == body[0..|body|] == body;
  }
}
