/** `TranscriptTextSplitter` (indexing/text_splitter.py): numbers the pieces
    LangChain's recursive character splitter produces and attaches the
    transcript's metadata. The LangChain splitter itself is a function value;
    the splitter's settings never change after construction, so it is a
    value. */
module TextSplitter {
  import opened Wrappers
  import opened Errors
  import opened Records

  /** `RecursiveCharacterTextSplitter.split_text` for the configured size,
      overlap and separators. */
  type PieceSplitter = string -> seq<string>

  datatype Splitter = Splitter(chunkSize: int, chunkOverlap: int, separators: seq<string>, pieces: PieceSplitter)

  const DefaultSeparators: seq<string> := ["\n\n", "\n", ". ", " ", ""]

  /** `__init__`: each argument falls back when it is None or falsy (0, an
      empty list). */
  function NewSplitter(chunkSize: Option<int>, chunkOverlap: Option<int>, separators: Option<seq<string>>,
                       pieces: PieceSplitter, defaultSize: int, defaultOverlap: int): (s: Splitter)
    ensures s.chunkSize == if chunkSize.Some? && chunkSize.value != 0 then chunkSize.value else defaultSize
    ensures s.chunkOverlap == if chunkOverlap.Some? && chunkOverlap.value != 0 then chunkOverlap.value else defaultOverlap
    ensures s.separators == if separators.Some? && separators.value != [] then separators.value else DefaultSeparators
    ensures s.pieces == pieces
  {
    Splitter(if chunkSize.Some? && chunkSize.value != 0 then chunkSize.value else defaultSize,
             if chunkOverlap.Some? && chunkOverlap.value != 0 then chunkOverlap.value else defaultOverlap,
             if separators.Some? && separators.value != [] then separators.value else DefaultSeparators,
             pieces)
  }

  /** With no arguments the settings' size and overlap are used; explicit
      non-zero values are kept. */
  lemma SplitterDefaults(pieces: PieceSplitter)
    ensures var s := NewSplitter(None, None, None, pieces, 1000, 200);
            s.chunkSize == 1000 && s.chunkOverlap == 200 && s.separators == DefaultSeparators
    ensures var s := NewSplitter(Some(500), Some(100), None, pieces, 1000, 200);
            s.chunkSize == 500 && s.chunkOverlap == 100
    ensures NewSplitter(Some(0), Some(0), Some([]), pieces, 1000, 200) == NewSplitter(None, None, None, pieces, 1000, 200)
  {
  }

  /** The chunk dictionary for piece `i`. */
  function ChunkOf(piece: string, i: int, metadata: Metadata): (c: Chunk)
    ensures c.text == piece && c.chunkId == Some(i) && c.chunkLength == Some(|piece|)
    ensures c.metadata == Some(metadata) && c.embedding.None? && c.embeddingDim.None?
  {
    Chunk(piece, Some(i), Some(|piece|), Some(metadata), None, None)
  }

  /** `metadata or {}`. */
  function MetadataOr(metadata: Option<Metadata>): (m: Metadata)
    ensures metadata.Some? ==> m == metadata.value
    ensures metadata.None? ==> m == map[]
  {
    if metadata.Some? then metadata.value else map[]
  }

  /** `split_text(text, metadata)`: the empty text gives no chunks without
      calling the splitter; otherwise piece i becomes chunk i. */
  method SplitText(s: Splitter, text: string, metadata: Option<Metadata>) returns (chunks: seq<Chunk>)
    ensures text == [] ==> chunks == []
    ensures text != [] ==> |chunks| == |s.pieces(text)|
    ensures text != [] ==> forall i :: 0 <= i < |chunks| ==> chunks[i] == ChunkOf(s.pieces(text)[i], i, MetadataOr(metadata))
  {
    if text == [] {
      return [];
    }
    var textChunks := s.pieces(text);
    chunks := [];
    var idx := 0;
    while idx < |textChunks|
      invariant 0 <= idx <= |textChunks| && |chunks| == idx
      invariant forall i :: 0 <= i < idx ==> chunks[i] == ChunkOf(textChunks[i], i, MetadataOr(metadata))
    {
      chunks := chunks + [ChunkOf(textChunks[idx], idx, MetadataOr(metadata))];
      idx := idx + 1;
    }
  }

  /** The chunk ids of a split are 0, 1, ... in order: distinct, and each
      one is its chunk's position. */
  lemma ChunkIdsArePositions(chunks: seq<Chunk>, pieces: seq<string>, metadata: Metadata)
    requires |chunks| == |pieces|
    requires forall i :: 0 <= i < |chunks| ==> chunks[i] == ChunkOf(pieces[i], i, metadata)
    ensures forall i, j :: 0 <= i < j < |chunks| ==> chunks[i].chunkId != chunks[j].chunkId
    ensures forall i :: 0 <= i < |chunks| ==> chunks[i].chunkId == Some(i) && chunks[i].text == pieces[i]
  {
  }

  /** The dictionary `split_transcript` reads: `text`, `video_id` and
      `language`, each possibly absent. */
  datatype Transcript = Transcript(text: Option<string>, videoId: Option<string>, language: Option<string>)

  /** The metadata every chunk of a transcript carries. */
  function TranscriptMetadata(t: Transcript): (m: Metadata)
    ensures m.Keys == {"video_id", "language", "source", "total_chars"}
    ensures m["video_id"] == MStr(t.videoId.GetOr("unknown")) && m["language"] == MStr(t.language.GetOr("unknown"))
    ensures m["source"] == MStr("youtube") && m["total_chars"] == MInt(|t.text.GetOr("")|)
  {
    map["video_id" := MStr(t.videoId.GetOr("unknown")), "language" := MStr(t.language.GetOr("unknown")),
        "source" := MStr("youtube"), "total_chars" := MInt(|t.text.GetOr("")|)]
  }

  /** `split_transcript(transcript_data)`. */
  method SplitTranscript(s: Splitter, t: Transcript) returns (chunks: seq<Chunk>)
    ensures var text := t.text.GetOr("");
            && (text == [] ==> chunks == [])
            && (text != [] ==>
                  |chunks| == |s.pieces(text)|
                  && forall i :: 0 <= i < |chunks| ==> chunks[i] == ChunkOf(s.pieces(text)[i], i, TranscriptMetadata(t)))
  {
    chunks := SplitText(s, t.text.GetOr(""), Some(TranscriptMetadata(t)));
  }

  /** `split_transcript_into_chunks(transcript_data, chunk_size, chunk_overlap)`. */
  method SplitTranscriptIntoChunks(t: Transcript, chunkSize: Option<int>, chunkOverlap: Option<int>,
                                   pieces: PieceSplitter, defaultSize: int, defaultOverlap: int)
    returns (chunks: seq<Chunk>)
    ensures var text := t.text.GetOr("");
            && (text == [] ==> chunks == [])
            && (text != [] ==>
                  |chunks| == |pieces(text)|
                  && forall i :: 0 <= i < |chunks| ==> chunks[i] == ChunkOf(pieces(text)[i], i, TranscriptMetadata(t)))
  {
    var splitter := NewSplitter(chunkSize, chunkOverlap, None, pieces, defaultSize, defaultOverlap);
    chunks := SplitTranscript(splitter, t);
  }

  /** The dictionary `get_chunk_stats` returns. */
  datatype Stats = Stats(totalChunks: nat, totalChars: int, avgChunkLength: real, minChunkLength: int, maxChunkLength: int)

  /** `[c["chunk_length"] for c in chunks]`: a chunk without the key raises
      KeyError. */
  function Lengths(chunks: seq<Chunk>): (r: Result<seq<int>, Error>)
    ensures r.Success? <==> forall i :: 0 <= i < |chunks| ==> chunks[i].chunkLength.Some?
    ensures r.Success? ==> |r.value| == |chunks| && forall i :: 0 <= i < |chunks| ==> r.value[i] == chunks[i].chunkLength.value
    ensures r.Failure? ==> r.error == Error(KeyError, "'chunk_length'")
  {
    if chunks == [] then Success([])
    else
      var rest := Lengths(chunks[1..]);
      if chunks[0].chunkLength.None? then Failure(Error(KeyError, "'chunk_length'"))
      else if rest.Failure? then rest
      else Success([chunks[0].chunkLength.value] + rest.value)
  }

  function Sum(xs: seq<int>): int {
    if xs == [] then 0 else xs[0] + Sum(xs[1..])
  }

  /** `min` over a non-empty list: the least element, which is one of them. */
  function Min(xs: seq<int>): (m: int)
    requires xs != []
    ensures m in xs && forall i :: 0 <= i < |xs| ==> m <= xs[i]
  {
    if |xs| == 1 then xs[0]
    else
      var rest := Min(xs[1..]);
      assert forall i :: 1 <= i < |xs| ==> xs[i] == xs[1..][i - 1];
      if xs[0] <= rest then xs[0] else rest
  }

  /** `max` over a non-empty list: the greatest element, which is one of them. */
  function Max(xs: seq<int>): (m: int)
    requires xs != []
    ensures m in xs && forall i :: 0 <= i < |xs| ==> xs[i] <= m
  {
    if |xs| == 1 then xs[0]
    else
      var rest := Max(xs[1..]);
      assert forall i :: 1 <= i < |xs| ==> xs[i] == xs[1..][i - 1];
      if xs[0] >= rest then xs[0] else rest
  }

  /** `get_chunk_stats(chunks)`: all zeros for no chunks. */
  function GetChunkStats(chunks: seq<Chunk>): (r: Result<Stats, Error>)
    ensures chunks == [] ==> r == Success(Stats(0, 0, 0.0, 0, 0))
    ensures r.Failure? <==> Lengths(chunks).Failure?
    ensures r.Success? && chunks != [] ==>
              var ls := Lengths(chunks).value;
              r.value.totalChunks == |chunks| && r.value.totalChars == Sum(ls)
              && r.value.avgChunkLength == (Sum(ls) as real) / (|chunks| as real)
              && r.value.minChunkLength == Min(ls) && r.value.maxChunkLength == Max(ls)
  {
    if chunks == [] then Success(Stats(0, 0, 0.0, 0, 0))
    else
      var ls :- Lengths(chunks);
      Success(Stats(|chunks|, Sum(ls), (Sum(ls) as real) / (|chunks| as real), Min(ls), Max(ls)))
  }

  /** The sum lies between n times the least and n times the greatest element. */
  lemma {:induction false} SumBetween(xs: seq<int>, lo: int, hi: int)
    requires forall i :: 0 <= i < |xs| ==> lo <= xs[i] <= hi
    ensures |xs| * lo <= Sum(xs) <= |xs| * hi
    decreases |xs|
  {
    if xs != [] {
      SumBetween(xs[1..], lo, hi);
    }
  }

  /** The average chunk length lies between the shortest and the longest. */
  lemma StatsOrdered(chunks: seq<Chunk>)
    requires GetChunkStats(chunks).Success? && chunks != []
    ensures var st := GetChunkStats(chunks).value;
            st.minChunkLength as real <= st.avgChunkLength <= st.maxChunkLength as real
  {
    var ls := Lengths(chunks).value;
    SumBetween(ls, Min(ls), Max(ls));
    RealBetween(Sum(ls), |ls|, Min(ls), Max(ls));
  }

  lemma RealBetween(s: int, n: nat, lo: int, hi: int)
    requires n > 0 && n * lo <= s <= n * hi
    ensures lo as real <= (s as real) / (n as real) <= hi as real
  {
    var r := (s as real) / (n as real);
    assert r * (n as real) == s as real;
    assert (n * lo) as real == (n as real) * (lo as real);
    assert (n * hi) as real == (n as real) * (hi as real);
  }

  /** The chunks of a split report their own lengths: `total_chars` is the
      sum of the pieces' lengths, and the statistics never fail. */
  lemma SplitLengths(pieces: seq<string>, metadata: Metadata, chunks: seq<Chunk>)
    requires |chunks| == |pieces|
    requires forall i :: 0 <= i < |chunks| ==> chunks[i] == ChunkOf(pieces[i], i, metadata)
    ensures Lengths(chunks).Success?
    ensures forall i :: 0 <= i < |chunks| ==> Lengths(chunks).value[i] == |pieces[i]|
  {
  }
}
