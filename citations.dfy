/** The citation handling of generation/citation_handler.py: the marker
    grammar `[Chunk<whitespace><digits>]` and `re.findall` over it, the
    resolution of cited ids against the chunks by `chunk_id` (position as
    fallback), the validation counts, the sources appendix, and marker
    removal with whitespace collapsing. */
module Citations {
  import opened Wrappers
  import opened Text
  import opened Records
  import opened PromptTemplates

  // ---------------------------------------------------------------------
  // the marker grammar `\[Chunk\s+(\d+)\]`

  const Opening: string := "[Chunk"

  /** Length of the longest whitespace prefix of s: a greedy `\s*`. */
  function SpaceRun(s: string): (n: nat)
    ensures n <= |s|
    ensures forall i :: 0 <= i < n ==> IsSpace(s[i])
    ensures n < |s| ==> !IsSpace(s[n])
  {
    if s == [] || !IsSpace(s[0]) then 0 else 1 + SpaceRun(s[1..])
  }

  /** Length of the longest digit prefix of s: a greedy `\d*`. */
  function DigitRun(s: string): (n: nat)
    ensures n <= |s| && AllDigits(s[..n])
    ensures n < |s| ==> !IsDigit(s[n])
  {
    if s == [] || !IsDigit(s[0]) then 0
    else
      var m := DigitRun(s[1..]);
      assert s[..1 + m] == [s[0]] + s[1..][..m];
      1 + m
  }

  /** One match of the pattern: how much whitespace follows "[Chunk", and
      the digits of the captured group. */
  datatype Marker = Marker(spaces: nat, digits: string)

  function Len(m: Marker): nat {
    |Opening| + m.spaces + |m.digits| + 1
  }

  /** The match of the pattern at the start of s, if there is one.
      Whitespace, digits and ']' are disjoint classes, so the greedy runs are
      the only way the pattern can match: no backtracking changes them. */
  function MatchMarker(s: string): (r: Option<Marker>)
    ensures r.Some? ==> IsPrefix(Opening, s) && AllDigits(r.value.digits) && Len(r.value) <= |s|
  {
    if !IsPrefix(Opening, s) then None else MatchAfterOpening(s[|Opening|..])
  }

  /** The rest of a match once "[Chunk" has been read. */
  function MatchAfterOpening(rest: string): (r: Option<Marker>)
    ensures r.Some? ==> AllDigits(r.value.digits) && r.value.spaces + |r.value.digits| < |rest|
  {
    var sp := SpaceRun(rest);
    if sp == 0 then None
    else
      var ds := DigitRun(rest[sp..]);
      if ds == 0 || sp + ds >= |rest| || rest[sp + ds] != ']' then None
      else
        assert rest[sp..][..ds] == rest[sp..sp + ds];
        Some(Marker(sp, rest[sp..sp + ds]))
  }

  /** A match is "[Chunk", one or more whitespace characters, one or more
      digits and "]": the prefix of s it covers is exactly that. */
  lemma MatchSound(s: string)
    requires MatchMarker(s).Some?
    ensures var m := MatchMarker(s).value;
            m.spaces > 0 && m.digits != []
            && (forall i :: |Opening| <= i < |Opening| + m.spaces ==> IsSpace(s[i]))
            && s[..Len(m)] == Opening + s[|Opening|..|Opening| + m.spaces] + m.digits + "]"
  {
    var k := |Opening|;
    var rest := s[k..];
    var m := MatchMarker(s).value;
    assert MatchAfterOpening(rest) == Some(m);
    var sp := SpaceRun(rest);
    var d := |m.digits|;
    assert forall i :: k <= i < k + sp ==> s[i] == rest[i - k];
    assert m.digits == s[k + sp..k + sp + d] by {
      assert rest[sp..sp + d] == s[k + sp..k + sp + d];
    }
    assert s[k + sp + d] == ']' by {
      assert rest[sp + d] == s[k + sp + d];
    }
    SliceInFour(s, k, k + sp, k + sp + d);
  }

  lemma SliceInFour(s: string, a: nat, b: nat, c: nat)
    requires a <= b <= c < |s|
    ensures s[..c + 1] == s[..a] + s[a..b] + s[b..c] + [s[c]]
  {
  }

  /** `[int(m) for m in re.findall(pattern, text)]`: the scan goes left to
      right, resumes after a match and moves on by one character after a
      miss, so matches never overlap and duplicates are kept. */
  function Extract(text: string): seq<nat>
    decreases |text|
  {
    if text == [] then []
    else
      match MatchMarker(text)
      case Some(m) => [ParseDigits(m.digits)] + Extract(text[Len(m)..])
      case None => Extract(text[1..])
  }

  lemma {:induction false} SpaceRunOf(ws: string, u: string)
    requires forall i :: 0 <= i < |ws| ==> IsSpace(ws[i])
    requires u == [] || !IsSpace(u[0])
    ensures SpaceRun(ws + u) == |ws|
    decreases |ws|
  {
    if ws != [] {
      assert (ws + u)[1..] == ws[1..] + u;
      SpaceRunOf(ws[1..], u);
    } else {
      assert ws + u == u;
    }
  }

  lemma {:induction false} DigitRunOf(ds: string, u: string)
    requires AllDigits(ds)
    requires u == [] || !IsDigit(u[0])
    ensures DigitRun(ds + u) == |ds|
    decreases |ds|
  {
    if ds != [] {
      assert (ds + u)[1..] == ds[1..] + u;
      DigitRunOf(ds[1..], u);
    } else {
      assert ds + u == u;
    }
  }

  /** Every string of the grammar matches, with exactly its own whitespace
      and digits: together with MatchMarker's postcondition, a match is
      precisely "[Chunk", one or more whitespace characters, one or more
      digits and "]". */
  lemma MarkerGrammar(ws: string, ds: string, rest: string)
    requires ws != [] && forall i :: 0 <= i < |ws| ==> IsSpace(ws[i])
    requires ds != [] && AllDigits(ds)
    ensures MatchMarker(Opening + ws + ds + "]" + rest) == Some(Marker(|ws|, ds))
  {
    var s := Opening + ws + ds + "]" + rest;
    assert s[..|Opening|] == Opening;
    var r := s[|Opening|..];
    assert r == ws + (ds + "]" + rest);
    SpaceRunOf(ws, ds + "]" + rest);
    assert r[|ws|..] == ds + ("]" + rest);
    DigitRunOf(ds, "]" + rest);
    assert r[|ws|..|ws| + |ds|] == ds && r[|ws| + |ds|] == ']';
    assert MatchAfterOpening(r) == Some(Marker(|ws|, ds));
  }

  /** The marker the context formatter writes for a non-negative id is
      extracted as that id, and the scan resumes right after it. */
  lemma ExtractMarker(n: nat, rest: string)
    ensures Extract(ChunkMarker(n) + rest) == [n] + Extract(rest)
  {
    var ds := NatToString(n);
    var s := ChunkMarker(n) + rest;
    assert s == Opening + " " + ds + "]" + rest;
    MarkerGrammar(" ", ds, rest);
    ParseNatToString(n);
    assert s[Len(Marker(1, ds))..] == rest;
  }

  /** A text without '[' adds no citations in front of whatever follows. */
  lemma {:induction false} ExtractSkipPlain(t: string, u: string)
    requires forall i :: 0 <= i < |t| ==> t[i] != '['
    ensures Extract(t + u) == Extract(u)
    decreases |t|
  {
    if t == [] {
      assert t + u == u;
    } else {
      assert (t + u)[0] == t[0] != Opening[0];
      assert MatchMarker(t + u).None?;
      assert (t + u)[1..] == t[1..] + u;
      ExtractSkipPlain(t[1..], u);
    }
  }

  /** A text without '[' holds no citation. */
  lemma ExtractPlain(t: string)
    requires forall i :: 0 <= i < |t| ==> t[i] != '['
    ensures Extract(t) == []
  {
    ExtractSkipPlain(t, []);
    assert t + [] == t;
  }

  /** No match starts inside t when t does not contain "[Chunk" and the
      next character cannot continue a "[Chunk" begun at the end of t. */
  lemma NoMatchInside(t: string, u: string, p: nat)
    requires p < |t| && !Contains(t, Opening)
    requires u == [] || u[0] !in Opening
    ensures !IsPrefix(Opening, (t + u)[p..])
  {
    var s := t + u;
    if p + |Opening| <= |t| {
      if IsPrefix(Opening, s[p..]) {
        assert t[p..p + |Opening|] == s[p..][..|Opening|];
        ContainsAt(t, Opening, p);
      }
    } else if |Opening| <= |s[p..]| {
      var k := |t| - p;
      assert s[p..][k] == u[0];
      assert s[p..][..|Opening|][k] != Opening[k];
    }
  }

  /** A text without "[Chunk" adds no citations in front of what follows,
      when what follows cannot complete a marker begun at its end. */
  lemma {:induction false} ExtractSkip(t: string, u: string)
    requires !Contains(t, Opening)
    requires u == [] || u[0] !in Opening
    ensures Extract(t + u) == Extract(u)
    decreases |t|
  {
    if t == [] {
      assert t + u == u;
    } else {
      NoMatchInside(t, u, 0);
      assert (t + u)[0..] == t + u;
      assert MatchMarker(t + u).None?;
      assert (t + u)[1..] == t[1..] + u;
      ExtractSkip(t[1..], u);
    }
  }

  /** A text whose first character starts no match, followed by text
      without '[', holds no citation. */
  lemma MissThenPlain(c: char, t: string)
    requires MatchMarker([c] + t).None?
    requires forall i :: 0 <= i < |t| ==> t[i] != '['
    ensures Extract([c] + t) == []
  {
    assert ([c] + t)[1..] == t;
    ExtractPlain(t);
  }

  /** The grammar is exact: "Chunk" is case-sensitive. */
  lemma ExtractCaseSensitive()
    ensures Extract("[chunk 3]") == []
  {
    assert "[chunk 3]" == ['['] + "chunk 3]";
    CaseMiss();
    MissThenPlain('[', "chunk 3]");
  }

  lemma CaseMiss()
    ensures MatchMarker("[chunk 3]").None?
  {
    assert "[chunk 3]"[1] != Opening[1];
  }

  /** The grammar is exact: whitespace is required before the digits. */
  lemma ExtractNeedsSpace()
    ensures Extract("[Chunk3]") == []
  {
    assert "[Chunk3]" == ['['] + "Chunk3]";
    NeedsSpaceMiss();
    MissThenPlain('[', "Chunk3]");
  }

  lemma NeedsSpaceMiss()
    ensures MatchMarker("[Chunk3]").None?
  {
    assert "[Chunk3]"[|Opening|..] == "3]";
  }

  /** The grammar is exact: a sign is not a digit. */
  lemma ExtractNoSign()
    ensures Extract("[Chunk -1]") == []
  {
    assert "[Chunk -1]" == ['['] + "Chunk -1]";
    NoSignMiss();
    MissThenPlain('[', "Chunk -1]");
  }

  lemma NoSignMiss()
    ensures MatchMarker("[Chunk -1]").None?
  {
    assert "[Chunk -1]"[|Opening|..] == " " + "-1]";
    SpaceRunOf(" ", "-1]");
    assert (" " + "-1]")[1..] == "-1]";
  }

  /** Two markers among texts without '[' are read back in order. */
  lemma TwoMarkers(a: string, n1: nat, b: string, n2: nat, c: string)
    requires forall i :: 0 <= i < |a| ==> a[i] != '['
    requires forall i :: 0 <= i < |b| ==> b[i] != '['
    requires forall i :: 0 <= i < |c| ==> c[i] != '['
    ensures Extract(a + ChunkMarker(n1) + b + ChunkMarker(n2) + c) == [n1, n2]
  {
    var m1, m2 := ChunkMarker(n1), ChunkMarker(n2);
    Regroup5(a, m1, b, m2, c);
    ExtractPlain(c);
    MarkerBetween(b, n2, c);
    MarkerBetween(a, n1, b + (m2 + c));
  }

  /** Text without '[', a marker, then the rest. */
  lemma MarkerBetween(a: string, n: nat, rest: string)
    requires forall i :: 0 <= i < |a| ==> a[i] != '['
    ensures Extract(a + (ChunkMarker(n) + rest)) == [n] + Extract(rest)
  {
    ExtractSkipPlain(a, ChunkMarker(n) + rest);
    ExtractMarker(n, rest);
  }

  /** The example of the method's documentation: two markers, in order. */
  lemma ExtractExample()
    ensures Extract("RAG is useful [Chunk 0]. It helps [Chunk 2].") == [0, 2]
  {
    ExampleParts();
    TwoMarkers("RAG is useful ", 0, ". It helps ", 2, ".");
  }

  lemma ExampleParts()
    ensures "RAG is useful " + ChunkMarker(0) + ". It helps " + ChunkMarker(2) + "."
            == "RAG is useful [Chunk 0]. It helps [Chunk 2]."
  {
    MarkerText(0, '0');
    MarkerText(2, '2');
  }

  lemma MarkerText(n: nat, d: char)
    requires n < 10 && d == DigitChar(n)
    ensures ChunkMarker(n) == "[Chunk " + [d] + "]"
  {
  }

  // ---------------------------------------------------------------------
  // round trip with the context formatter

  /** Chunks whose id-tagged context can be read back: every `chunk_id`
      (default 0) is non-negative and no text contains "[Chunk". */
  predicate Taggable(chunks: seq<Doc>) {
    forall i :: 0 <= i < |chunks| ==>
      chunks[i].chunkId.GetOr(0) >= 0 && !Contains(chunks[i].text.GetOr(""), Opening)
  }

  /** The ids the context formatter writes, one per chunk, in order. */
  function TaggedIds(chunks: seq<Doc>): (r: seq<nat>)
    requires Taggable(chunks)
    ensures |r| == |chunks| && forall i :: 0 <= i < |chunks| ==> r[i] == chunks[i].chunkId.GetOr(0)
  {
    seq(|chunks|, i requires 0 <= i < |chunks| && Taggable(chunks) => chunks[i].chunkId.GetOr(0) as nat)
  }

  /** One tagged part followed by the rest of the context. */
  lemma PartThenRest(d: Doc, u: string)
    requires d.chunkId.GetOr(0) >= 0 && !Contains(d.text.GetOr(""), Opening)
    requires u == [] || u[0] == '\n'
    ensures Extract(Part(d, true) + u) == [d.chunkId.GetOr(0) as nat] + Extract(u)
  {
    var n: nat := d.chunkId.GetOr(0);
    var text := d.text.GetOr("");
    assert Part(d, true) + u == ChunkMarker(n) + ("\n" + (text + u));
    ExtractMarker(n, "\n" + (text + u));
    ExtractSkipPlain("\n", text + u);
    ExtractSkip(text, u);
  }

  lemma {:induction false} JoinedRoundTrip(chunks: seq<Doc>)
    requires chunks != [] && Taggable(chunks)
    ensures Extract(Join(Parts(chunks, true), "\n\n")) == TaggedIds(chunks)
    decreases |chunks|
  {
    var ps := Parts(chunks, true);
    if |chunks| == 1 {
      PartThenRest(chunks[0], []);
      assert ps[0] + [] == ps[0];
    } else {
      var tail := chunks[1..];
      assert ps[1..] == Parts(tail, true);
      TaggableTail(chunks);
      var j := Join(ps[1..], "\n\n");
      assert Join(ps, "\n\n") == ps[0] + ("\n\n" + j);
      PartThenSeparator(chunks[0], j);
      JoinedRoundTrip(tail);
      assert TaggedIds(chunks) == [TaggedIds(chunks)[0]] + TaggedIds(tail);
    }
  }

  lemma TaggableTail(chunks: seq<Doc>)
    requires chunks != [] && Taggable(chunks)
    ensures Taggable(chunks[1..])
  {
    var tail := chunks[1..];
    forall i | 0 <= i < |tail| ensures tail[i] == chunks[i + 1] { }
  }

  /** One tagged part, the separator, then the rest of the context. */
  lemma PartThenSeparator(d: Doc, j: string)
    requires d.chunkId.GetOr(0) >= 0 && !Contains(d.text.GetOr(""), Opening)
    ensures Extract(Part(d, true) + ("\n\n" + j)) == [d.chunkId.GetOr(0) as nat] + Extract(j)
  {
    PartThenRest(d, "\n\n" + j);
    ExtractSkipPlain("\n\n", j);
  }

  /** Reading the citations back out of the id-tagged context gives every
      chunk's id, in chunk order: the formatter writes exactly the markers
      the extractor parses. */
  lemma ContextRoundTrip(chunks: seq<Doc>)
    requires Taggable(chunks)
    ensures Extract(Context(chunks, true)) == TaggedIds(chunks)
  {
    if chunks == [] {
      ExtractSkipPlain(NoContext, []);
      assert NoContext + [] == NoContext;
    } else {
      JoinedRoundTrip(chunks);
    }
  }

  // ---------------------------------------------------------------------
  // resolution: `add_source_info` and `validate_citations`

  /** `chunk.get("chunk_id", i)` for every chunk: the resolution keys. */
  function Keys(chunks: seq<Doc>): (r: seq<int>)
    ensures |r| == |chunks| && forall i :: 0 <= i < |chunks| ==> r[i] == chunks[i].chunkId.GetOr(i)
  {
    seq(|chunks|, i requires 0 <= i < |chunks| => chunks[i].chunkId.GetOr(i))
  }

  /** `{chunk.get("chunk_id", i): chunk for i, chunk in enumerate(chunks)}`. */
  function ChunkMap(chunks: seq<Doc>): map<int, Doc>
    decreases |chunks|
  {
    if chunks == [] then map[]
    else
      var n := |chunks| - 1;
      ChunkMap(chunks[..n])[chunks[n].chunkId.GetOr(n) := chunks[n]]
  }

  /** Chunk i holds the last occurrence of its key. */
  predicate LastWithKey(chunks: seq<Doc>, i: nat)
    requires i < |chunks|
  {
    forall j :: i < j < |chunks| ==> Keys(chunks)[j] != Keys(chunks)[i]
  }

  /** The chunk map has exactly the keys of the chunks, and a key maps to the
      last chunk that carries it. */
  lemma {:induction false} ChunkMapSpec(chunks: seq<Doc>)
    ensures forall k :: k in ChunkMap(chunks) <==> k in Keys(chunks)
    ensures forall i :: 0 <= i < |chunks| && LastWithKey(chunks, i) ==> ChunkMap(chunks)[Keys(chunks)[i]] == chunks[i]
    decreases |chunks|
  {
    if chunks != [] {
      var n := |chunks| - 1;
      var init := chunks[..n];
      ChunkMapSpec(init);
      assert Keys(chunks) == Keys(init) + [Keys(chunks)[n]];
      forall i | 0 <= i < |chunks| && LastWithKey(chunks, i)
        ensures ChunkMap(chunks)[Keys(chunks)[i]] == chunks[i]
      {
        if i < n {
          assert Keys(chunks)[n] != Keys(chunks)[i];
          assert LastWithKey(init, i) by {
            forall j | i < j < n ensures Keys(init)[j] != Keys(init)[i] {
              assert Keys(chunks)[j] != Keys(chunks)[i];
            }
          }
        }
      }
    }
  }

  /** One entry of `sources`. */
  datatype Source = Source(chunkId: nat, text: string, videoId: string, score: real)

  function SourceOf(id: nat, chunk: Doc): Source {
    Source(id, chunk.text.GetOr(""), chunk.videoId.GetOr("unknown"), chunk.score.GetOr(0.0))
  }

  /** The `sources` list of the loop: one entry per citation that resolves. */
  function Sources(cited: seq<nat>, chunkMap: map<int, Doc>): seq<Source>
    decreases |cited|
  {
    if cited == [] then []
    else
      var n := |cited| - 1;
      Sources(cited[..n], chunkMap) + (if cited[n] in chunkMap then [SourceOf(cited[n], chunkMap[cited[n]])] else [])
  }

  /** The citations that resolve, in citation order, duplicates kept. */
  function Resolved(cited: seq<nat>, chunkMap: map<int, Doc>): (r: seq<nat>)
    decreases |cited|
  {
    if cited == [] then []
    else
      var n := |cited| - 1;
      Resolved(cited[..n], chunkMap) + (if cited[n] in chunkMap then [cited[n]] else [])
  }

  /** `[cid for cid in cited_ids if cid not in available_ids]`. */
  function Invalid(cited: seq<nat>, available: seq<int>): (r: seq<nat>)
    decreases |cited|
  {
    if cited == [] then []
    else
      var n := |cited| - 1;
      Invalid(cited[..n], available) + (if cited[n] !in available then [cited[n]] else [])
  }

  /** The sources are the resolving citations, in citation order with
      duplicates, each carrying the chunk its id maps to. */
  lemma {:induction false} SourcesAreResolved(cited: seq<nat>, chunkMap: map<int, Doc>)
    ensures |Sources(cited, chunkMap)| == |Resolved(cited, chunkMap)| <= |cited|
    ensures forall j :: 0 <= j < |Resolved(cited, chunkMap)| ==>
              Resolved(cited, chunkMap)[j] in chunkMap
              && Sources(cited, chunkMap)[j] == SourceOf(Resolved(cited, chunkMap)[j], chunkMap[Resolved(cited, chunkMap)[j]])
    decreases |cited|
  {
    if cited != [] {
      SourcesAreResolved(cited[..|cited| - 1], chunkMap);
    }
  }

  /** Resolved and invalid citations partition the citations: same
      elements with the same multiplicities. */
  lemma {:induction false} Partition(cited: seq<nat>, chunkMap: map<int, Doc>, available: seq<int>)
    requires forall k :: k in chunkMap <==> k in available
    ensures multiset(Resolved(cited, chunkMap)) + multiset(Invalid(cited, available)) == multiset(cited)
    decreases |cited|
  {
    if cited != [] {
      var n := |cited| - 1;
      var init := cited[..n];
      Partition(init, chunkMap, available);
      assert cited == init + [cited[n]];
      if cited[n] in chunkMap {
        assert Resolved(cited, chunkMap) == Resolved(init, chunkMap) + [cited[n]];
        assert Invalid(cited, available) == Invalid(init, available);
      } else {
        assert Resolved(cited, chunkMap) == Resolved(init, chunkMap);
        assert Invalid(cited, available) == Invalid(init, available) + [cited[n]];
      }
    }
  }

  /** A citation is invalid exactly when it is cited and matches no key. */
  lemma {:induction false} InvalidMembers(cited: seq<nat>, available: seq<int>, x: nat)
    ensures x in Invalid(cited, available) <==> x in cited && x !in available
    decreases |cited|
  {
    if cited != [] {
      var n := |cited| - 1;
      InvalidMembers(cited[..n], available, x);
      assert cited == cited[..n] + [cited[n]];
    }
  }

  /** The dictionary `add_source_info` returns. */
  datatype SourceInfo = SourceInfo(answer: string, citations: seq<nat>, sources: seq<Source>,
                                   numCitations: nat, numValidCitations: nat)

  /** `add_source_info(answer, chunks)`. */
  method AddSourceInfo(answer: string, chunks: seq<Doc>) returns (info: SourceInfo)
    ensures info.answer == answer && info.citations == Extract(answer) && info.numCitations == |info.citations|
    ensures info.sources == Sources(info.citations, ChunkMap(chunks)) && info.numValidCitations == |info.sources|
    ensures info.numValidCitations <= info.numCitations
  {
    var citedIds := Extract(answer);
    var chunkMap := ChunkMap(chunks);
    var sources: seq<Source> := [];
    var i := 0;
    while i < |citedIds|
      invariant 0 <= i <= |citedIds|
      invariant sources == Sources(citedIds[..i], chunkMap)
    {
      assert citedIds[..i + 1][..i] == citedIds[..i];
      if citedIds[i] in chunkMap {
        sources := sources + [SourceOf(citedIds[i], chunkMap[citedIds[i]])];
      }
      i := i + 1;
    }
    assert citedIds[..i] == citedIds;
    SourcesAreResolved(citedIds, chunkMap);
    info := SourceInfo(answer, citedIds, sources, |citedIds|, |sources|);
  }

  /** The dictionary `validate_citations` returns. */
  datatype Validation = Validation(totalCitations: nat, validCitations: int, invalidCitations: seq<nat>, allValid: bool)

  /** `validate_citations(answer, chunks)`. */
  function ValidateCitations(answer: string, chunks: seq<Doc>): Validation {
    var citedIds := Extract(answer);
    var invalid := Invalid(citedIds, Keys(chunks));
    Validation(|citedIds|, |citedIds| - |invalid|, invalid, |invalid| == 0)
  }

  /** The validation counts agree with the sources `add_source_info`
      collects: the valid count is the number of sources, the invalid
      citations are the rest, and all are valid exactly when every cited id
      is a key of some chunk. */
  lemma ValidationAgrees(answer: string, chunks: seq<Doc>)
    ensures var v := ValidateCitations(answer, chunks);
            v.totalCitations == |Extract(answer)|
            && v.validCitations == |Sources(Extract(answer), ChunkMap(chunks))| >= 0
            && v.validCitations + |v.invalidCitations| == v.totalCitations
            && (v.allValid <==> forall j :: 0 <= j < |Extract(answer)| ==> Extract(answer)[j] in Keys(chunks))
  {
    var cited := Extract(answer);
    ChunkMapSpec(chunks);
    Partition(cited, ChunkMap(chunks), Keys(chunks));
    assert |multiset(cited)| == |Resolved(cited, ChunkMap(chunks))| + |Invalid(cited, Keys(chunks))|;
    SourcesAreResolved(cited, ChunkMap(chunks));
    var inv := Invalid(cited, Keys(chunks));
    if exists j :: 0 <= j < |cited| && cited[j] !in Keys(chunks) {
      var j :| 0 <= j < |cited| && cited[j] !in Keys(chunks);
      InvalidMembers(cited, Keys(chunks), cited[j]);
    } else if inv != [] {
      InvalidMembers(cited, Keys(chunks), inv[0]);
    }
  }

  // ---------------------------------------------------------------------
  // `format_citations`

  const SourcesHeader: string := "\n\n---\nSources:\n"

  /** The lines written for one source; `fmt2` renders a score with two
      decimals (`:.2f`). */
  function Block(s: Source, fmt2: real -> string): string {
    "\n" + ChunkMarker(s.chunkId) + " " + "(Video: " + s.videoId + ", " + "Relevance: " + fmt2(s.score) + ")\n"
    + PyTake(s.text, 150) + "...\n"
  }

  function BlockList(ss: seq<Source>, fmt2: real -> string): (r: seq<string>)
    ensures |r| == |ss| && forall i :: 0 <= i < |ss| ==> r[i] == Block(ss[i], fmt2)
  {
    seq(|ss|, i requires 0 <= i < |ss| => Block(ss[i], fmt2))
  }

  /** What follows the answer when sources are listed. */
  function Appendix(sources: seq<Source>, fmt2: real -> string): string {
    SourcesHeader + Concat(BlockList(sources, fmt2))
  }

  /** The sources `add_source_info` collects for an answer. */
  function SourcesFor(answer: string, chunks: seq<Doc>): seq<Source> {
    Sources(Extract(answer), ChunkMap(chunks))
  }

  /** The answer `format_citations` returns. */
  function Formatted(answer: string, chunks: seq<Doc>, includeFullSources: bool, fmt2: real -> string): string {
    var sources := SourcesFor(answer, chunks);
    if includeFullSources && sources != [] then answer + Appendix(sources, fmt2) else answer
  }

  lemma BlocksSnoc(start: string, ss: seq<Source>, i: nat, fmt2: real -> string)
    requires i < |ss|
    ensures start + Concat(BlockList(ss[..i + 1], fmt2)) == (start + Concat(BlockList(ss[..i], fmt2))) + Block(ss[i], fmt2)
  {
    var bl := BlockList(ss[..i + 1], fmt2);
    assert bl[..i] == BlockList(ss[..i], fmt2);
    assert bl[i] == Block(ss[i], fmt2);
    var c, b := Concat(BlockList(ss[..i], fmt2)), Block(ss[i], fmt2);
    assert start + (c + b) == (start + c) + b;
  }

  /** `format_citations(answer, chunks, include_full_sources)`. */
  method FormatCitations(answer: string, chunks: seq<Doc>, includeFullSources: bool, fmt2: real -> string)
    returns (formatted: string)
    ensures formatted == Formatted(answer, chunks, includeFullSources, fmt2)
  {
    formatted := answer;
    if includeFullSources {
      var info := AddSourceInfo(answer, chunks);
      if info.sources != [] {
        formatted := AppendBlocks(formatted + SourcesHeader, info.sources, fmt2);
      }
    }
  }

  /** The loop of `format_citations` that adds one block per source. */
  method AppendBlocks(start: string, sources: seq<Source>, fmt2: real -> string) returns (formatted: string)
    ensures formatted == start + Concat(BlockList(sources, fmt2))
  {
    formatted := start;
    var i := 0;
    while i < |sources|
      invariant 0 <= i <= |sources|
      invariant formatted == start + Concat(BlockList(sources[..i], fmt2))
    {
      BlocksSnoc(start, sources, i, fmt2);
      formatted := formatted + Block(sources[i], fmt2);
      i := i + 1;
    }
    assert sources[..i] == sources;
  }

  /** The answer always opens the formatted text, and is all of it exactly
      when the appendix is off or no citation resolves; otherwise the header
      follows, then one block per source in source order. */
  lemma FormattedShape(answer: string, chunks: seq<Doc>, includeFullSources: bool, fmt2: real -> string)
    ensures IsPrefix(answer, Formatted(answer, chunks, includeFullSources, fmt2))
    ensures (Formatted(answer, chunks, includeFullSources, fmt2) == answer)
              <==> (!includeFullSources || SourcesFor(answer, chunks) == [])
    ensures includeFullSources && SourcesFor(answer, chunks) != [] ==>
              Formatted(answer, chunks, includeFullSources, fmt2)[|answer|..] == Appendix(SourcesFor(answer, chunks), fmt2)
  {
    var sources := SourcesFor(answer, chunks);
    if includeFullSources && sources != [] {
      var rest := Appendix(sources, fmt2);
      assert |rest| > 0 by {
        assert rest == SourcesHeader + Concat(BlockList(sources, fmt2));
      }
      assert (answer + rest)[..|answer|] == answer && (answer + rest)[|answer|..] == rest;
    }
  }

  /** Each block starts with the source's own marker on a new line and
      quotes at most 150 characters of its text. */
  lemma BlockShape(s: Source, fmt2: real -> string)
    ensures IsPrefix("\n" + ChunkMarker(s.chunkId), Block(s, fmt2))
    ensures |PyTake(s.text, 150)| <= 150 && IsPrefix(PyTake(s.text, 150), s.text)
  {
    var b := Block(s, fmt2);
    var rest := " " + "(Video: " + s.videoId + ", " + "Relevance: " + fmt2(s.score) + ")\n" + PyTake(s.text, 150) + "...\n";
    assert b == ("\n" + ChunkMarker(s.chunkId)) + rest;
  }

  // ---------------------------------------------------------------------
  // `remove_citations`

  /** `re.sub(r'\s*\[Chunk\s+\d+\]\s*', ' ', text)`: a marker with all the
      whitespace around it becomes one space. The leading `\s*` starts at
      the leftmost position from which it reaches a marker, so it takes the
      whole run before the marker. */
  function RemoveMarkers(s: string): string
    decreases |s|
  {
    if s == [] then []
    else
      var lead := SpaceRun(s);
      match MatchMarker(s[lead..])
      case Some(m) =>
        var after := s[lead + Len(m)..];
        " " + RemoveMarkers(after[SpaceRun(after)..])
      case None => [s[0]] + RemoveMarkers(s[1..])
  }

  /** `remove_citations(text)`: markers replaced, then `" ".join(split())`.
      The result has no leading, trailing or repeated whitespace. */
  function RemoveCitations(text: string): (r: string)
    ensures Collapsed(r)
  {
    CollapseShape(RemoveMarkers(text));
    Collapse(RemoveMarkers(text))
  }

  /** A whitespace run from inside t that ends before t's last character
      reaches no marker. */
  lemma NoMarkerFrom(t: string, u: string)
    requires t != [] && !Contains(t, Opening) && !IsSpace(t[|t| - 1])
    requires u == [] || u[0] !in Opening
    ensures SpaceRun(t + u) < |t| && MatchMarker((t + u)[SpaceRun(t + u)..]).None?
  {
    var s := t + u;
    assert s[|t| - 1] == t[|t| - 1];
    NoMatchInside(t, u, SpaceRun(s));
  }

  /** Where the whitespace run reaches no marker, the first character is kept. */
  lemma RemoveMarkersMiss(s: string)
    requires s != [] && MatchMarker(s[SpaceRun(s)..]).None?
    ensures RemoveMarkers(s) == [s[0]] + RemoveMarkers(s[1..])
  {
  }

  /** Marker-free text in front of the rest passes through unchanged. */
  lemma {:induction false} RemoveMarkersSkip(t: string, u: string)
    requires !Contains(t, Opening) && (t == [] || !IsSpace(t[|t| - 1]))
    requires u == [] || u[0] !in Opening
    ensures RemoveMarkers(t + u) == t + RemoveMarkers(u)
    decreases |t|
  {
    if t == [] {
      assert t + u == u;
    } else {
      NoMarkerFrom(t, u);
      RemoveMarkersMiss(t + u);
      TailStep(t, u);
      RemoveMarkersSkip(t[1..], u);
      ConsAppend(t, RemoveMarkers(u));
    }
  }

  /** What the induction on t needs of its tail. */
  lemma TailStep(t: string, u: string)
    requires t != [] && !Contains(t, Opening) && !IsSpace(t[|t| - 1])
    ensures (t + u)[0] == t[0] && (t + u)[1..] == t[1..] + u
    ensures !Contains(t[1..], Opening) && (t[1..] == [] || !IsSpace(t[1..][|t[1..]| - 1]))
  {
  }

  lemma Regroup5(a: string, b: string, c: string, d: string, e: string)
    ensures a + b + c + d + e == a + (b + (c + (d + e)))
  {
  }

  lemma Regroup3(a: string, b: string, c: string)
    ensures a + (b + c) == a + b + c
  {
  }

  lemma Regroup(a: string, b: string, c: string, d: string)
    ensures a + b + c + d == a + (b + c + d)
  {
  }

  lemma ConsAppend(t: string, r: string)
    requires t != []
    ensures [t[0]] + (t[1..] + r) == t + r
  {
    assert t == [t[0]] + t[1..];
  }

  /** Text without markers is only whitespace-normalised. */
  lemma {:induction false} RemoveMarkersPlain(t: string)
    requires !Contains(t, Opening)
    ensures RemoveMarkers(t) == t
    decreases |t|
  {
    if t != [] {
      var lead := SpaceRun(t);
      if lead < |t| {
        assert t + [] == t;
        NoMatchInside(t, [], lead);
      }
      RemoveMarkersPlain(t[1..]);
    }
  }

  lemma RemoveCitationsPlain(t: string)
    requires !Contains(t, Opening)
    ensures RemoveCitations(t) == Collapse(t)
  {
    RemoveMarkersPlain(t);
  }

  /** Text that ends a word: marker-free, non-empty, not ending in
      whitespace. */
  predicate WordEnd(t: string) {
    t != [] && !Contains(t, Opening) && !IsSpace(t[|t| - 1])
  }

  /** A marker between a word and a punctuation mark becomes a space in
      front of the punctuation mark. */
  lemma RemoveBeforePunctuation(t: string, n: nat, c: char)
    requires WordEnd(t) && !IsSpace(c)
    ensures RemoveCitations(t + " " + ChunkMarker(n) + [c]) == Collapse(t + " " + [c])
  {
    SingleNoOpening(c);
    MarkerDropped(t, n, [c]);
    RemoveCitationsOf(t + " " + ChunkMarker(n) + [c], t + " " + [c]);
  }

  lemma RemoveCitationsOf(x: string, y: string)
    requires RemoveMarkers(x) == y
    ensures RemoveCitations(x) == Collapse(y)
  {
  }

  lemma SingleNoOpening(c: char)
    ensures !Contains([c], Opening)
  {
    assert [c][1..] == [];
  }

  /** A word, one space, a marker, then marker-free text not starting with
      whitespace: the marker and the space become one space. */
  lemma MarkerDropped(t: string, n: nat, w: string)
    requires WordEnd(t) && (w == [] || !IsSpace(w[0])) && !Contains(w, Opening)
    ensures RemoveMarkers(t + " " + ChunkMarker(n) + w) == t + " " + w
  {
    var cm := ChunkMarker(n);
    Regroup(t, " ", cm, w);
    RemoveMarkersSkip(t, " " + cm + w);
    RemoveMarkerThen(n, w);
    Regroup3(t, " ", w);
  }

  lemma RemoveMarkerThen(n: nat, w: string)
    requires (w == [] || !IsSpace(w[0])) && !Contains(w, Opening)
    ensures RemoveMarkers(" " + ChunkMarker(n) + w) == " " + w
  {
    var u := " " + ChunkMarker(n) + w;
    var m := ChunkMarker(n) + w;
    assert u == " " + m && m[0] == '[';
    SpaceRunOf(" ", m);
    assert u[1..] == m;
    MarkerAfterSpace(n, w);
    SpaceRunOf([], w);
    assert [] + w == w && w[0..] == w;
    RemoveMarkersPlain(w);
  }

  /** The same with a space after the marker: the `\s*` after the marker
      takes that space too. */
  lemma MarkerSpaceDropped(t: string, n: nat, w: string)
    requires WordEnd(t) && w != [] && !Contains(w, Opening) && !IsSpace(w[0])
    ensures RemoveMarkers(t + " " + ChunkMarker(n) + " " + w) == t + " " + w
  {
    Regroup5b(t, " ", ChunkMarker(n), " ", w);
    MarkerSpaceGrouped(t, n, w);
    Regroup3(t, " ", w);
  }

  lemma Regroup5b(a: string, b: string, c: string, d: string, e: string)
    ensures a + b + c + d + e == a + (b + c + (d + e))
  {
  }

  lemma MarkerSpaceGrouped(t: string, n: nat, w: string)
    requires WordEnd(t) && w != [] && !Contains(w, Opening) && !IsSpace(w[0])
    ensures RemoveMarkers(t + (" " + ChunkMarker(n) + (" " + w))) == t + (" " + w)
  {
    RemoveMarkersSkip(t, " " + ChunkMarker(n) + (" " + w));
    RemoveAfterMarkerSpace(n, w);
  }

  lemma RemoveAfterMarkerSpace(n: nat, w: string)
    requires w != [] && !Contains(w, Opening) && !IsSpace(w[0])
    ensures RemoveMarkers(" " + ChunkMarker(n) + (" " + w)) == " " + w
  {
    var u := " " + ChunkMarker(n) + (" " + w);
    var m := ChunkMarker(n) + (" " + w);
    assert u == " " + m && m[0] == '[';
    SpaceRunOf(" ", m);
    assert u[1..] == m;
    MarkerAfterSpace(n, " " + w);
    SpaceRunOf(" ", w);
    assert (" " + w)[1..] == w;
    RemoveMarkersPlain(w);
  }

  /** The example of the method's documentation, as the code behaves: the
      marker leaves a space in front of the full stop. */
  lemma RemoveExampleAsWritten()
    ensures RemoveCitations("RAG is useful [Chunk 0].") == "RAG is useful ."
  {
    ExampleRemoved("RAG is useful [Chunk 0].", "RAG is useful");
    ExampleSpaced();
  }

  lemma ExampleRemoved(s: string, t: string)
    requires s == "RAG is useful [Chunk 0]." && t == "RAG is useful"
    ensures RemoveCitations(s) == Collapse(t + " " + ['.'])
  {
    ExampleSplit();
    ExampleHead();
    RemoveBeforePunctuation(t, 0, '.');
  }

  lemma ExampleSplit()
    ensures "RAG is useful [Chunk 0]." == "RAG is useful" + " " + ChunkMarker(0) + ['.']
  {
    MarkerText(0, '0');
  }

  lemma ExampleHead()
    ensures WordEnd("RAG is useful")
  {
    NoBracketNoOpening("RAG is useful");
  }

  lemma ExampleSpaced()
    ensures Collapse("RAG is useful" + " " + ['.']) == "RAG is useful ."
  {
    assert "RAG is useful" + " " + ['.'] == "RAG is useful .";
    CollapsedLiteral("RAG is useful .");
  }

  /** A text without '[' does not contain "[Chunk". */
  lemma {:induction false} NoBracketNoOpening(t: string)
    requires forall i :: 0 <= i < |t| ==> t[i] != '['
    ensures !Contains(t, Opening)
    decreases |t|
  {
    if t != [] {
      assert !IsPrefix(Opening, t) by {
        assert t[0] != Opening[0];
      }
      NoBracketNoOpening(t[1..]);
    }
  }

  /** Removal is a single pass: a marker that only forms once an inner one
      is gone survives, and is read as a citation afterwards. */
  lemma NestedMarkerSurvives()
    ensures RemoveCitations("[Chunk [Chunk 1]1]") == "[Chunk 1]"
    ensures Extract("[Chunk 1]") == [1]
  {
    NestedRemoved("[Chunk [Chunk 1]1]", "Chunk", "1]");
    NestedCollapsed();
    NestedExtract();
  }

  lemma NestedRemoved(s: string, t: string, w: string)
    requires s == "[Chunk [Chunk 1]1]" && t == "Chunk" && w == "1]"
    ensures RemoveCitations(s) == Collapse("[Chunk 1]")
  {
    NestedParts();
    NestedMiss();
    MissThenDropped(s, t, 1, w);
    NestedJoin();
    RemoveCitationsOf(s, "[Chunk 1]");
  }

  /** A character that starts no marker, then a word, a space, a marker and
      marker-free text. */
  lemma MissThenDropped(s: string, t: string, n: nat, w: string)
    requires s != [] && SpaceRun(s) == 0 && MatchMarker(s).None?
    requires s[1..] == t + " " + ChunkMarker(n) + w
    requires WordEnd(t) && (w == [] || !IsSpace(w[0])) && !Contains(w, Opening)
    ensures RemoveMarkers(s) == [s[0]] + (t + " " + w)
  {
    assert s[0..] == s;
    RemoveMarkersMiss(s);
    MarkerDropped(t, n, w);
  }

  lemma NestedParts()
    ensures "[Chunk [Chunk 1]1]"[1..] == "Chunk" + " " + ChunkMarker(1) + "1]"
    ensures "[Chunk [Chunk 1]1]"[0] == '['
  {
    MarkerText(1, '1');
  }

  lemma NestedMiss()
    ensures SpaceRun("[Chunk [Chunk 1]1]") == 0
    ensures MatchMarker("[Chunk [Chunk 1]1]").None?
    ensures WordEnd("Chunk") && !Contains("1]", Opening)
  {
    var s := "[Chunk [Chunk 1]1]";
    assert s[..|Opening|] == Opening;
    var rest := s[|Opening|..];
    assert rest == " " + "[Chunk 1]1]";
    SpaceRunOf(" ", "[Chunk 1]1]");
    assert rest[1..] == "[Chunk 1]1]";
    NoBracketNoOpening("Chunk");
    NoBracketNoOpening("1]");
  }

  lemma NestedJoin()
    ensures ['['] + ("Chunk" + " " + "1]") == "[Chunk 1]"
  {
  }

  lemma NestedCollapsed()
    ensures Collapse("[Chunk 1]") == "[Chunk 1]"
  {
    CollapsedLiteral("[Chunk 1]");
  }

  /** The literals of the examples are already normalised. */
  lemma CollapsedLiteral(t: string)
    requires t == "RAG is useful ." || t == "RAG is useful." || t == "[Chunk 1]"
    ensures Collapse(t) == t
  {
    assert Collapsed(t) by {
      forall i | 0 <= i < |t| && IsSpace(t[i])
        ensures t[i] == ' ' && 0 < i < |t| - 1 && !IsSpace(t[i - 1]) && !IsSpace(t[i + 1])
      {
      }
    }
    CollapsedFixed(t);
  }

  lemma NestedExtract()
    ensures Extract("[Chunk 1]") == [1]
  {
    ExtractOneLiteral("[Chunk 1]");
  }

  lemma ExtractOneLiteral(s: string)
    requires s == "[Chunk 1]"
    ensures Extract(s) == [1]
  {
    ExtractDigitMarker('1', 1);
    assert s == "[Chunk " + ['1'] + "]";
  }

  lemma ExtractDigitMarker(d: char, n: nat)
    requires n < 10 && d == DigitChar(n)
    ensures Extract("[Chunk " + [d] + "]") == [n]
  {
    MarkerText(n, d);
    ExtractOne(n);
  }

  /** A lone marker yields its id. */
  lemma ExtractOne(n: nat)
    ensures Extract(ChunkMarker(n)) == [n]
  {
    ExtractMarker(n, []);
    assert ChunkMarker(n) + [] == ChunkMarker(n);
  }

  // ---------------------------------------------------------------------
  // corrected removal

  /** Removal as the documentation's example intends: a marker goes with the
      whitespace in front of it, `re.sub(r'\s*\[Chunk\s+\d+\]', '', text)`,
      and whatever follows it stays where it is. */
  function RemoveMarkersFixed(s: string): string
    decreases |s|
  {
    if s == [] then []
    else
      var lead := SpaceRun(s);
      match MatchMarker(s[lead..])
      case Some(m) => RemoveMarkersFixed(s[lead + Len(m)..])
      case None => [s[0]] + RemoveMarkersFixed(s[1..])
  }

  /** The corrected `remove_citations`, with the same whitespace collapsing. */
  function RemoveCitationsFixed(text: string): (r: string)
    ensures Collapsed(r)
  {
    CollapseShape(RemoveMarkersFixed(text));
    Collapse(RemoveMarkersFixed(text))
  }

  lemma RemoveFixedMiss(s: string)
    requires s != [] && MatchMarker(s[SpaceRun(s)..]).None?
    ensures RemoveMarkersFixed(s) == [s[0]] + RemoveMarkersFixed(s[1..])
  {
  }

  lemma {:induction false} RemoveFixedSkip(t: string, u: string)
    requires !Contains(t, Opening) && (t == [] || !IsSpace(t[|t| - 1]))
    requires u == [] || u[0] !in Opening
    ensures RemoveMarkersFixed(t + u) == t + RemoveMarkersFixed(u)
    decreases |t|
  {
    if t == [] {
      assert t + u == u;
    } else {
      NoMarkerFrom(t, u);
      RemoveFixedMiss(t + u);
      TailStep(t, u);
      RemoveFixedSkip(t[1..], u);
      ConsAppend(t, RemoveMarkersFixed(u));
    }
  }

  /** On marker-free text the correction changes nothing. */
  lemma {:induction false} RemoveFixedPlain(t: string)
    requires !Contains(t, Opening)
    ensures RemoveMarkersFixed(t) == t
    decreases |t|
  {
    if t != [] {
      var lead := SpaceRun(t);
      if lead < |t| {
        assert t + [] == t;
        NoMatchInside(t, [], lead);
      }
      RemoveFixedPlain(t[1..]);
    }
  }

  /** Both removals agree on marker-free text. */
  lemma FixedAgreesOnPlain(t: string)
    requires !Contains(t, Opening)
    ensures RemoveCitationsFixed(t) == RemoveCitations(t) == Collapse(t)
  {
    RemoveFixedPlain(t);
    RemoveMarkersPlain(t);
  }

  /** With the correction a marker and the space before it vanish. */
  lemma FixedMarkerThen(n: nat, w: string)
    requires !Contains(w, Opening)
    ensures RemoveMarkersFixed(" " + ChunkMarker(n) + w) == w
  {
    var u := " " + ChunkMarker(n) + w;
    var m := ChunkMarker(n) + w;
    assert u == " " + m && m[0] == '[';
    SpaceRunOf(" ", m);
    assert u[1..] == m;
    MarkerAfterSpace(n, w);
    RemoveFixedPlain(w);
  }

  /** A word, one space, a marker, then marker-free text: only the text
      around the marker is left. */
  lemma FixedMarkerDropped(t: string, n: nat, w: string)
    requires WordEnd(t) && !Contains(w, Opening)
    ensures RemoveMarkersFixed(t + " " + ChunkMarker(n) + w) == t + w
  {
    var cm := ChunkMarker(n);
    Regroup(t, " ", cm, w);
    RemoveFixedSkip(t, " " + cm + w);
    FixedMarkerThen(n, w);
  }

  /** The corrected removal attaches the punctuation mark to the word. */
  lemma FixedBeforePunctuation(t: string, n: nat, c: char)
    requires WordEnd(t)
    ensures RemoveCitationsFixed(t + " " + ChunkMarker(n) + [c]) == Collapse(t + [c])
  {
    SingleNoOpening(c);
    FixedMarkerDropped(t, n, [c]);
    RemoveFixedOf(t + " " + ChunkMarker(n) + [c], t + [c]);
  }

  lemma RemoveFixedOf(x: string, y: string)
    requires RemoveMarkersFixed(x) == y
    ensures RemoveCitationsFixed(x) == Collapse(y)
  {
  }

  /** Between two words both removals leave the words one space apart, so
      the correction keeps what the original does right. */
  lemma BetweenWordsAgree(t: string, n: nat, w: string)
    requires WordEnd(t) && w != [] && !Contains(w, Opening) && !IsSpace(w[0])
    ensures RemoveCitations(t + " " + ChunkMarker(n) + " " + w) == Collapse(t + " " + w)
    ensures RemoveCitationsFixed(t + " " + ChunkMarker(n) + " " + w) == Collapse(t + " " + w)
  {
    var x := t + " " + ChunkMarker(n) + " " + w;
    MarkerSpaceDropped(t, n, w);
    RemoveCitationsOf(x, t + " " + w);
    FixedBetween(t, n, w);
    RemoveFixedOf(x, t + " " + w);
  }

  lemma FixedBetween(t: string, n: nat, w: string)
    requires WordEnd(t) && w != [] && !Contains(w, Opening) && !IsSpace(w[0])
    ensures RemoveMarkersFixed(t + " " + ChunkMarker(n) + " " + w) == t + " " + w
  {
    var cm := ChunkMarker(n);
    SpacedNoOpening(w);
    FixedMarkerDropped(t, n, " " + w);
    Regroup3(t + " " + cm, " ", w);
    Regroup3(t, " ", w);
  }

  lemma SpacedNoOpening(w: string)
    requires !Contains(w, Opening)
    ensures !Contains(" " + w, Opening)
  {
    assert (" " + w)[0] == ' ' && (" " + w)[1..] == w;
    assert !IsPrefix(Opening, " " + w) by {
      assert Opening[0] == '[';
    }
  }

  /** The documentation's example under the correction. */
  lemma RemoveExampleFixed()
    ensures RemoveCitationsFixed("RAG is useful [Chunk 0].") == "RAG is useful."
  {
    ExampleFixed("RAG is useful [Chunk 0].", "RAG is useful");
    ExampleJoined();
  }

  lemma ExampleFixed(s: string, t: string)
    requires s == "RAG is useful [Chunk 0]." && t == "RAG is useful"
    ensures RemoveCitationsFixed(s) == Collapse(t + ['.'])
  {
    ExampleSplit();
    ExampleHead();
    FixedBeforePunctuation(t, 0, '.');
  }

  lemma ExampleJoined()
    ensures Collapse("RAG is useful" + ['.']) == "RAG is useful."
  {
    assert "RAG is useful" + ['.'] == "RAG is useful.";
    CollapsedLiteral("RAG is useful.");
  }

  /** The marker the formatter writes matches with its own length, leaving
      what follows it. */
  lemma MarkerAfterSpace(n: nat, rest: string)
    ensures MatchMarker(ChunkMarker(n) + rest).Some?
    ensures (ChunkMarker(n) + rest)[Len(MatchMarker(ChunkMarker(n) + rest).value)..] == rest
  {
    var ds := NatToString(n);
    assert ChunkMarker(n) + rest == Opening + " " + ds + "]" + rest;
    MarkerGrammar(" ", ds, rest);
  }
}
