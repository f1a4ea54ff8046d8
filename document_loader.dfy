/** `YouTubeTranscriptLoader` (indexing/document_loader.py): validates the
    video id, fetches the transcript segments, and joins them into one text
    with normalised spacing. The preferred languages are fixed at
    construction, so a loader is a value; the YouTube transcript API is a
    function value giving the outcome of one fetch. */
module DocumentLoader {
  import opened Wrappers
  import opened Errors
  import opened Text
  import Validators

  /** A transcript segment: its text (absent when the API omits the key) and
      its timing. */
  datatype Segment = Segment(text: Option<string>, start: real, duration: real)

  /** The outcome of `YouTubeTranscriptApi.get_transcript`: the segments, one
      of the three exceptions `load` tells apart, or any other exception. */
  datatype FetchOutcome =
    | Fetched(segments: seq<Segment>)
    | TranscriptsDisabled
    | NoTranscriptFound
    | VideoUnavailable
    | OtherFailure(message: string)

  type TranscriptApi = (string, seq<string>) -> FetchOutcome

  /** One entry of `YouTubeTranscriptApi.list_transcripts`. */
  datatype Listing = Listing(language: string, languageCode: string, isGenerated: bool, isTranslatable: bool)

  type ListingApi = string -> Result<seq<Listing>, string>

  datatype Loader = Loader(preferredLanguages: seq<string>, fetch: TranscriptApi, listing: ListingApi)

  /** `__init__`: `preferred_languages or ["en"]`. */
  function NewLoader(preferredLanguages: Option<seq<string>>, fetch: TranscriptApi, listing: ListingApi): (l: Loader)
    ensures l.preferredLanguages != []
    ensures preferredLanguages.Some? && preferredLanguages.value != [] ==> l.preferredLanguages == preferredLanguages.value
    ensures preferredLanguages.None? || preferredLanguages.value == [] ==> l.preferredLanguages == ["en"]
    ensures l.fetch == fetch && l.listing == listing
  {
    Loader(if preferredLanguages.Some? && preferredLanguages.value != [] then preferredLanguages.value else ["en"],
           fetch, listing)
  }

  /** `_detect_language`: the first preferred language, whatever the segments. */
  function DetectLanguage(l: Loader, segments: seq<Segment>): (language: string)
    requires l.preferredLanguages != []
    ensures language in l.preferredLanguages
  {
    l.preferredLanguages[0]
  }

  /** The language reported is "en" unless a non-empty list of preferences is
      given, in which case it is the first of them. */
  lemma DetectedLanguageDefault(fetch: TranscriptApi, listing: ListingApi, segments: seq<Segment>, languages: seq<string>)
    ensures DetectLanguage(NewLoader(None, fetch, listing), segments) == "en"
    ensures DetectLanguage(NewLoader(Some([]), fetch, listing), segments) == "en"
    ensures languages != [] ==> DetectLanguage(NewLoader(Some(languages), fetch, listing), segments) == languages[0]
  {
  }

  /** `[segment["text"] for segment in transcript_list]`: a segment without
      the key raises KeyError. */
  function SegmentTexts(segments: seq<Segment>): (r: Result<seq<string>, Error>)
    ensures r.Success? <==> forall i :: 0 <= i < |segments| ==> segments[i].text.Some?
    ensures r.Success? ==> |r.value| == |segments| && forall i :: 0 <= i < |segments| ==> r.value[i] == segments[i].text.value
    ensures r.Failure? ==> r.error == Error(KeyError, "'text'")
  {
    if segments == [] then Success([])
    else
      var rest := SegmentTexts(segments[1..]);
      if segments[0].text.None? then Failure(Error(KeyError, "'text'"))
      else if rest.Failure? then rest
      else Success([segments[0].text.value] + rest.value)
  }

  /** `_concatenate_transcript`: the texts joined with single spaces, then
      every run of whitespace collapsed to one space. */
  function Concatenate(texts: seq<string>): (full: string)
    ensures Collapsed(full)
    ensures full == [] || (!IsSpace(full[0]) && !IsSpace(full[|full| - 1]))
  {
    var full := Collapse(Join(texts, " "));
    CollapseShape(Join(texts, " "));
    SplitYieldsWords(Join(texts, " "));
    JoinWordsCollapsed(Split(Join(texts, " ")));
    full
  }

  /** Concatenating an already concatenated transcript changes nothing, and a
      single segment is only re-spaced. */
  lemma ConcatenateIdempotent(texts: seq<string>)
    ensures Concatenate([Concatenate(texts)]) == Concatenate(texts)
    ensures |texts| == 1 ==> Concatenate(texts) == Collapse(texts[0])
  {
    CollapseIdempotent(Join(texts, " "));
  }

  /** Python's `repr` of a list of language codes, as `load` prints it. */
  function ListRepr(xs: seq<string>): string {
    "[" + Join(Quoted(xs), ", ") + "]"
  }

  function Quoted(xs: seq<string>): (r: seq<string>)
    ensures |r| == |xs| && forall i :: 0 <= i < |xs| ==> r[i] == "'" + xs[i] + "'"
  {
    seq(|xs|, i requires 0 <= i < |xs| => "'" + xs[i] + "'")
  }

  /** The dictionary `load` returns; `chunks` holds the segments as fetched. */
  datatype TranscriptData = TranscriptData(text: string, videoId: string, language: string,
                                           chunks: seq<Segment>, numSegments: nat, totalChars: nat)

  /** The exception `load` raises for a fetch that did not succeed. */
  function FetchError(l: Loader, videoId: string, outcome: FetchOutcome): (e: Error)
    requires !outcome.Fetched?
    ensures outcome.TranscriptsDisabled? || outcome.NoTranscriptFound? ==> e.kind == TranscriptNotAvailableError
    ensures outcome.VideoUnavailable? || outcome.OtherFailure? ==> e.kind == TranscriptFetchError
  {
    match outcome
    case TranscriptsDisabled => Error(TranscriptNotAvailableError, "Transcripts are disabled for video: " + videoId)
    case NoTranscriptFound =>
      Error(TranscriptNotAvailableError, "No transcript found for video: " + videoId + " in languages: "
                                         + ListRepr(l.preferredLanguages))
    case VideoUnavailable => Error(TranscriptFetchError, "Video unavailable: " + videoId)
    case OtherFailure(m) => Error(TranscriptFetchError, "Failed to fetch transcript for " + videoId + ": " + m)
  }

  /** What `load` does once the id `v` is valid and the fetch has given
      `outcome`. */
  function Loaded(l: Loader, v: string, outcome: FetchOutcome): (r: Result<TranscriptData, Error>)
    requires l.preferredLanguages != []
    ensures !outcome.Fetched? ==> r == Failure(FetchError(l, v, outcome))
    ensures outcome.Fetched? && SegmentTexts(outcome.segments).Failure? ==>
              r == Failure(Error(TranscriptFetchError, "Failed to fetch transcript for " + v + ": "
                                                       + SegmentTexts(outcome.segments).error.message))
    ensures outcome.Fetched? && SegmentTexts(outcome.segments).Success? ==>
              r.Success? && r.value.videoId == v && r.value.chunks == outcome.segments
              && r.value.text == Concatenate(SegmentTexts(outcome.segments).value)
              && r.value.language == l.preferredLanguages[0]
              && r.value.numSegments == |outcome.segments| && r.value.totalChars == |r.value.text|
  {
    match outcome
    case Fetched(segments) =>
      (match SegmentTexts(segments)
       case Failure(e) => Failure(Error(TranscriptFetchError, "Failed to fetch transcript for " + v + ": " + e.message))
       case Success(texts) =>
         var full := Concatenate(texts);
         Success(TranscriptData(full, v, DetectLanguage(l, segments), segments, |segments|, |full|)))
    case _ => Failure(FetchError(l, v, outcome))
  }

  /** `load(video_id)`: the id is validated before anything is fetched, and
      its InvalidVideoIDError is not translated; every fetch failure becomes
      TranscriptNotAvailableError or TranscriptFetchError (a segment without
      text is reported with the KeyError's message, `'text'`). */
  function Load(l: Loader, videoId: string): (r: Result<TranscriptData, Error>)
    requires l.preferredLanguages != []
    ensures Validators.ValidateVideoId(videoId).Failure? ==> r == Failure(Validators.ValidateVideoId(videoId).error)
    ensures Validators.ValidateVideoId(videoId).Success? ==>
              var v := Validators.ValidateVideoId(videoId).value;
              r == Loaded(l, v, l.fetch(v, l.preferredLanguages))
  {
    var v :- Validators.ValidateVideoId(videoId);
    Loaded(l, v, l.fetch(v, l.preferredLanguages))
  }

  /** Every failure of `load` is a validation error or one of the two
      transcript errors, which are indexing errors; a successful text is in
      collapsed shape. */
  lemma LoadOutcomes(l: Loader, videoId: string)
    requires l.preferredLanguages != []
    ensures Load(l, videoId).Failure? ==>
              (Load(l, videoId).error.kind == InvalidVideoIDError || Load(l, videoId).error.kind == TranscriptNotAvailableError
               || Load(l, videoId).error.kind == TranscriptFetchError)
    ensures Load(l, videoId).Failure? && Load(l, videoId).error.kind != InvalidVideoIDError ==>
              IsA(Load(l, videoId).error.kind, IndexingError)
    ensures Load(l, videoId).Failure? && Load(l, videoId).error.kind == InvalidVideoIDError ==>
              Validators.ValidateVideoId(videoId).Failure?
    ensures Load(l, videoId).Success? ==> Collapsed(Load(l, videoId).value.text)
  {
    var r := Load(l, videoId);
    if Validators.ValidateVideoId(videoId).Success? {
      var v := Validators.ValidateVideoId(videoId).value;
      var outcome := l.fetch(v, l.preferredLanguages);
      assert r == Loaded(l, v, outcome);
      if r.Failure? {
        var k := r.error.kind;
        assert k == TranscriptNotAvailableError || k == TranscriptFetchError;
        assert IsA(k, IndexingError) by {
          if k == TranscriptNotAvailableError {
            assert Parent(TranscriptNotAvailableError) == Some(IndexingError);
          } else {
            assert Parent(TranscriptFetchError) == Some(IndexingError);
          }
        }
      }
    } else {
      assert r.error.kind == InvalidVideoIDError;
    }
  }

  /** A malformed id is refused whatever the transcript API would do. */
  lemma InvalidIdBeforeFetch(l: Loader, fetch2: TranscriptApi, videoId: string)
    requires l.preferredLanguages != [] && Validators.ValidateVideoId(videoId).Failure?
    ensures Load(l, videoId) == Load(l.(fetch := fetch2), videoId)
    ensures Load(l, videoId).error.kind == InvalidVideoIDError
  {
  }

  /** `list_available_transcripts(video_id)`: one entry per listed
      transcript, in order, with its four fields; a listing failure becomes
      TranscriptFetchError, while an invalid id fails first, unwrapped. */
  method ListAvailableTranscripts(l: Loader, videoId: string) returns (r: Result<seq<Listing>, Error>)
    ensures Validators.ValidateVideoId(videoId).Failure? ==> r == Failure(Validators.ValidateVideoId(videoId).error)
    ensures Validators.ValidateVideoId(videoId).Success? ==>
              var listed := l.listing(Validators.ValidateVideoId(videoId).value);
              && (listed.Failure? ==> r == Failure(Error(TranscriptFetchError, "Failed to list transcripts: " + listed.error)))
              && (listed.Success? ==> r.Success? && |r.value| == |listed.value|
                                      && forall i :: 0 <= i < |r.value| ==> r.value[i] == listed.value[i])
  {
    var checked := Validators.ValidateVideoId(videoId);
    if checked.Failure? {
      return Failure(checked.error);
    }
    var listed := l.listing(checked.value);
    if listed.Failure? {
      return Failure(Error(TranscriptFetchError, "Failed to list transcripts: " + listed.error));
    }
    var available: seq<Listing> := [];
    var i := 0;
    while i < |listed.value|
      invariant 0 <= i <= |listed.value| && |available| == i
      invariant forall j :: 0 <= j < i ==> available[j] == listed.value[j]
    {
      var t := listed.value[i];
      available := available + [Listing(t.language, t.languageCode, t.isGenerated, t.isTranslatable)];
      i := i + 1;
    }
    return Success(available);
  }

  /** `load_youtube_transcript(video_id, languages)`: a fresh loader, then
      `load`. */
  function LoadYoutubeTranscript(videoId: string, languages: Option<seq<string>>,
                                 fetch: TranscriptApi, listing: ListingApi): (r: Result<TranscriptData, Error>)
    ensures r.Success? ==> r.value.language == (if languages.Some? && languages.value != [] then languages.value[0] else "en")
    ensures r.Success? ==> r.value.totalChars == |r.value.text| && r.value.numSegments == |r.value.chunks|
  {
    Load(NewLoader(languages, fetch, listing), videoId)
  }
}
