/** Input validation (utils/validators.py): video ids, YouTube URLs, queries
    and free text. Each validator returns the cleaned value or the exception
    it raises. URL parsing is a parameter returning the three parts the
    validator reads. */
module Validators {
  import opened Wrappers
  import opened Errors
  import opened Text

  /** A character of `[a-zA-Z0-9_-]`. */
  predicate IsIdChar(c: char) {
    'a' <= c <= 'z' || 'A' <= c <= 'Z' || '0' <= c <= '9' || c == '_' || c == '-'
  }

  /** Matches `^[a-zA-Z0-9_-]{11}$`. */
  predicate IsVideoId(s: string) {
    |s| == 11 && forall i :: 0 <= i < |s| ==> IsIdChar(s[i])
  }

  /** `validate_youtube_video_id`: an empty argument is rejected as is,
      anything else is stripped and must then be a well-formed id. */
  function ValidateVideoId(videoId: string): (r: Result<string, Error>)
    ensures r.Failure? ==> r.error.kind == InvalidVideoIDError
    ensures r.Success? <==> videoId != [] && IsVideoId(Strip(videoId))
    ensures r.Success? ==> r.value == Strip(videoId)
  {
    if videoId == [] then Failure(Error(InvalidVideoIDError, "Video ID cannot be empty"))
    else
      var v := Strip(videoId);
      if IsVideoId(v) then Success(v)
      else Failure(Error(InvalidVideoIDError,
                         "Invalid YouTube video ID format: '" + v + "'. Must be 11 characters (letters, numbers, -, _)"))
  }

  /** An accepted id is accepted again unchanged. */
  lemma ValidateVideoIdIdempotent(videoId: string)
    ensures ValidateVideoId(videoId).Success? ==>
              ValidateVideoId(ValidateVideoId(videoId).value) == ValidateVideoId(videoId)
  {
    var v := Strip(videoId);
    if IsVideoId(v) {
      VideoIdNoSpace(v);
      StripNoSpace(v);
    }
  }

  /** Id characters are not whitespace. */
  lemma VideoIdNoSpace(v: string)
    requires IsVideoId(v)
    ensures NoSpace(v)
  {
    forall i | 0 <= i < |v| ensures !IsSpace(v[i]) {
      assert IsIdChar(v[i]);
    }
  }

  /** Surrounding whitespace does not change the verdict on an id. */
  lemma VideoIdIgnoresPadding(id: string, pad: string)
    requires IsVideoId(id) && forall i :: 0 <= i < |pad| ==> IsSpace(pad[i])
    ensures ValidateVideoId(pad + id + pad) == Success(id)
  {
    VideoIdNoSpace(id);
    StripAround(pad, id);
  }

  /** Stripping removes exactly the whitespace padding around a word-like
      core whose ends are not whitespace. */
  lemma StripAround(pad: string, core: string)
    requires core != [] && NoSpace(core) && forall i :: 0 <= i < |pad| ==> IsSpace(pad[i])
    ensures Strip(pad + core + pad) == core
  {
    var s := pad + core + pad;
    LStripPad(pad, core + pad);
    assert s == pad + (core + pad);
    RStripPad(core, pad);
  }

  lemma {:induction false} LStripPad(pad: string, rest: string)
    requires forall i :: 0 <= i < |pad| ==> IsSpace(pad[i])
    requires rest != [] && !IsSpace(rest[0])
    ensures LStrip(pad + rest) == rest
    decreases |pad|
  {
    var s := pad + rest;
    if pad == [] {
      assert s == rest;
    } else {
      assert s[0] == pad[0] && IsSpace(s[0]);
      assert s[1..] == pad[1..] + rest;
      LStripPad(pad[1..], rest);
      assert LStrip(s) == LStrip(s[1..]);
    }
  }

  lemma {:induction false} RStripPad(core: string, pad: string)
    requires forall i :: 0 <= i < |pad| ==> IsSpace(pad[i])
    requires core != [] && !IsSpace(core[|core| - 1])
    ensures RStrip(core + pad) == core
    decreases |pad|
  {
    if pad == [] {
      assert core + pad == core;
    } else {
      var p := pad[..|pad| - 1];
      assert (core + pad)[..|core + pad| - 1] == core + p;
      RStripPad(core, p);
    }
  }

  // ---------------------------------------------------------------------
  // URLs

  /** What `urlparse` yields that the validator reads; `query` is
      `parse_qs(parsed.query)`, a list of values per key. */
  datatype ParsedUrl = ParsedUrl(netloc: string, path: string, query: map<string, seq<string>>)

  /** `urlparse`, which may itself raise; a failure carries `str(e)`. */
  type UrlParser = string -> Result<ParsedUrl, string>

  const ValidDomains: seq<string> := ["youtube.com", "www.youtube.com", "m.youtube.com", "youtu.be"]

  /** The candidate id, tried in order: a "watch" path's `v` parameter, a
      youtu.be path, an "embed" path's last segment. An empty `v` list makes
      `[0]` raise an IndexError. */
  function CandidateId(p: ParsedUrl): (r: Result<Option<string>, Error>)
    ensures r.Failure? ==> r.error.kind == IndexError
  {
    if Contains(p.path, "watch") then
      if "v" !in p.query then Success(None)
      else if p.query["v"] == [] then Failure(Error(IndexError, "list index out of range"))
      else Success(Some(p.query["v"][0]))
    else if p.netloc == "youtu.be" then Success(Some(LStripChar(p.path, '/')))
    else if Contains(p.path, "embed") then
      var parts := SplitOn(p.path, "/embed/");
      Success(Some(parts[|parts| - 1]))
    else Success(None)
  }

  /** `extract_video_id_from_url`: the body inside the try; the id check at the
      end raises InvalidVideoIDError, everything else is InvalidURLError. */
  function ExtractInner(url: string, parse: UrlParser): Result<string, Error> {
    match parse(Strip(url))
    case Failure(msg) => Failure(Error(ValueError, msg))
    case Success(p) =>
      if p.netloc !in ValidDomains then
        Failure(Error(InvalidURLError, "Invalid YouTube domain: " + p.netloc
                      + ". Must be one of: youtube.com, www.youtube.com, m.youtube.com, youtu.be"))
      else
        match CandidateId(p)
        case Failure(e) => Failure(e)
        case Success(None) => Failure(Error(InvalidURLError, "Could not extract video ID from URL: " + Strip(url)))
        case Success(Some(id)) =>
          if id == [] then Failure(Error(InvalidURLError, "Could not extract video ID from URL: " + Strip(url)))
          else ValidateVideoId(id)
  }

  /** `extract_video_id_from_url`, with the except clause re-raising the two
      validation errors and wrapping every other failure. */
  function ExtractVideoIdFromUrl(url: string, parse: UrlParser): (r: Result<string, Error>)
    ensures r.Failure? ==> r.error.kind == InvalidURLError || r.error.kind == InvalidVideoIDError
    ensures url == [] ==> r == Failure(Error(InvalidURLError, "URL cannot be empty"))
    ensures r.Success? ==> ValidateVideoId(r.value) == r
  {
    if url == [] then Failure(Error(InvalidURLError, "URL cannot be empty"))
    else
      match ExtractInner(url, parse)
      case Success(id) =>
        ExtractedIdValid(url, parse);
        Success(id)
      case Failure(e) =>
        if e.kind == InvalidURLError || e.kind == InvalidVideoIDError then Failure(e)
        else Failure(Error(InvalidURLError, "Failed to parse URL: " + e.message))
  }

  lemma ExtractedIdValid(url: string, parse: UrlParser)
    requires ExtractInner(url, parse).Success?
    ensures ValidateVideoId(ExtractInner(url, parse).value) == ExtractInner(url, parse)
  {
    var p := parse(Strip(url)).value;
    var id := CandidateId(p).value.value;
    ValidateVideoIdIdempotent(id);
  }

  /** A host outside the four YouTube domains is refused whatever the path. */
  lemma ForeignDomainRefused(url: string, parse: UrlParser)
    requires url != [] && parse(Strip(url)).Success? && parse(Strip(url)).value.netloc !in ValidDomains
    ensures ExtractVideoIdFromUrl(url, parse).Failure?
    ensures ExtractVideoIdFromUrl(url, parse).error.kind == InvalidURLError
  {
  }

  /** The branches are tried in order: a path containing "watch" is read from
      its `v` parameter even on youtu.be, and "embed" is only looked at when
      neither earlier branch applies. */
  lemma WatchBranchFirst(p: ParsedUrl, id: string)
    requires Contains(p.path, "watch") && "v" in p.query && p.query["v"] != [] && p.query["v"][0] == id
    ensures CandidateId(p) == Success(Some(id))
  {
  }

  lemma ShortLinkBranch(p: ParsedUrl)
    requires !Contains(p.path, "watch") && p.netloc == "youtu.be"
    ensures CandidateId(p) == Success(Some(LStripChar(p.path, '/')))
  {
  }

  /** `is_valid_youtube_url`: catches the two validation errors only. */
  function IsValidYoutubeUrl(url: string, parse: UrlParser): Result<bool, Error> {
    match ExtractVideoIdFromUrl(url, parse)
    case Success(_) => Success(true)
    case Failure(e) =>
      if e.kind == InvalidURLError || e.kind == InvalidVideoIDError then Success(false)
      else Failure(e)
  }

  /** Because every other failure was wrapped, the check never raises, and it
      holds exactly when extraction succeeds. */
  lemma IsValidYoutubeUrlTotal(url: string, parse: UrlParser)
    ensures IsValidYoutubeUrl(url, parse).Success?
    ensures IsValidYoutubeUrl(url, parse).value <==> ExtractVideoIdFromUrl(url, parse).Success?
  {
  }

  // ---------------------------------------------------------------------
  // queries and free text

  /** `validate_query(query, min_length, max_length)`: whitespace runs are
      collapsed and the ends trimmed before the length checks. */
  function ValidateQuery(query: string, minLength: int, maxLength: int): (r: Result<string, Error>)
    ensures r.Failure? ==> r.error.kind == ValueError
    ensures r.Success? <==> query != [] && minLength <= |Collapse(query)| <= maxLength
    ensures r.Success? ==> r.value == Collapse(query) && Collapsed(r.value)
  {
    CollapseShape(query);
    if query == [] then Failure(Error(ValueError, "Query cannot be empty"))
    else
      var q := Collapse(query);
      if |q| < minLength then
        Failure(Error(ValueError, "Query too short. Minimum " + IntToString(minLength) + " characters required."))
      else if |q| > maxLength then
        Failure(Error(ValueError, "Query too long. Maximum " + IntToString(maxLength) + " characters allowed."))
      else Success(q)
  }

  /** With a positive minimum an accepted query is accepted again unchanged
      (the defaults are 3 and 500). */
  lemma ValidateQueryIdempotent(query: string, minLength: int, maxLength: int)
    requires minLength >= 1
    ensures ValidateQuery(query, minLength, maxLength).Success? ==>
              ValidateQuery(ValidateQuery(query, minLength, maxLength).value, minLength, maxLength)
              == ValidateQuery(query, minLength, maxLength)
  {
    var r := ValidateQuery(query, minLength, maxLength);
    if r.Success? {
      CollapseIdempotent(query);
    }
  }

  /** Whitespace-only input passes the emptiness check and is then too short. */
  lemma BlankQueryTooShort(query: string, minLength: int, maxLength: int)
    requires query != [] && forall i :: 0 <= i < |query| ==> IsSpace(query[i])
    requires minLength >= 1
    ensures ValidateQuery(query, minLength, maxLength)
            == Failure(Error(ValueError, "Query too short. Minimum " + IntToString(minLength) + " characters required."))
  {
    BlankSplit(query);
  }

  lemma {:induction false} BlankSplit(s: string)
    requires forall i :: 0 <= i < |s| ==> IsSpace(s[i])
    ensures Split(s) == [] && Collapse(s) == []
    decreases |s|
  {
    if s != [] {
      BlankSplit(s[1..]);
    }
  }

  /** `sanitize_text(text, max_length)`: collapse whitespace, then, when
      max_length is truthy and exceeded, cut with `[:max_length]` (a negative
      bound counts from the end) and strip the right end. */
  function SanitizeText(text: string, maxLength: Option<int>): (r: string)
    ensures Collapsed(r)
    ensures maxLength.Some? && maxLength.value > 0 ==> |r| <= maxLength.value
    ensures maxLength.None? || maxLength.value == 0 ==> r == Collapse(text)
  {
    CollapseShape(text);
    if text == [] then ""
    else
      var t := Collapse(text);
      if maxLength.Some? && maxLength.value != 0 && |t| > maxLength.value then
        var cut := PyTake(t, maxLength.value);
        CollapsedCut(t, |cut|);
        RStrip(cut)
      else t
  }

  /** A prefix of a collapsed string, right-stripped, is still collapsed. */
  lemma CollapsedCut(t: string, n: nat)
    requires Collapsed(t) && n <= |t|
    ensures Collapsed(RStrip(t[..n]))
  {
    var r := RStrip(t[..n]);
    forall i | 0 <= i < |r| && IsSpace(r[i])
      ensures r[i] == ' ' && 0 < i < |r| - 1 && !IsSpace(r[i - 1]) && !IsSpace(r[i + 1])
    {
      assert r[i] == t[i];
      if i + 1 < |r| {
        assert r[i + 1] == t[i + 1];
      }
      if i > 0 {
        assert r[i - 1] == t[i - 1];
      }
    }
  }

  /** Sanitizing twice with the same non-negative bound changes nothing. */
  lemma SanitizeIdempotent(text: string, maxLength: Option<int>)
    requires maxLength.None? || maxLength.value >= 0
    ensures SanitizeText(SanitizeText(text, maxLength), maxLength) == SanitizeText(text, maxLength)
  {
    var r := SanitizeText(text, maxLength);
    CollapsedFixed(r);
  }

  /** A negative bound drops characters from the end on every call, so that
      case is not idempotent. */
  lemma SanitizeNegativeBound()
    ensures SanitizeText("abc", Some(-1)) == "ab"
    ensures SanitizeText("ab", Some(-1)) == "a"
  {
    SanitizeOnWord("abc", -1);
    SanitizeOnWord("ab", -1);
  }

  lemma SanitizeOnWord(w: string, k: int)
    requires w == "abc" || w == "ab"
    requires k == -1
    ensures SanitizeText(w, Some(k)) == w[..|w| - 1]
  {
    var ws := [w];
    assert IsWord(w) by {
      assert NoSpace(w);
    }
    assert AllWords(ws);
    SplitJoinWord(w);
  }

  lemma SplitJoinWord(w: string)
    requires IsWord(w)
    ensures Collapse(w) == w
  {
    SplitOfWord(w, []);
    assert w + [] == w;
  }
}
