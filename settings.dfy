/** Application settings (config/settings.py): the defaults the rest of the
    core falls back on, the CORS origin list and the vector-store check run
    at import time. Loading from the environment is not modelled; a
    configuration is a record of the values it ended up with. */
module Settings {
  import opened Wrappers
  import opened Errors
  import opened Text

  datatype Config = Config(
    openaiApiKey: string,
    openaiEmbeddingModel: string,
    openaiChatModel: string,
    openaiTemperature: real,
    vectorStoreType: string,
    pineconeApiKey: Option<string>,
    pineconeEnvironment: Option<string>,
    pineconeIndexName: string,
    embeddingDimensions: int,
    retrievalTopK: int,
    chunkSize: int,
    chunkOverlap: int,
    allowedOrigins: string)

  const DefaultTemperature: real := 0.2
  const DefaultTopK: int := 4
  const DefaultChunkSize: int := 1000
  const DefaultChunkOverlap: int := 200
  const DefaultEmbeddingDimensions: int := 512
  const DefaultChatModel: string := "gpt-4o-mini"
  const DefaultEmbeddingModel: string := "text-embedding-3-small"
  const DefaultOrigins: string := "http://localhost:3000,chrome-extension://*"

  /** The settings when only the required OpenAI key is given. */
  function Defaults(apiKey: string): Config {
    Config(apiKey, DefaultEmbeddingModel, DefaultChatModel, DefaultTemperature, "pinecone",
           None, None, "youtube-rag-index", DefaultEmbeddingDimensions,
           DefaultTopK, DefaultChunkSize, DefaultChunkOverlap, DefaultOrigins)
  }

  /** `allowed_origins_list`: the comma-separated parts, each stripped. */
  function AllowedOriginsList(c: Config): (r: seq<string>)
    ensures |r| == CountChar(c.allowedOrigins, ',') + 1
    ensures forall i :: 0 <= i < |r| ==>
              r[i] == [] || (!IsSpace(r[i][0]) && !IsSpace(r[i][|r[i]| - 1]))
  {
    SplitOnCharCount(c.allowedOrigins, ',');
    StripEachShape(SplitOn(c.allowedOrigins, ","));
    StripEach(SplitOn(c.allowedOrigins, ","))
  }

  /** `[p.strip() for p in parts]`. */
  function StripEach(parts: seq<string>): (r: seq<string>)
    ensures |r| == |parts| && forall i :: 0 <= i < |parts| ==> r[i] == Strip(parts[i])
  {
    seq(|parts|, i requires 0 <= i < |parts| => Strip(parts[i]))
  }

  lemma StripEachShape(parts: seq<string>)
    ensures var r := StripEach(parts);
            forall i :: 0 <= i < |r| ==> r[i] == [] || (!IsSpace(r[i][0]) && !IsSpace(r[i][|r[i]| - 1]))
  {
    forall i | 0 <= i < |parts|
      ensures Strip(parts[i]) == [] || (!IsSpace(Strip(parts[i])[0]) && !IsSpace(Strip(parts[i])[|Strip(parts[i])| - 1]))
    {
      StripShape(parts[i]);
    }
  }

  /** Origins written without whitespace come back exactly: joining the
      list with "," gives the setting again. */
  lemma OriginsRoundTrip(c: Config)
    requires NoSpace(c.allowedOrigins)
    ensures Join(AllowedOriginsList(c), ",") == c.allowedOrigins
  {
    var parts := SplitOn(c.allowedOrigins, ",");
    PartsNoSpace(c.allowedOrigins, ",");
    forall i | 0 <= i < |parts| ensures Strip(parts[i]) == parts[i] {
      StripNoSpace(parts[i]);
    }
    assert AllowedOriginsList(c) == parts;
    JoinSplitOn(c.allowedOrigins, ",");
  }

  /** The pieces of a whitespace-free string are whitespace-free. */
  lemma {:induction false} PartsNoSpace(s: string, sep: string)
    requires sep != [] && NoSpace(s)
    ensures forall i :: 0 <= i < |SplitOn(s, sep)| ==> NoSpace(SplitOn(s, sep)[i])
    decreases |s|
  {
    var r := SplitOn(s, sep);
    if |s| < |sep| {
    } else if s[..|sep|] == sep {
      PartsNoSpace(s[|sep|..], sep);
      assert r == [""] + SplitOn(s[|sep|..], sep);
    } else {
      PartsNoSpace(s[1..], sep);
      var rest := SplitOn(s[1..], sep);
      assert r == [[s[0]] + rest[0]] + rest[1..];
      assert NoSpace([s[0]] + rest[0]) by {
        assert !IsSpace(s[0]);
      }
    }
  }

  /** The default setting yields the two documented origins. */
  lemma DefaultOriginsList(apiKey: string)
    ensures AllowedOriginsList(Defaults(apiKey)) == ["http://localhost:3000", "chrome-extension://*"]
  {
    var a, b := "http://localhost:3000", "chrome-extension://*";
    NoCommaNoSpace(a);
    NoCommaNoSpace(b);
    assert DefaultOrigins == a + "," + b;
    OriginsOfTwo(Defaults(apiKey), a, b);
  }

  /** Two comma-free, whitespace-free origins separated by one comma. */
  lemma OriginsOfTwo(c: Config, a: string, b: string)
    requires NoSpace(a) && NoSpace(b) && ',' !in a && ',' !in b
    requires c.allowedOrigins == a + "," + b
    ensures AllowedOriginsList(c) == [a, b]
  {
    SplitTwo(a, b);
    StripNoSpace(a);
    StripNoSpace(b);
  }

  lemma NoCommaNoSpace(w: string)
    requires w == "http://localhost:3000" || w == "chrome-extension://*"
    ensures NoSpace(w) && ',' !in w
  {
    PrintableNoSpace(w);
  }

  /** Visible ASCII characters are not whitespace. */
  lemma PrintableNoSpace(w: string)
    requires forall i :: 0 <= i < |w| ==> '!' <= w[i] <= '~'
    ensures NoSpace(w)
  {
  }

  /** Splitting "a,b" on "," when neither part has a comma. */
  lemma SplitTwo(a: string, b: string)
    requires ',' !in a && ',' !in b
    ensures SplitOn(a + "," + b, ",") == [a, b]
  {
    var none: string := [];
    assert SplitOn(none, ",") == [none];
    SplitNoSep(b, none);
    assert b + none == b;
    assert SplitOn(b, ",") == [b];
    var u := "," + b;
    assert u[..1] == "," && u[1..] == b;
    assert SplitOn(u, ",") == [none, b];
    SplitNoSep(a, u);
    assert a + "," + b == a + u;
    assert a + none == a;
  }

  /** A comma-free prefix is glued to the first piece of what follows. */
  lemma {:induction false} SplitNoSep(a: string, u: string)
    requires ',' !in a
    ensures var r := SplitOn(u, ","); SplitOn(a + u, ",") == [a + r[0]] + r[1..]
    decreases |a|
  {
    var r := SplitOn(u, ",");
    if a == [] {
      assert a + u == u && a + r[0] == r[0];
      assert r == [r[0]] + r[1..];
    } else {
      var s := a + u;
      assert s[..1] == [a[0]] && a[0] != ',';
      assert s[1..] == a[1..] + u;
      SplitNoSep(a[1..], u);
      var rest := SplitOn(s[1..], ",");
      assert rest[0] == a[1..] + r[0] && rest[1..] == r[1..];
      assert [s[0]] + (a[1..] + r[0]) == a + r[0];
    }
  }

  /** Truthiness of an optional string setting. */
  predicate Truthy(v: Option<string>) {
    v.Some? && v.value != []
  }

  /** `validate_vector_store_config`: only a "pinecone" store is checked; the
      API key is checked before the environment. */
  function ValidateVectorStoreConfig(c: Config): (r: Result<(), Error>)
    ensures r.Success? <==>
              c.vectorStoreType != "pinecone" || (Truthy(c.pineconeApiKey) && Truthy(c.pineconeEnvironment))
    ensures r.Failure? ==> r.error.kind == ValueError
    ensures r.Failure? && !Truthy(c.pineconeApiKey) ==>
              r.error.message == "PINECONE_API_KEY is required when VECTOR_STORE_TYPE is 'pinecone'"
  {
    if c.vectorStoreType == "pinecone" then
      if !Truthy(c.pineconeApiKey) then
        Failure(Error(ValueError, "PINECONE_API_KEY is required when VECTOR_STORE_TYPE is 'pinecone'"))
      else if !Truthy(c.pineconeEnvironment) then
        Failure(Error(ValueError, "PINECONE_ENVIRONMENT is required when VECTOR_STORE_TYPE is 'pinecone'"))
      else Success(())
    else Success(())
  }

  /** With nothing but the OpenAI key set, importing the settings fails on the
      missing Pinecone key. */
  lemma DefaultsNeedPineconeKey(apiKey: string)
    ensures ValidateVectorStoreConfig(Defaults(apiKey)).Failure?
    ensures ValidateVectorStoreConfig(Defaults(apiKey)).error.message
            == "PINECONE_API_KEY is required when VECTOR_STORE_TYPE is 'pinecone'"
  {
  }
}
