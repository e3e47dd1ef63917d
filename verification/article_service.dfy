/** TechListen's Flask service: summarising an article (the language model
    when it answers, an extractive fallback otherwise), turning the summary
    into speech through a chain of providers, and the `/process-article`
    endpoint with its validation, truncation and in-memory cache.

    Everything outside the process is a parameter: the language model is a
    function from the article excerpt it is shown to its answer (`None` when
    the call raises), each remote speech provider either succeeds or not, and
    MD5 is an uninterpreted function from text to key. */
module ArticleService {
  import opened Common
  import opened Text

  /** `Config.MAX_TEXT_LENGTH`. */
  const MaxTextLength: nat := 10000
  /** Articles shorter than this, after stripping, are refused. */
  const MinArticleLength: nat := 100
  /** The number of leading characters the cache key is computed from. */
  const CacheKeyPrefix: nat := 200
  /** The number of leading characters the language model is shown. */
  const PromptExcerpt: nat := 3000
  /** The fallback summary is cut at this many characters. */
  const SummaryLimit: nat := 400
  /** `Config.TTS_PROVIDER`'s default. */
  const DefaultProvider: string := "elevenlabs"

  /** `generate_cache_key`: the hash of the first 200 characters. */
  function CacheKey(md5: string -> string, text: string): (k: string)
    ensures |text| <= CacheKeyPrefix ==> k == md5(text)
    ensures |text| > CacheKeyPrefix ==> k == md5(text[..CacheKeyPrefix])
  {
    md5(Take(text, CacheKeyPrefix))
  }

  /** Texts that agree on their first 200 characters share a cache key. */
  lemma CacheKeySeesOnlyPrefix(md5: string -> string, a: string, b: string)
    requires Take(a, CacheKeyPrefix) == Take(b, CacheKeyPrefix)
    ensures CacheKey(md5, a) == CacheKey(md5, b)
  {
  }

  /** `fallback_summarize`: the first two and the last of the ". "-separated
      sentences when there are at least three, the text itself otherwise;
      then cut to 400 characters plus "...". */
  function FallbackSummarize(text: string): (r: string)
    ensures |r| <= SummaryLimit + 3
    ensures |r| > SummaryLimit ==> r[SummaryLimit..] == "..."
  {
    var sentences := Split(text, ". ");
    var summary :=
      if |sentences| >= 3 then sentences[0] + ". " + sentences[1] + ". " + sentences[|sentences| - 1]
      else Join(sentences, ". ");
    Ellipsize(summary, SummaryLimit)
  }

  /** With fewer than three sentences the summary is the text itself, cut to
      length. */
  lemma FallbackShortText(text: string)
    requires |Split(text, ". ")| < 3
    ensures FallbackSummarize(text) == Ellipsize(text, SummaryLimit)
  {
    JoinSplit(text, ". ");
  }

  /** With three or more sentences the summary keeps the first, the second
      and the last. */
  lemma FallbackLongText(text: string)
    requires |Split(text, ". ")| >= 3
    ensures var ss := Split(text, ". ");
      FallbackSummarize(text) == Ellipsize(ss[0] + ". " + ss[1] + ". " + ss[|ss| - 1], SummaryLimit)
  {
  }

  /** `summarize_with_openai`: the model is shown the first 3000 characters;
      its answer is stripped; if the call raises, the fallback summarises the
      whole text. */
  function Summarize(text: string, llm: string -> Option<string>): (r: string)
    ensures llm(Take(text, PromptExcerpt)).Some? ==> r == Trim(llm(Take(text, PromptExcerpt)).value)
    ensures llm(Take(text, PromptExcerpt)).None? ==> r == FallbackSummarize(text) && |r| <= SummaryLimit + 3
  {
    match llm(Take(text, PromptExcerpt))
    case Some(answer) => Trim(answer)
    case None => FallbackSummarize(text)
  }

  /** When the model answers, nothing past the first 3000 characters matters. */
  lemma SummaryOnlySeesExcerpt(a: string, b: string, llm: string -> Option<string>)
    requires Take(a, PromptExcerpt) == Take(b, PromptExcerpt)
    requires llm(Take(a, PromptExcerpt)).Some?
    ensures Summarize(a, llm) == Summarize(b, llm)
  {
  }

  datatype Provider = ElevenLabs | OpenAi | Aws | Azure | Browser

  /** The keys of the `providers` table. */
  function ProviderNamed(name: string): (p: Option<Provider>)
    ensures p.Some? <==> name in {"elevenlabs", "openai", "aws", "azure", "browser"}
  {
    if name == "elevenlabs" then Some(ElevenLabs)
    else if name == "openai" then Some(OpenAi)
    else if name == "aws" then Some(Aws)
    else if name == "azure" then Some(Azure)
    else if name == "browser" then Some(Browser)
    else None
  }

  function NameOf(p: Provider): string {
    match p
    case ElevenLabs => "elevenlabs"
    case OpenAi => "openai"
    case Aws => "aws"
    case Azure => "azure"
    case Browser => "browser"
  }

  lemma NamesRoundTrip(p: Provider)
    ensures ProviderNamed(NameOf(p)) == Some(p)
  {
  }

  /** The file a remote provider writes under the cache key. */
  function FileSuffix(p: Provider): string {
    match p
    case ElevenLabs => "_elevenlabs.mp3"
    case OpenAi => "_openai.mp3"
    case Aws => "_polly.mp3"
    case Azure => "_azure.wav"
    case Browser => ""
  }

  /** The marker `browser_tts` returns in place of a file: the client speaks
      the text itself. */
  const BrowserMarker: string := "tts:"

  /** One provider's call: a remote one yields its file name when the service
      succeeds (`works`) and nothing otherwise; the browser always yields the
      marked text. */
  function RunProvider(p: Provider, text: string, key: string, works: Provider -> bool): (r: Option<string>)
    ensures p == Browser ==> r == Some(BrowserMarker + text)
    ensures p != Browser ==> (r.Some? <==> works(p))
    ensures r.Some? ==> r.value != ""
  {
    if p == Browser then Some(BrowserMarker + text)
    else if works(p) then Some(key + FileSuffix(p))
    else None
  }

  datatype Speech = Speech(filename: string, provider: string)

  /** `fallback_order`. */
  const FallbackOrder: seq<Provider> := [OpenAi, ElevenLabs, Browser]

  /** The first provider of `order` other than the primary that succeeds. */
  function FirstFallback(order: seq<Provider>, primary: string, text: string, key: string, works: Provider -> bool): (r: Option<Speech>)
    ensures r.Some? ==> exists i :: (0 <= i < |order| && NameOf(order[i]) != primary &&
      RunProvider(order[i], text, key, works) == Some(r.value.filename) && r.value.provider == NameOf(order[i]))
    ensures Browser in order && primary != NameOf(Browser) ==> r.Some?
  {
    if |order| == 0 then None
    else if NameOf(order[0]) != primary && RunProvider(order[0], text, key, works).Some? then
      Some(Speech(RunProvider(order[0], text, key, works).value, NameOf(order[0])))
    else
      var rest := FirstFallback(order[1..], primary, text, key, works);
      assert order[0] == Browser ==> NameOf(order[0]) == primary;
      assert Browser in order && order[0] != Browser ==> Browser in order[1..];
      if rest.Some? then
        var i :| 0 <= i < |order| - 1 && NameOf(order[1..][i]) != primary &&
          RunProvider(order[1..][i], text, key, works) == Some(rest.value.filename) && rest.value.provider == NameOf(order[1..][i]);
        assert order[1..][i] == order[i + 1];
        rest
      else rest
  }

  /** `generate_speech`: the configured provider first, then the fallbacks. */
  function GenerateSpeech(text: string, key: string, primary: string, works: Provider -> bool): (r: Option<Speech>)
    // the speech comes from the provider it names
    ensures r.Some? ==> (ProviderNamed(r.value.provider).Some?
      && RunProvider(ProviderNamed(r.value.provider).value, text, key, works) == Some(r.value.filename))
    // a fallback is used only when the primary is unknown or fails
    ensures r.Some? && r.value.provider != primary ==>
      ProviderNamed(primary).None? || RunProvider(ProviderNamed(primary).value, text, key, works).None?
  {
    var p := ProviderNamed(primary);
    if p.Some? && RunProvider(p.value, text, key, works).Some? then
      Some(Speech(RunProvider(p.value, text, key, works).value, primary))
    else
      var r := FirstFallback(FallbackOrder, primary, text, key, works);
      if r.Some? then
        var i :| 0 <= i < |FallbackOrder| && NameOf(FallbackOrder[i]) != primary &&
          RunProvider(FallbackOrder[i], text, key, works) == Some(r.value.filename) && r.value.provider == NameOf(FallbackOrder[i]);
        NamesRoundTrip(FallbackOrder[i]);
        r
      else r
  }

  /** A known primary provider that succeeds is the one used. */
  lemma PrimaryFirst(text: string, key: string, primary: string, works: Provider -> bool)
    requires ProviderNamed(primary).Some?
    requires RunProvider(ProviderNamed(primary).value, text, key, works).Some?
    ensures GenerateSpeech(text, key, primary, works)
      == Some(Speech(RunProvider(ProviderNamed(primary).value, text, key, works).value, primary))
  {
  }

  /** The last fallback, the browser, always answers unless it is the primary. */
  lemma BrowserFallback(text: string, key: string, primary: string, works: Provider -> bool)
    requires primary != "browser"
    ensures FirstFallback([Browser], primary, text, key, works) == Some(Speech(BrowserMarker + text, "browser"))
  {
  }

  /** ElevenLabs, then the browser. */
  lemma ElevenLabsFallback(text: string, key: string, primary: string, works: Provider -> bool)
    requires primary != "browser"
    ensures var r := FirstFallback([ElevenLabs, Browser], primary, text, key, works);
      && (primary != "elevenlabs" && works(ElevenLabs) ==> r == Some(Speech(key + FileSuffix(ElevenLabs), "elevenlabs")))
      && (!(primary != "elevenlabs" && works(ElevenLabs)) ==> r == Some(Speech(BrowserMarker + text, "browser")))
  {
    assert [ElevenLabs, Browser][1..] == [Browser];
    BrowserFallback(text, key, primary, works);
  }

  /** Otherwise the fallbacks are tried in order, skipping the primary:
      OpenAI, then ElevenLabs, then the browser, which always succeeds. */
  lemma FallbackChosen(text: string, key: string, primary: string, works: Provider -> bool)
    requires ProviderNamed(primary).None? || RunProvider(ProviderNamed(primary).value, text, key, works).None?
    ensures var r := GenerateSpeech(text, key, primary, works);
      && (primary != "openai" && works(OpenAi) ==> r == Some(Speech(key + FileSuffix(OpenAi), "openai")))
      && (!(primary != "openai" && works(OpenAi)) && primary != "elevenlabs" && works(ElevenLabs) ==>
            r == Some(Speech(key + FileSuffix(ElevenLabs), "elevenlabs")))
      && (!(primary != "openai" && works(OpenAi)) && !(primary != "elevenlabs" && works(ElevenLabs)) ==>
            r == Some(Speech(BrowserMarker + text, "browser")))
  {
    assert primary == "browser" ==> ProviderNamed(primary) == Some(Browser);
    assert GenerateSpeech(text, key, primary, works) == FirstFallback(FallbackOrder, primary, text, key, works);
    assert FallbackOrder[1..] == [ElevenLabs, Browser];
    ElevenLabsFallback(text, key, primary, works);
  }

  /** Speech generation never fails: the browser provider always succeeds,
      either as the primary or as the last fallback. */
  lemma SpeechAlwaysProduced(text: string, key: string, primary: string, works: Provider -> bool)
    ensures GenerateSpeech(text, key, primary, works).Some?
  {
    var p := ProviderNamed(primary);
    assert primary == "browser" ==> p == Some(Browser);
    assert Browser in FallbackOrder;
  }

  /** What the client is sent to play: a served file, or the marked text. */
  function AudioUrl(filename: string): (url: string)
    ensures StartsWith(filename, BrowserMarker) ==> url == filename
    ensures !StartsWith(filename, BrowserMarker) ==> url == "/audio/" + filename
  {
    if StartsWith(filename, BrowserMarker) then filename else "/audio/" + filename
  }

  datatype CacheEntry = CacheEntry(summary: string, filename: string, provider: string)

  type Cache = map<string, CacheEntry>

  datatype Reply =
    | Failure(error: string)
    | Success(summary: string, audioUrl: string, provider: string, cached: bool)

  /** The services the endpoint depends on. */
  datatype World = World(
    md5: string -> string,
    llm: string -> Option<string>,
    primary: string,
    works: Provider -> bool)

  /** The value of a JSON object's key; with duplicates the last one wins, as
      in a Python dict built from the document. */
  function Member(members: seq<(string, Json)>, key: string): (v: Option<Json>)
    ensures v.Some? <==> exists i :: 0 <= i < |members| && members[i].0 == key
    // the value is that of the last member carrying the key
    ensures v.Some? ==> exists i :: (0 <= i < |members| && members[i].0 == key && v.value == members[i].1
      && forall j :: i < j < |members| ==> members[j].0 != key)
    decreases |members|
  {
    if |members| == 0 then None
    else if members[|members| - 1].0 == key then Some(members[|members| - 1].1)
    else
      var init := members[..|members| - 1];
      var v := Member(init, key);
      assert forall i :: 0 <= i < |members| - 1 ==> init[i] == members[i];
      if v.Some? then
        var i :| 0 <= i < |init| && init[i].0 == key && v.value == init[i].1
          && forall j :: i < j < |init| ==> init[j].0 != key;
        assert forall j :: i < j < |members| ==> members[j].0 != key by {
          forall j | i < j < |members| ensures members[j].0 != key {
            if j < |init| {
              assert members[j] == init[j];
            }
          }
        }
        v
      else v
  }

  /** A member appended to the body wins for its own key and leaves every
      other key's value alone. */
  lemma MemberAppend(members: seq<(string, Json)>, k: string, x: Json, key: string)
    ensures Member(members + [(k, x)], key) == if k == key then Some(x) else Member(members, key)
  {
  }

  /** The article text the endpoint works on: stripped, then cut to
      `MaxTextLength`. */
  function Article(text: string): (a: string)
    ensures |a| <= MaxTextLength && |a| <= |Trim(text)| && a == Trim(text)[..|a|]
    ensures |Trim(text)| <= MaxTextLength ==> a == Trim(text)
  {
    Take(Trim(text), MaxTextLength)
  }

  /** The checks on the request body: the article to work on, or the error
      reply. */
  function Validate(body: Option<seq<(string, Json)>>): (r: Result<string, string>)
    ensures body.None? || body.value == [] || Member(body.value, "text").None? ==> r == Err("No text provided")
    ensures body.Some? && Member(body.value, "text").Some? && !Member(body.value, "text").value.JStr? ==>
      r == Err("Internal server error")
    ensures body.Some? && Member(body.value, "text").Some? && Member(body.value, "text").value.JStr? ==>
      var raw := Member(body.value, "text").value.s;
      (|Trim(raw)| < MinArticleLength ==> r == Err("Article too short")) &&
      (|Trim(raw)| >= MinArticleLength ==> r == Ok(Article(raw)))
  {
    if body.None? || body.value == [] || Member(body.value, "text").None? then Err("No text provided")
    else match Member(body.value, "text").value
      case JStr(raw) => if |Trim(raw)| < MinArticleLength then Err("Article too short") else Ok(Article(raw))
      case _ => Err("Internal server error")
  }

  /** Answering for a validated article: from the cache when its key is
      there, otherwise by summarising, speaking and caching the result. */
  function Answer(article: string, cache: Cache, w: World): (r: (Reply, Cache))
    ensures var key := CacheKey(w.md5, article);
      && (key in cache ==>
            r == (Success(cache[key].summary, AudioUrl(cache[key].filename), cache[key].provider, true), cache))
      && (key !in cache ==>
            && r.0.Success? && !r.0.cached
            && r.0.summary == Summarize(article, w.llm)
            && key in r.1
            && r.1 == cache[key := CacheEntry(r.0.summary, r.1[key].filename, r.0.provider)]
            && r.0.audioUrl == AudioUrl(r.1[key].filename)
            && GenerateSpeech(r.0.summary, key, w.primary, w.works) == Some(Speech(r.1[key].filename, r.0.provider)))
  {
    var key := CacheKey(w.md5, article);
    if key in cache then
      var hit := cache[key];
      (Success(hit.summary, AudioUrl(hit.filename), hit.provider, true), cache)
    else
      var summary := Summarize(article, w.llm);
      SpeechAlwaysProduced(summary, key, w.primary, w.works);
      var speech := GenerateSpeech(summary, key, w.primary, w.works);
      if speech.None? then (Failure("Failed to generate audio"), cache)
      else
        var e := CacheEntry(summary, speech.value.filename, speech.value.provider);
        (Success(summary, AudioUrl(e.filename), e.provider, false), cache[key := e])
  }

  /** `process_article`. The body is the request's JSON object, `None` when
      there is none. Every refusal leaves the cache alone. */
  function ProcessArticle(body: Option<seq<(string, Json)>>, cache: Cache, w: World): (r: (Reply, Cache))
    ensures Validate(body).Err? ==> r == (Failure(Validate(body).error), cache)
    ensures Validate(body).Ok? ==> r == Answer(Validate(body).value, cache, w)
  {
    match Validate(body)
    case Err(e) => (Failure(e), cache)
    case Ok(article) => Answer(article, cache, w)
  }

  /** The request body `{"text": text}`. */
  function TextBody(text: string): seq<(string, Json)> {
    [("text", JStr(text))]
  }

  /** Articles longer than the limit are summarised from their first
      `MaxTextLength` characters only. */
  lemma LongArticleTruncated(text: string)
    requires |Trim(text)| > MaxTextLength
    ensures |Article(text)| == MaxTextLength
    ensures Article(text) == Trim(text)[..MaxTextLength]
  {
  }

  /** The text-only body passes validation exactly when the stripped text
      is long enough. */
  lemma TextBodyValidates(text: string)
    ensures |Trim(text)| >= MinArticleLength ==> Validate(Some(TextBody(text))) == Ok(Article(text))
    ensures |Trim(text)| < MinArticleLength ==> Validate(Some(TextBody(text))) == Err("Article too short")
  {
    assert Member(TextBody(text), "text") == Some(JStr(text));
  }

  /** Answering the same article again answers from the cache with what the
      first answer was. */
  lemma AnswerTwice(article: string, cache: Cache, w: World)
    ensures var (first, c1) := Answer(article, cache, w);
      var (second, c2) := Answer(article, c1, w);
      first.Success? && second == first.(cached := true) && c2 == c1
  {
    var key := CacheKey(w.md5, article);
    var (first, c1) := Answer(article, cache, w);
    assert key in c1;
    var (second, c2) := Answer(article, c1, w);
    assert second == Success(c1[key].summary, AudioUrl(c1[key].filename), c1[key].provider, true);
  }

  /** Processing an article a second time answers from the cache with what
      the first request returned. */
  lemma RepeatIsCached(text: string, cache: Cache, w: World)
    requires |Trim(text)| >= MinArticleLength
    ensures var (first, c1) := ProcessArticle(Some(TextBody(text)), cache, w);
      var (second, c2) := ProcessArticle(Some(TextBody(text)), c1, w);
      first.Success? && second == first.(cached := true) && c2 == c1
  {
    TextBodyValidates(text);
    AnswerTwice(Article(text), cache, w);
  }

  lemma TakeOfTake(s: string, m: nat, n: nat)
    requires n <= m
    ensures Take(Take(s, m), n) == Take(s, n)
  {
  }

  /** Two articles that agree on their first 200 characters after stripping
      get the same answer once one of them is cached. */
  lemma SharedPrefixSharesAnswer(a: string, b: string, cache: Cache, w: World)
    requires Take(Trim(a), CacheKeyPrefix) == Take(Trim(b), CacheKeyPrefix)
    requires CacheKey(w.md5, Article(a)) in cache
    ensures Answer(Article(a), cache, w) == Answer(Article(b), cache, w)
  {
    TakeOfTake(Trim(a), MaxTextLength, CacheKeyPrefix);
    TakeOfTake(Trim(b), MaxTextLength, CacheKeyPrefix);
    assert CacheKey(w.md5, Article(a)) == CacheKey(w.md5, Article(b));
  }
}
