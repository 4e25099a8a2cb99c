/**
 * The POST /summarize handler: reads text and summary type from the request
 * body, answers from the cache when it can, otherwise asks the summarization
 * provider for the requested style and caches what it returns.
 *
 * The provider (the four style-specific generators, each one model call) is a
 * function from the requested style and the text to a generation result. The
 * two clock readings the handler takes (one when it reads the cache, one when
 * it writes it) are parameters.
 */
module Summarizer {
  import opened Wrappers
  import opened SummaryCache

  /** The four summary styles the handler dispatches on. */
  datatype SummaryType = Paragraph | TwoParagraph | ParagraphBullet | Bullet

  /** The name a client sends for each style. */
  function TypeName(t: SummaryType): string
  {
    match t
    case Paragraph => "paragraph"
    case TwoParagraph => "two_paragraph"
    case ParagraphBullet => "paragraph_bullet"
    case Bullet => "bullet"
  }

  /** The style a client's type string names, if any. */
  function ParseType(s: string): (r: Option<SummaryType>)
    ensures r.Some? ==> TypeName(r.value) == s
    ensures r.None? ==> forall t :: TypeName(t) != s
  {
    if s == "paragraph" then Some(Paragraph)
    else if s == "two_paragraph" then Some(TwoParagraph)
    else if s == "paragraph_bullet" then Some(ParagraphBullet)
    else if s == "bullet" then Some(Bullet)
    else None
  }

  /** Every style's name parses back to that style. */
  lemma ParseTypeName(t: SummaryType)
    ensures ParseType(TypeName(t)) == Some(t)
  {
  }

  /** The type used when the request names none. */
  const DefaultType: string := "paragraph"

  const NoTextMessage: string := "No text provided"
  const InvalidTypeMessage: string := "Invalid summary type"
  const GenerationErrorPrefix: string := "Error generating summary: "

  /**
   * The request body. `Fields` is a JSON object whose "text" and "type" members
   * are present (Some) or absent (None); `Unreadable` is a body the framework
   * cannot turn into such an object, carrying the message of the error raised.
   */
  datatype Body =
    | Fields(text: Option<string>, summaryType: Option<string>)
    | Unreadable(reason: string)
  {
    /** The text, the empty string when absent. */
    function Text(): string
      requires Fields?
    {
      if text.Some? then text.value else ""
    }

    /** The requested type name, the default when absent. */
    function Type(): string
      requires Fields?
    {
      if summaryType.Some? then summaryType.value else DefaultType
    }
  }

  /** What one call to the provider gives: the model's text, or the error it raised. */
  datatype Generation = Generated(summary: string) | Failed(cause: string)

  type Provider = (SummaryType, string) -> Generation

  /** The JSON response: a summary (200), a client error (400) or a server error (500). */
  datatype Response =
    | Summary(summary: string, summaryType: string, cached: bool)
    | BadRequest(error: string)
    | InternalError(error: string)

  function Status(r: Response): int
  {
    match r
    case Summary(_, _, _) => 200
    case BadRequest(_) => 400
    case InternalError(_) => 500
  }

  /** The response, the cache dictionary afterwards, and whether the provider was called. */
  datatype Outcome = Outcome(response: Response, entries: map<Key, Entry>, providerCalled: bool)

  /** The cache key of a readable request. */
  function RequestKey(scheme: KeyScheme, body: Body): Key
    requires body.Fields?
  {
    CacheKey(scheme, body.Text(), body.Type())
  }

  /** A cache read that the handler takes as an answer: present, fresh and non-empty. */
  predicate IsHit(entries: map<Key, Entry>, key: Key, now: int)
  {
    var r := Lookup(entries, key, now);
    r.Some? && r.value != ""
  }

  /**
   * One request handled against the cache dictionary `entries`: the cache is
   * read at `readAt`, and a generated summary is stored stamped `writtenAt`.
   */
  function Handle(scheme: KeyScheme, entries: map<Key, Entry>, body: Body,
                  readAt: int, writtenAt: int, generate: Provider): Outcome
  {
    match body
    case Unreadable(reason) => Outcome(InternalError(reason), entries, false)
    case Fields(_, _) =>
      var text, summaryType := body.Text(), body.Type();
      var key := CacheKey(scheme, text, summaryType);
      if text == "" then Outcome(BadRequest(NoTextMessage), entries, false)
      else if IsHit(entries, key, readAt) then
        Outcome(Summary(Lookup(entries, key, readAt).value, summaryType, true), entries, false)
      else
        match ParseType(summaryType)
        case None => Outcome(BadRequest(InvalidTypeMessage), entries, false)
        case Some(style) =>
          match generate(style, text)
          case Failed(cause) => Outcome(InternalError(GenerationErrorPrefix + cause), entries, true)
          case Generated(summary) =>
            Outcome(Summary(summary, summaryType, false), Stored(entries, key, summary, writtenAt), true)
  }

  /** The handler itself, working on the process-wide cache. */
  method SummarizeText(cache: Cache, body: Body, readAt: int, writtenAt: int, generate: Provider)
    returns (response: Response, providerCalled: bool)
    modifies cache
    ensures Outcome(response, cache.entries, providerCalled) ==
            Handle(cache.scheme, old(cache.entries), body, readAt, writtenAt, generate)
    ensures cache.entries != old(cache.entries) ==> providerCalled && response.Summary? && !response.cached
  {
    providerCalled := false;
    if body.Unreadable? {
      response := InternalError(body.reason);
      return;
    }
    var text, summaryType := body.Text(), body.Type();
    if text == "" {
      response := BadRequest(NoTextMessage);
      return;
    }
    var cachedSummary := cache.GetCachedSummary(text, summaryType, readAt);
    if cachedSummary.Some? && cachedSummary.value != "" {
      response := Summary(cachedSummary.value, summaryType, true);
      return;
    }
    var style := ParseType(summaryType);
    if style.None? {
      response := BadRequest(InvalidTypeMessage);
      return;
    }
    var generation := generate(style.value, text);
    providerCalled := true;
    match generation
    case Failed(cause) =>
      response := InternalError(GenerationErrorPrefix + cause);
    case Generated(summary) =>
      cache.CacheSummary(text, summaryType, summary, writtenAt);
      response := Summary(summary, summaryType, false);
  }

  // ---------------------------------------------------------------------------
  // Properties of one request

  /** Missing or empty text is a 400 whatever the type, with no cache or provider access. */
  lemma EmptyTextRejected(scheme: KeyScheme, entries: map<Key, Entry>, body: Body,
                          readAt: int, writtenAt: int, generate: Provider)
    requires body.Fields? && (body.text == None || body.text == Some(""))
    ensures Handle(scheme, entries, body, readAt, writtenAt, generate) ==
            Outcome(BadRequest(NoTextMessage), entries, false)
  {
  }

  /** A non-empty, fresh cached summary is returned as cached, without the provider and without a write. */
  lemma HitServedFromCache(scheme: KeyScheme, entries: map<Key, Entry>, body: Body,
                           readAt: int, writtenAt: int, generate: Provider, s: string)
    requires body.Fields? && body.Text() != ""
    requires Lookup(entries, RequestKey(scheme, body), readAt) == Some(s) && s != ""
    ensures Handle(scheme, entries, body, readAt, writtenAt, generate) ==
            Outcome(Summary(s, body.Type(), true), entries, false)
  {
  }

  /** A cached empty summary is answered exactly as if the entry were not there. */
  lemma EmptyCachedSummaryIsMiss(scheme: KeyScheme, entries: map<Key, Entry>, body: Body,
                                 readAt: int, writtenAt: int, generate: Provider)
    requires body.Fields?
    requires Lookup(entries, RequestKey(scheme, body), readAt) == Some("")
    ensures var o := Handle(scheme, entries, body, readAt, writtenAt, generate);
            var o' := Handle(scheme, entries - {RequestKey(scheme, body)}, body, readAt, writtenAt, generate);
            o.response == o'.response && o.providerCalled == o'.providerCalled
  {
  }

  /**
   * On a miss the type decides: an unknown type is a 400, a provider failure a
   * 500 naming the cause, and a generated summary is stored and returned uncached.
   */
  lemma MissDispatch(scheme: KeyScheme, entries: map<Key, Entry>, body: Body,
                     readAt: int, writtenAt: int, generate: Provider)
    requires body.Fields? && body.Text() != ""
    requires !IsHit(entries, RequestKey(scheme, body), readAt)
    ensures var o := Handle(scheme, entries, body, readAt, writtenAt, generate);
            var style := ParseType(body.Type());
            (style.None? ==> o == Outcome(BadRequest(InvalidTypeMessage), entries, false)) &&
            (style.Some? && generate(style.value, body.Text()).Failed? ==>
               o == Outcome(InternalError(GenerationErrorPrefix + generate(style.value, body.Text()).cause), entries, true)) &&
            (style.Some? && generate(style.value, body.Text()).Generated? ==>
               var s := generate(style.value, body.Text()).summary;
               o == Outcome(Summary(s, body.Type(), false), Stored(entries, RequestKey(scheme, body), s, writtenAt), true))
  {
  }

  /**
   * The cache changes only when a summary was just generated, and then exactly
   * by storing that summary under the request's key; conversely every uncached
   * summary response was stored.
   */
  lemma CacheWrittenOnlyAfterGeneration(scheme: KeyScheme, entries: map<Key, Entry>, body: Body,
                                        readAt: int, writtenAt: int, generate: Provider)
    ensures var o := Handle(scheme, entries, body, readAt, writtenAt, generate);
            (o.entries != entries ==> o.providerCalled && o.response.Summary? && !o.response.cached) &&
            (o.response.Summary? && !o.response.cached ==>
               body.Fields? && o.entries == Stored(entries, RequestKey(scheme, body), o.response.summary, writtenAt))
  {
  }

  /** Apart from the request's own key, every entry, expired or not, is kept as it was. */
  lemma OtherEntriesKept(scheme: KeyScheme, entries: map<Key, Entry>, body: Body,
                         readAt: int, writtenAt: int, generate: Provider, k: Key)
    requires k in entries
    requires body.Fields? ==> k != RequestKey(scheme, body)
    ensures var o := Handle(scheme, entries, body, readAt, writtenAt, generate);
            k in o.entries && o.entries[k] == entries[k]
  {
  }

  /** The provider is called exactly for a readable request with text, no hit and a known type. */
  lemma ProviderCalledOnlyOnValidMiss(scheme: KeyScheme, entries: map<Key, Entry>, body: Body,
                                      readAt: int, writtenAt: int, generate: Provider)
    ensures Handle(scheme, entries, body, readAt, writtenAt, generate).providerCalled <==>
            body.Fields? && body.Text() != "" && !IsHit(entries, RequestKey(scheme, body), readAt) &&
            ParseType(body.Type()).Some?
  {
  }

  /**
   * Every response is 200, 400 or 500; a 400 comes only from missing text or an
   * unknown type met on a miss, and a provider failure is never a silent empty
   * answer: it is a 500 with a non-empty message.
   */
  lemma StatusByCause(scheme: KeyScheme, entries: map<Key, Entry>, body: Body,
                      readAt: int, writtenAt: int, generate: Provider)
    ensures var o := Handle(scheme, entries, body, readAt, writtenAt, generate);
            (Status(o.response) == 400 <==>
               body.Fields? && (body.Text() == "" ||
                 (!IsHit(entries, RequestKey(scheme, body), readAt) && ParseType(body.Type()).None?))) &&
            (o.response.InternalError? && o.providerCalled ==> |o.response.error| > 0)
  {
  }

  // ---------------------------------------------------------------------------
  // Properties of request sequences

  /**
   * After a summary is generated for a request, the same request within the
   * hour is answered from the cache with that summary, whatever the provider
   * would now say.
   */
  lemma RepeatWithinHourIsCached(scheme: KeyScheme, entries: map<Key, Entry>, body: Body,
                                 readAt: int, writtenAt: int, generate: Provider,
                                 readAt2: int, writtenAt2: int, generate2: Provider)
    requires var o := Handle(scheme, entries, body, readAt, writtenAt, generate);
             o.response.Summary? && !o.response.cached && o.response.summary != ""
    requires readAt2 - writtenAt < CacheExpiration
    ensures var o := Handle(scheme, entries, body, readAt, writtenAt, generate);
            Handle(scheme, o.entries, body, readAt2, writtenAt2, generate2) ==
            Outcome(Summary(o.response.summary, o.response.summaryType, true), o.entries, false)
  {
  }

  /** An hour or more after the summary was stored, the same request goes to the provider again. */
  lemma RepeatAfterExpiryRegenerates(scheme: KeyScheme, entries: map<Key, Entry>, body: Body,
                                     readAt: int, writtenAt: int, generate: Provider,
                                     readAt2: int, writtenAt2: int, generate2: Provider)
    requires var o := Handle(scheme, entries, body, readAt, writtenAt, generate);
             o.response.Summary? && !o.response.cached
    requires readAt2 - writtenAt >= CacheExpiration
    ensures var o := Handle(scheme, entries, body, readAt, writtenAt, generate);
            var o2 := Handle(scheme, o.entries, body, readAt2, writtenAt2, generate2);
            o2.providerCalled && !(o2.response.Summary? && o2.response.cached)
  {
  }

  // ---------------------------------------------------------------------------
  // The joined key as written, and the paired key that corrects it

  /** A provider that answers each (style, text) differently. */
  function EchoProvider(): Provider
  {
    (style: SummaryType, text: string) => Generated(TypeName(style) + ":" + text)
  }

  /**
   * With the joined key, a request with an unknown type is answered 200 from
   * the cache: "a" as "b_paragraph" reads the entry stored for "a_b" as "paragraph".
   */
  lemma JoinedCacheAnswersInvalidType()
    ensures var first := Handle(Joined, map[], Fields(Some("a_b"), Some("paragraph")), 0, 0, EchoProvider());
            var second := Handle(Joined, first.entries, Fields(Some("a"), Some("b_paragraph")), 1, 1, EchoProvider());
            ParseType("b_paragraph") == None &&
            second == Outcome(Summary("paragraph:a_b", "b_paragraph", true), first.entries, false)
  {
    assert "a_b" == "a" + "_" + "b";
    assert "b_paragraph" == "b" + "_" + "paragraph";
    JoinedKeysCollide("a", "b", "paragraph");
    var first := Handle(Joined, map[], Fields(Some("a_b"), Some("paragraph")), 0, 0, EchoProvider());
    var key := CacheKey(Joined, "a_b", "paragraph");
    assert ParseType("paragraph") == Some(Paragraph);
    assert "paragraph" + ":" + "a_b" == "paragraph:a_b";
    assert EchoProvider()(Paragraph, "a_b") == Generated("paragraph:a_b");
    assert first.entries == map[key := Entry("paragraph:a_b", 0)];
    assert CacheKey(Joined, "a", "b_paragraph") == key;
  }

  /**
   * With the joined key, text "x" asked for as two paragraphs within the hour
   * after "x_two" was summarized as one paragraph is answered with the summary
   * of "x_two", not with what the provider gives for "x".
   */
  lemma JoinedCacheServesOtherText()
    ensures var first := Handle(Joined, map[], Fields(Some("x_two"), Some("paragraph")), 0, 0, EchoProvider());
            var second := Handle(Joined, first.entries, Fields(Some("x"), Some("two_paragraph")), 1, 1, EchoProvider());
            second.response == Summary("paragraph:x_two", "two_paragraph", true) &&
            EchoProvider()(TwoParagraph, "x") == Generated("two_paragraph:x")
  {
    JoinedKeyCollisionOfValidTypes();
  }

  /** Every entry under the paired key was stored for a known type. */
  ghost predicate TypedKeys(entries: map<Key, Entry>)
  {
    forall k :: k in entries ==> k.PairKey? && ParseType(k.summaryType).Some?
  }

  /**
   * Every entry under the paired key holds what the provider gives for the
   * entry's own text and type.
   */
  ghost predicate Faithful(entries: map<Key, Entry>, generate: Provider)
  {
    forall k :: k in entries ==>
      k.PairKey? && ParseType(k.summaryType).Some? &&
      generate(ParseType(k.summaryType).value, k.text) == Generated(entries[k].summary)
  }

  /** The paired-key handler keeps every stored key's type known. */
  lemma PairedKeepsTypedKeys(entries: map<Key, Entry>, body: Body,
                             readAt: int, writtenAt: int, generate: Provider)
    requires TypedKeys(entries)
    ensures TypedKeys(Handle(Paired, entries, body, readAt, writtenAt, generate).entries)
  {
  }

  /** With the paired key, an unknown type is always a 400 (given some text), never a cache hit. */
  lemma PairedRejectsInvalidType(entries: map<Key, Entry>, body: Body,
                                 readAt: int, writtenAt: int, generate: Provider)
    requires TypedKeys(entries)
    requires body.Fields? && body.Text() != "" && ParseType(body.Type()).None?
    ensures Handle(Paired, entries, body, readAt, writtenAt, generate) ==
            Outcome(BadRequest(InvalidTypeMessage), entries, false)
  {
  }

  /**
   * With the paired key and a provider that always answers the same, the cache
   * is transparent: a cached answer is what the provider gives for this very
   * text and type, and the cache stays faithful.
   */
  lemma PairedCacheIsTransparent(entries: map<Key, Entry>, body: Body,
                                 readAt: int, writtenAt: int, generate: Provider)
    requires Faithful(entries, generate)
    ensures var o := Handle(Paired, entries, body, readAt, writtenAt, generate);
            Faithful(o.entries, generate) &&
            (o.response.Summary? && o.response.cached ==>
               body.Fields? && ParseType(body.Type()).Some? &&
               generate(ParseType(body.Type()).value, body.Text()) == Generated(o.response.summary))
  {
  }
}
