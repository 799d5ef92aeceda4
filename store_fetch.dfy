/**
 * The page loop of `DeribitSource::fetch`: ask for the trades of one instrument 1000 at a
 * time, starting from a resume token, and keep one raw chunk per page until the upstream
 * says there is no more, a page comes back short, there is no token to continue from,
 * or the page limit is reached.
 *
 * HTTP is a sequence of answers: the instrument check gets `instrumentCheck` and the n-th
 * page request gets `pages[n]`; a request past the end of `pages` fails as a transport
 * error does. The method also returns the `start_timestamp` of every page request it
 * sends. The rate limiter is left out.
 */
module StoreFetch {
  import opened Wrappers
  import opened Text
  import opened Numbers
  import opened StoreSchema
  import opened StoreTypes

  /** The `count` asked for with every page. */
  const PAGE_SIZE: nat := 1000
  const HTTP_BAD_REQUEST: nat := 400

  /** One HTTP exchange: a transport failure, or a status with its body and its parse. */
  datatype HttpResponse =
    | TransportFailure
    | Response(status: nat, body: seq<Byte>, json: Option<PageJson>)

  /** The ways a fetch fails. */
  datatype FetchError =
    | QuotesNotImplemented
    | RequestFailed
    | UnknownInstrument(symbol: string, message: Option<string>, status: nat)
    | Rejected(symbol: string, message: Option<string>)
    | BadStatus(status: nat)
    | InvalidJson

  predicate IsSuccess(status: nat) {
    200 <= status < 300
  }

  /** The `error.message` string of a body, when it parses and carries one. */
  function ErrorMessage(json: Option<PageJson>): Option<string> {
    if json.Some? then json.value.errorMessage else None
  }

  /** `ensure_instrument`: the instrument exists when the check answers with a success. */
  function EnsureInstrument(symbol: string, answer: HttpResponse): (r: Result<(), FetchError>)
    ensures r.Ok? <==> answer.Response? && IsSuccess(answer.status)
    ensures answer.Response? && !IsSuccess(answer.status) ==>
      r == Err(UnknownInstrument(symbol, ErrorMessage(answer.json), answer.status))
  {
    match answer
    case TransportFailure => Err(RequestFailed)
    case Response(status, _, json) =>
      if IsSuccess(status) then Ok(())
      else Err(UnknownInstrument(symbol, ErrorMessage(json), status))
  }

  // ---------------------------------------------------------------- one page

  /** The timestamp of the first trade that has one. */
  function FirstTimestamp(trades: seq<TradeJson>): Option<U64> {
    if |trades| == 0 then None
    else
      var earlier := FirstTimestamp(trades[..|trades| - 1]);
      if earlier.Some? then earlier else trades[|trades| - 1].timestamp
  }

  /** The timestamp of the last trade that has one. */
  function LastTimestamp(trades: seq<TradeJson>): Option<U64> {
    if |trades| == 0 then None
    else if trades[|trades| - 1].timestamp.Some? then trades[|trades| - 1].timestamp
    else LastTimestamp(trades[..|trades| - 1])
  }

  /**
   * The first timestamp is missing exactly when no trade has one, and otherwise belongs
   * to a trade with no timestamped trade before it.
   */
  lemma {:induction false} FirstTimestampSpec(trades: seq<TradeJson>)
    ensures FirstTimestamp(trades).None? <==> forall i :: 0 <= i < |trades| ==> trades[i].timestamp.None?
    ensures FirstTimestamp(trades).Some? ==>
      exists i :: 0 <= i < |trades| && trades[i].timestamp == FirstTimestamp(trades)
        && forall j :: 0 <= j < i ==> trades[j].timestamp.None?
  {
    if |trades| > 0 {
      var init := trades[..|trades| - 1];
      FirstTimestampSpec(init);
      assert forall i :: 0 <= i < |init| ==> init[i] == trades[i];
      if FirstTimestamp(init).None? {
        assert forall j :: 0 <= j < |trades| - 1 ==> trades[j].timestamp.None?;
      }
    }
  }

  /**
   * The last timestamp is missing exactly when no trade has one, and otherwise belongs
   * to a trade with no timestamped trade after it.
   */
  lemma {:induction false} LastTimestampSpec(trades: seq<TradeJson>)
    ensures LastTimestamp(trades).None? <==> forall i :: 0 <= i < |trades| ==> trades[i].timestamp.None?
    ensures LastTimestamp(trades).Some? ==>
      exists i :: 0 <= i < |trades| && trades[i].timestamp == LastTimestamp(trades)
        && forall j :: i < j < |trades| ==> trades[j].timestamp.None?
  {
    if |trades| > 0 {
      var init := trades[..|trades| - 1];
      LastTimestampSpec(init);
      assert forall i :: 0 <= i < |init| ==> init[i] == trades[i];
      if trades[|trades| - 1].timestamp.Some? {
        assert trades[|trades| - 1].timestamp == LastTimestamp(trades);
      }
    }
  }

  /** A page has a first timestamp exactly when it has a last one. */
  lemma TimestampsTogether(trades: seq<TradeJson>)
    ensures FirstTimestamp(trades).Some? <==> LastTimestamp(trades).Some?
  {
    FirstTimestampSpec(trades);
    LastTimestampSpec(trades);
  }

  /** The first timestamp comes from a trade no later than the last one's. */
  lemma FirstBeforeLast(trades: seq<TradeJson>)
    ensures FirstTimestamp(trades).Some? ==>
      exists i, j :: 0 <= i <= j < |trades| && trades[i].timestamp == FirstTimestamp(trades)
        && trades[j].timestamp == LastTimestamp(trades)
  {
    FirstTimestampSpec(trades);
    LastTimestampSpec(trades);
    if FirstTimestamp(trades).Some? {
      var i :| 0 <= i < |trades| && trades[i].timestamp == FirstTimestamp(trades)
        && forall j :: 0 <= j < i ==> trades[j].timestamp.None?;
      var j :| 0 <= j < |trades| && trades[j].timestamp == LastTimestamp(trades)
        && forall k :: j < k < |trades| ==> trades[k].timestamp.None?;
      assert i <= j;
    }
  }

  /** The loop over a page's trades that records the first and the last timestamp. */
  method ScanTimestamps(trades: seq<TradeJson>) returns (first: Option<U64>, last: Option<U64>)
    ensures first == FirstTimestamp(trades) && last == LastTimestamp(trades)
  {
    first := None;
    last := None;
    var i := 0;
    while i < |trades|
      invariant 0 <= i <= |trades|
      invariant first == FirstTimestamp(trades[..i]) && last == LastTimestamp(trades[..i])
    {
      assert trades[..i + 1][..i] == trades[..i];
      var ts := trades[i].timestamp;
      if ts.Some? {
        if first.None? {
          first := ts;
        }
        last := ts;
      }
      i := i + 1;
    }
    assert trades[..i] == trades;
  }

  /** `result.trades` of a parsed page, an empty list when it is missing. */
  function PageTrades(page: PageJson): seq<TradeJson> {
    if page.result.Some? then page.result.value.trades.GetOr([]) else []
  }

  /** `(ts + 1).to_string()`, with `u64` wrap-around. */
  function NextTimestampToken(ts: U64): string {
    NatToString((ts + 1) % (U64_MAX + 1))
  }

  /**
   * Where the next page starts: the page's `continuation` when it has one, otherwise one
   * millisecond after its last timestamped trade, otherwise nowhere.
   */
  function NextResume(page: PageJson): (r: Option<string>)
    ensures page.result.Some? && page.result.value.continuation.Some? ==>
      r == page.result.value.continuation
    ensures r.None? <==>
      (page.result.None? || page.result.value.continuation.None?)
      && LastTimestamp(PageTrades(page)).None?
  {
    if page.result.Some? && page.result.value.continuation.Some? then page.result.value.continuation
    else
      match LastTimestamp(PageTrades(page))
      case Some(ts) => Some(NextTimestampToken(ts))
      case None => None
  }

  /**
   * The chunk of one page: its body, and the span of its trades in nanoseconds; a page
   * without timestamps starts at 0, and one without a last timestamp ends where it starts.
   */
  function PageChunk(body: seq<Byte>, page: PageJson): (c: RawChunk)
    ensures c.data == body && c.json == Some(page) && c.resume == NextResume(page)
    ensures FirstTimestamp(PageTrades(page)).None? ==> c.startNs == 0 && c.endNs == 0
    ensures FirstTimestamp(PageTrades(page)).Some? ==> c.startNs == MsToNs(FirstTimestamp(PageTrades(page)).value)
    ensures LastTimestamp(PageTrades(page)).Some? ==> c.endNs == MsToNs(LastTimestamp(PageTrades(page)).value)
  {
    var trades := PageTrades(page);
    TimestampsTogether(trades);
    var first := FirstTimestamp(trades);
    var last := LastTimestamp(trades);
    var startNs := if first.Some? then MsToNs(first.value) else 0;
    var endNs := if last.Some? then MsToNs(last.value) else startNs;
    RawChunk(body, Some(page), startNs, endNs, NextResume(page))
  }

  /**
   * The chunk's page asks for another: `has_more` is true, the page is full, and the
   * chunk carries a token to continue from.
   */
  predicate ChunkContinues(c: RawChunk) {
    && c.json.Some?
    && c.json.value.result.Some?
    && c.json.value.result.value.hasMore == Some(true)
    && |PageTrades(c.json.value)| >= PAGE_SIZE
    && c.resume.Some?
  }

  /** What one page request yields: an error, or the page's chunk. */
  function PageOutcome(symbol: string, answer: HttpResponse): (r: Result<RawChunk, FetchError>)
    ensures r.Ok? ==> answer.Response? && r.value.json == answer.json && r.value.json.Some?
  {
    match answer
    case TransportFailure => Err(RequestFailed)
    case Response(status, body, json) =>
      if !IsSuccess(status) then
        if status == HTTP_BAD_REQUEST then Err(Rejected(symbol, ErrorMessage(json)))
        else Err(BadStatus(status))
      else if json.None? then Err(InvalidJson)
      else Ok(PageChunk(body, json.value))
  }

  /**
   * A page request succeeds exactly when the answer is a success that parses, and then
   * yields the page's chunk; a 400 answer is a rejection of the instrument.
   */
  lemma PageOutcomeSpec(symbol: string, answer: HttpResponse)
    ensures PageOutcome(symbol, answer).Ok? <==> answer.Response? && IsSuccess(answer.status) && answer.json.Some?
    ensures PageOutcome(symbol, answer).Ok? ==> PageOutcome(symbol, answer).value == PageChunk(answer.body, answer.json.value)
    ensures answer.Response? && answer.status == HTTP_BAD_REQUEST ==>
      PageOutcome(symbol, answer) == Err(Rejected(symbol, ErrorMessage(answer.json)))
  {
  }

  /** The answer to the n-th page request. */
  function Answer(pages: seq<HttpResponse>, n: nat): HttpResponse {
    if n < |pages| then pages[n] else TransportFailure
  }

  /**
   * Request `n` succeeded, its page asks for another, and `token` is the resume token it
   * handed over.
   */
  predicate HandsOver(symbol: string, pages: seq<HttpResponse>, n: nat, token: string) {
    var outcome := PageOutcome(symbol, Answer(pages, n));
    outcome.Ok? && ChunkContinues(outcome.value) && outcome.value.resume == Some(token)
  }

  /** The page limit allows a request numbered `page`. */
  predicate Allowed(options: RetrieveOptions, page: nat) {
    options.maxPages.None? || page < options.maxPages.value
  }

  /**
   * `chunks` is what the page loop collects: one chunk per successful page, in request
   * order, every page but the last asking for another, and the last one stopping the
   * loop unless the page limit did.
   */
  predicate PagesFetched(symbol: string, options: RetrieveOptions, pages: seq<HttpResponse>, chunks: seq<RawChunk>) {
    && (forall n :: 0 <= n < |chunks| ==> Allowed(options, n))
    && (forall n :: 0 <= n < |chunks| ==> PageOutcome(symbol, Answer(pages, n)) == Ok(chunks[n]))
    && (forall n :: 0 <= n < |chunks| - 1 ==> ChunkContinues(chunks[n]))
    && (!Allowed(options, |chunks|) || (|chunks| > 0 && !ChunkContinues(chunks[|chunks| - 1])))
  }

  // ---------------------------------------------------------------- the loop

  /**
   * The requests sent so far: the first starts from `resumeFrom` (or "0"), each one is
   * within the page limit, and each later one starts from the token its predecessor
   * handed over.
   */
  predicate RequestsChained(symbol: string, options: RetrieveOptions, pages: seq<HttpResponse>, requested: seq<string>) {
    && (|requested| > 0 ==> requested[0] == options.resumeFrom.GetOr("0"))
    && (forall n :: 0 <= n < |requested| ==> Allowed(options, n))
    && (forall n :: 1 <= n < |requested| ==> HandsOver(symbol, pages, n - 1, requested[n]))
  }

  /** The chunks kept so far, every one of them from a page that asks for another. */
  predicate ChunksContinue(symbol: string, options: RetrieveOptions, pages: seq<HttpResponse>, chunks: seq<RawChunk>) {
    && (forall n :: 0 <= n < |chunks| ==> Allowed(options, n))
    && (forall n :: 0 <= n < |chunks| ==> PageOutcome(symbol, Answer(pages, n)) == Ok(chunks[n]))
    && (forall n :: 0 <= n < |chunks| ==> ChunkContinues(chunks[n]))
  }

  /** Sending one more request, from the token the previous page handed over, keeps the chain. */
  lemma RequestStep(symbol: string, options: RetrieveOptions, pages: seq<HttpResponse>,
                    requested: seq<string>, token: string)
    requires RequestsChained(symbol, options, pages, requested)
    requires Allowed(options, |requested|)
    requires |requested| == 0 ==> token == options.resumeFrom.GetOr("0")
    requires |requested| > 0 ==> HandsOver(symbol, pages, |requested| - 1, token)
    ensures RequestsChained(symbol, options, pages, requested + [token])
  {
    var next := requested + [token];
    forall n | 1 <= n < |next|
      ensures HandsOver(symbol, pages, n - 1, next[n])
    {
      if n < |requested| {
        assert next[n] == requested[n];
      }
    }
  }

  /** Keeping the chunk of a page that asks for another keeps every kept chunk continuing. */
  lemma ChunkStep(symbol: string, options: RetrieveOptions, pages: seq<HttpResponse>,
                  chunks: seq<RawChunk>, chunk: RawChunk)
    requires ChunksContinue(symbol, options, pages, chunks)
    requires Allowed(options, |chunks|)
    requires PageOutcome(symbol, Answer(pages, |chunks|)) == Ok(chunk)
    requires ChunkContinues(chunk)
    ensures ChunksContinue(symbol, options, pages, chunks + [chunk])
  {
    var next := chunks + [chunk];
    forall n | 0 <= n < |next|
      ensures PageOutcome(symbol, Answer(pages, n)) == Ok(next[n]) && ChunkContinues(next[n])
    {
      if n < |chunks| {
        assert next[n] == chunks[n];
      }
    }
  }

  /** The page loop stops at a page that does not ask for another: the chunks are complete. */
  lemma LastChunk(symbol: string, options: RetrieveOptions, pages: seq<HttpResponse>,
                  chunks: seq<RawChunk>, chunk: RawChunk)
    requires ChunksContinue(symbol, options, pages, chunks)
    requires Allowed(options, |chunks|)
    requires PageOutcome(symbol, Answer(pages, |chunks|)) == Ok(chunk)
    requires !ChunkContinues(chunk)
    ensures PagesFetched(symbol, options, pages, chunks + [chunk])
  {
    var next := chunks + [chunk];
    assert next[|next| - 1] == chunk;
    forall n | 0 <= n < |next|
      ensures PageOutcome(symbol, Answer(pages, n)) == Ok(next[n])
    {
      if n < |chunks| {
        assert next[n] == chunks[n];
      }
    }
    forall n | 0 <= n < |next| - 1
      ensures ChunkContinues(next[n])
    {
      assert next[n] == chunks[n];
    }
  }

  /** The page loop stops at the page limit: the chunks are complete. */
  lemma LimitReached(symbol: string, options: RetrieveOptions, pages: seq<HttpResponse>, chunks: seq<RawChunk>)
    requires ChunksContinue(symbol, options, pages, chunks)
    requires !Allowed(options, |chunks|)
    ensures PagesFetched(symbol, options, pages, chunks)
  {
  }

  /**
   * The page loop. Every request `n` that is sent starts from the token the previous page
   * handed over (the first from `resumeFrom`, or "0"), each successful page adds exactly
   * its own chunk, only the last page may stop the loop, and an error ends the loop at
   * the request that caused it.
   */
  method FetchPages(symbol: string, options: RetrieveOptions, pages: seq<HttpResponse>)
    returns (r: Result<seq<RawChunk>, FetchError>, requested: seq<string>)
    ensures RequestsChained(symbol, options, pages, requested)
    ensures r.Ok? ==> |r.value| == |requested| && PagesFetched(symbol, options, pages, r.value)
    ensures r.Err? ==> |requested| > 0 && PageOutcome(symbol, Answer(pages, |requested| - 1)) == Err(r.error)
  {
    requested := [];
    var resumeToken := options.resumeFrom;
    var chunks: seq<RawChunk> := [];
    var page: nat := 0;
    while Allowed(options, page)
      invariant page == |requested| == |chunks|
      invariant page <= |pages|
      invariant page == 0 ==> resumeToken == options.resumeFrom
      invariant page > 0 ==> HandsOver(symbol, pages, page - 1, resumeToken.GetOr("0"))
      invariant RequestsChained(symbol, options, pages, requested)
      invariant ChunksContinue(symbol, options, pages, chunks)
      decreases |pages| - page
    {
      RequestStep(symbol, options, pages, requested, resumeToken.GetOr("0"));
      requested := requested + [resumeToken.GetOr("0")];
      var outcome := PageOutcome(symbol, Answer(pages, page));
      if outcome.Err? {
        return Err(outcome.error), requested;
      }
      var chunk := outcome.value;
      var trades := PageTrades(chunk.json.value);
      var hasMore := chunk.json.value.result.Some? && chunk.json.value.result.value.hasMore == Some(true);
      if !hasMore || |trades| < PAGE_SIZE || chunk.resume.None? {
        LastChunk(symbol, options, pages, chunks, chunk);
        return Ok(chunks + [chunk]), requested;
      }
      ChunkStep(symbol, options, pages, chunks, chunk);
      chunks := chunks + [chunk];
      resumeToken := chunk.resume;
      page := page + 1;
    }
    LimitReached(symbol, options, pages, chunks);
    r := Ok(chunks);
  }

  /**
   * Why a fetch for `spec` can fail with `e`: quotes are refused, the instrument check
   * fails with `e`, or a page request the loop sends answers with `e` (one within the page
   * limit, every earlier page having succeeded and asked for another).
   */
  ghost predicate FetchFailure(spec: RetrieveSpec, options: RetrieveOptions, instrumentCheck: HttpResponse,
                               pages: seq<HttpResponse>, e: FetchError) {
    if spec.kind == Quotes then e == QuotesNotImplemented
    else if EnsureInstrument(spec.symbol, instrumentCheck).Err? then e == EnsureInstrument(spec.symbol, instrumentCheck).error
    else exists n: nat ::
      && Allowed(options, n)
      && (forall m :: 0 <= m < n ==>
            PageOutcome(spec.symbol, Answer(pages, m)).Ok? && ChunkContinues(PageOutcome(spec.symbol, Answer(pages, m)).value))
      && PageOutcome(spec.symbol, Answer(pages, n)) == Err(e)
  }

  /** A first page that succeeds and stops the loop leaves the page loop nothing to fail on. */
  lemma StoppingPageNoFailure(spec: RetrieveSpec, options: RetrieveOptions, instrumentCheck: HttpResponse,
                              pages: seq<HttpResponse>, e: FetchError)
    requires spec.kind != Quotes && EnsureInstrument(spec.symbol, instrumentCheck).Ok?
    requires PageOutcome(spec.symbol, Answer(pages, 0)).Ok?
    requires !ChunkContinues(PageOutcome(spec.symbol, Answer(pages, 0)).value)
    ensures !FetchFailure(spec, options, instrumentCheck, pages, e)
  {
    forall n: nat | Allowed(options, n) && PageOutcome(spec.symbol, Answer(pages, n)) == Err(e)
      ensures exists m :: 0 <= m < n && !(PageOutcome(spec.symbol, Answer(pages, m)).Ok?
                                           && ChunkContinues(PageOutcome(spec.symbol, Answer(pages, m)).value))
    {
      assert n != 0;
      assert 0 < n;
    }
  }

  /**
   * A failed request chain is explained by its last request: it is within the limit,
   * every request before it succeeded and asked for another, and it failed with `e`.
   */
  lemma PageFailureExplained(spec: RetrieveSpec, options: RetrieveOptions, instrumentCheck: HttpResponse,
                             pages: seq<HttpResponse>, requested: seq<string>, e: FetchError)
    requires spec.kind != Quotes && EnsureInstrument(spec.symbol, instrumentCheck).Ok?
    requires |requested| > 0 && RequestsChained(spec.symbol, options, pages, requested)
    requires PageOutcome(spec.symbol, Answer(pages, |requested| - 1)) == Err(e)
    ensures FetchFailure(spec, options, instrumentCheck, pages, e)
  {
    var n: nat := |requested| - 1;
    forall m | 0 <= m < n
      ensures PageOutcome(spec.symbol, Answer(pages, m)).Ok? && ChunkContinues(PageOutcome(spec.symbol, Answer(pages, m)).value)
    {
      assert HandsOver(spec.symbol, pages, m, requested[m + 1]);
    }
    assert Allowed(options, n);
  }

  /**
   * `DeribitSource::fetch`: quotes are refused and an unknown instrument is reported
   * before any page is requested; otherwise the page loop runs.
   */
  method Fetch(spec: RetrieveSpec, options: RetrieveOptions, instrumentCheck: HttpResponse,
               pages: seq<HttpResponse>)
    returns (r: Result<seq<RawChunk>, FetchError>, requested: seq<string>)
    ensures spec.kind == Quotes ==> r == Err(QuotesNotImplemented) && requested == []
    ensures spec.kind != Quotes && EnsureInstrument(spec.symbol, instrumentCheck).Err? ==>
      r == Err(EnsureInstrument(spec.symbol, instrumentCheck).error) && requested == []
    ensures |requested| > 0 ==> requested[0] == options.resumeFrom.GetOr("0")
    ensures forall n :: 0 <= n < |requested| ==> Allowed(options, n)
    ensures options.maxPages.Some? ==> |requested| <= options.maxPages.value
    ensures forall n :: 1 <= n < |requested| ==> HandsOver(spec.symbol, pages, n - 1, requested[n])
    ensures r.Ok? ==> |r.value| == |requested| && PagesFetched(spec.symbol, options, pages, r.value)
    ensures r.Err? && spec.kind != Quotes && EnsureInstrument(spec.symbol, instrumentCheck).Ok? ==>
      |requested| > 0 && PageOutcome(spec.symbol, Answer(pages, |requested| - 1)) == Err(r.error)
    ensures r.Err? ==> FetchFailure(spec, options, instrumentCheck, pages, r.error)
  {
    if spec.kind == Quotes {
      return Err(QuotesNotImplemented), [];
    }
    var check := EnsureInstrument(spec.symbol, instrumentCheck);
    if check.Err? {
      return Err(check.error), [];
    }
    r, requested := FetchPages(spec.symbol, options, pages);
    if |requested| > 0 {
      assert Allowed(options, |requested| - 1);
    }
    if r.Err? {
      PageFailureExplained(spec, options, instrumentCheck, pages, requested, r.error);
    }
  }
}
