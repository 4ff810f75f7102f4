/** The worker's market-data endpoint and its single-slot cache
    (worker/userRoutes.ts), and the credential check of the alert-email
    endpoint.

    The three upstream requests are not modelled as HTTP: the handler is given
    their outcomes as an `Upstream` value, and it reports which chart window
    it asked upstream for (`None` when it answered from the cache). The clock
    is the parameter `now`. */
module MarketCache {
  import opened Types

  /** How long a cached snapshot is served: one minute, in milliseconds. */
  const CACHE_DURATION: int := 60 * 1000

  const DEFAULT_TIMEFRAME: string := "7"
  const FETCH_ERROR: string := "Failed to fetch market data"

  /** The outcome of one upstream request: an ok response with its decoded
      body, or a failure (a non-ok status, a transport error or a body that
      does not decode). */
  datatype Fetch<T> = Fetched(body: T) | Failed

  /** The three upstream outcomes of one refresh: the spot price, the
      exchange-rate table (currency code to `value`) and the chart series. */
  datatype Upstream = Upstream(price: Fetch<PriceData>, rates: Fetch<map<string, real>>, chart: Fetch<seq<ChartDataPoint>>)

  /** A JSON reply: HTTP status and the `ApiResponse` envelope. */
  datatype Reply<T> = Reply(status: int, success: bool, data: Option<T>, error: Option<string>)

  /** The cache slot. */
  datatype CacheEntry = CacheEntry(marketData: Option<MarketData>, lastFetch: int)

  /** What one request does: the new slot, the reply, and the chart window
      requested upstream (`None` when no request was made). */
  datatype Served = Served(entry: CacheEntry, reply: Reply<MarketData>, request: Option<string>)

  /** The slot at process start. */
  const EmptyCache := CacheEntry(None, 0)

  /** `c.req.query('timeframe') || '7'`. */
  function TimeframeParam(query: Option<string>): (days: string)
    ensures query.Some? && query.value != "" ==> days == query.value
    ensures query.None? || query.value == "" ==> days == DEFAULT_TIMEFRAME
  {
    if query.Some? && query.value != "" then query.value else DEFAULT_TIMEFRAME
  }

  /** The slot is served: it holds data fetched less than a minute ago. */
  predicate IsFresh(entry: CacheEntry, now: int)
  {
    entry.marketData.Some? && now - entry.lastFetch < CACHE_DURATION
  }

  /** `rates.usd.value / rates.aud.value`: how many USD one AUD buys. The
      lookup fails when either entry is missing; a zero `aud` value is
      treated as a failure too. */
  function AudRate(rates: map<string, real>): (r: Option<real>)
    ensures r.Some? <==> "usd" in rates && "aud" in rates && rates["aud"] != 0.0
    ensures r.Some? ==> r.value * rates["aud"] == rates["usd"]
  {
    if "usd" in rates && "aud" in rates && rates["aud"] != 0.0 then Some(rates["usd"] / rates["aud"]) else None
  }

  /** The body of the `try` block: a snapshot built from all three upstream
      outcomes, or nothing if any of them failed or the rate lookup failed. */
  function Assemble(up: Upstream): (r: Option<MarketData>)
    ensures r.Some? <==> up.price.Fetched? && up.rates.Fetched? && up.chart.Fetched? && AudRate(up.rates.body).Some?
    ensures r.Some? ==>
      && r.value.btcPrice == up.price.body
      && r.value.chartData == up.chart.body
      && r.value.audRate * up.rates.body["aud"] == up.rates.body["usd"]
  {
    if up.price.Fetched? && up.rates.Fetched? && up.chart.Fetched? && AudRate(up.rates.body).Some? then
      Some(MarketData(up.price.body, AudRate(up.rates.body).value, up.chart.body))
    else
      None
  }

  /** One `GET /api/market-data`: a hit answers from the slot and makes no
      request; a miss asks upstream and commits only a complete snapshot. */
  function Serve(entry: CacheEntry, query: Option<string>, now: int, up: Upstream): (s: Served)
    ensures IsFresh(entry, now) ==>
      s == Served(entry, Reply(200, true, entry.marketData, None), None)
    ensures !IsFresh(entry, now) ==> s.request == Some(TimeframeParam(query))
    ensures !IsFresh(entry, now) && Assemble(up).Some? ==>
      s.entry == CacheEntry(Assemble(up), now) && s.reply == Reply(200, true, Assemble(up), None)
    ensures !IsFresh(entry, now) && Assemble(up).None? ==>
      s.entry == entry && s.reply == Reply(500, false, None, Some(FETCH_ERROR))
  {
    if IsFresh(entry, now) then
      Served(entry, Reply(200, true, entry.marketData, None), None)
    else
      var request := Some(TimeframeParam(query));
      match Assemble(up)
      case Some(data) => Served(CacheEntry(Some(data), now), Reply(200, true, Some(data), None), request)
      case None => Served(entry, Reply(500, false, None, Some(FETCH_ERROR)), request)
  }

  /** The first request after start-up always goes upstream. */
  lemma FirstRequestMisses(query: Option<string>, now: int, up: Upstream)
    ensures Serve(EmptyCache, query, now, up).request.Some?
  {
  }

  /** After a successful refresh at `t`, every request within the next minute,
      whatever window it asks for, is answered with that same snapshot and
      makes no upstream request. */
  lemma ServedWithinWindow(entry: CacheEntry, q1: Option<string>, t: int, up1: Upstream, q2: Option<string>, t2: int, up2: Upstream)
    requires !IsFresh(entry, t) && Assemble(up1).Some?
    requires t <= t2 < t + CACHE_DURATION
    ensures var s1 := Serve(entry, q1, t, up1);
      var s2 := Serve(s1.entry, q2, t2, up2);
      s2.request.None? && s2.entry == s1.entry && s2.reply == s1.reply
  {
  }

  /** A failed refresh commits nothing: the slot is unchanged, and a later
      request is served from it only while it is still fresh. */
  lemma FailureLeavesSlot(entry: CacheEntry, q: Option<string>, now: int, up: Upstream, later: int)
    requires !IsFresh(entry, now) && Assemble(up).None?
    requires later >= now
    ensures Serve(entry, q, now, up).entry == entry
    ensures !IsFresh(Serve(entry, q, now, up).entry, later)
  {
  }

  /** The process-wide slot, updated in place on a successful refresh. */
  class MarketDataCache {
    var marketData: Option<MarketData>
    var lastFetch: int

    function Entry(): CacheEntry
      reads this
    {
      CacheEntry(marketData, lastFetch)
    }

    constructor ()
      ensures Entry() == EmptyCache
    {
      marketData := None;
      lastFetch := 0;
    }

    /** The handler of `GET /api/market-data`. */
    method GetMarketData(query: Option<string>, now: int, up: Upstream) returns (reply: Reply<MarketData>, request: Option<string>)
      modifies this
      ensures Served(Entry(), reply, request) == Serve(old(Entry()), query, now, up)
    {
      var timeframe := if query.Some? && query.value != "" then query.value else DEFAULT_TIMEFRAME;
      if marketData.Some? && now - lastFetch < CACHE_DURATION {
        return Reply(200, true, marketData, None), None;
      }
      request := Some(timeframe);
      if up.price.Failed? || up.rates.Failed? || up.chart.Failed? {
        return Reply(500, false, None, Some(FETCH_ERROR)), request;
      }
      var rates := up.rates.body;
      if "usd" !in rates || "aud" !in rates || rates["aud"] == 0.0 {
        return Reply(500, false, None, Some(FETCH_ERROR)), request;
      }
      var data := MarketData(up.price.body, rates["usd"] / rates["aud"], up.chart.body);
      marketData := Some(data);
      lastFetch := now;
      reply := Reply(200, true, Some(data), None);
    }
  }

  // ---------------------------------------------------------------------------
  // POST /api/send-alert-email

  /** What the email provider did with the send request. */
  datatype SendOutcome = Accepted | Rejected(status: int) | Threw

  /** The reply, and whether a send request reached the provider. */
  datatype EmailReply = EmailReply(reply: Reply<bool>, attempted: bool)

  /** Without a configured key nothing is sent and the reply is a 500;
      otherwise the provider's outcome decides the reply. */
  function SendAlertEmail(apiKey: Option<string>, outcome: SendOutcome): (r: EmailReply)
    ensures r.attempted <==> apiKey.Some? && apiKey.value != ""
    ensures r.reply.success <==> r.attempted && outcome.Accepted?
    ensures r.reply.success ==> r.reply.status == 200
    ensures !r.reply.success ==> r.reply.status == 500 && r.reply.error.Some?
    ensures !r.attempted ==> r.reply.error == Some("Email service is not configured.")
  {
    if apiKey.None? || apiKey.value == "" then
      EmailReply(Reply(500, false, None, Some("Email service is not configured.")), false)
    else
      match outcome
      case Accepted => EmailReply(Reply(200, true, None, None), true)
      case Rejected(_) => EmailReply(Reply(500, false, None, Some("Failed to send email.")), true)
      case Threw => EmailReply(Reply(500, false, None, Some("An internal error occurred.")), true)
  }
}
