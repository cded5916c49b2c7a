/**
 * The Dynatrace API client: tenant normalisation, the status check of every
 * request, the cursor-following list queries, the per-summary enrichment of
 * the security problems of a management zone, the memoised detail lookup and
 * the entity selector of the process-group and host lookups.
 *
 * The HTTP transport is an oracle `server` from request URL to response; the
 * client is a class whose state is the detail cache and a ghost log of the
 * URLs it requested.
 */
module DynatraceApi {
  import opened Wrappers

  // ---------------------------------------------------------------------------
  // Responses and errors
  // ---------------------------------------------------------------------------

  /** A decoded JSON object, reduced to its string members and its lists of objects. */
  datatype Json = Json(strings: map<string, string>, lists: map<string, seq<Json>>)

  datatype Response = Response(statusCode: int, reason: string, content: string, body: Json)

  /** What the client raises: a failed request, or a summary without an ID. */
  datatype ApiError =
    | RequestFailed(statusCode: int, reason: string, content: string)
    | MissingKey(key: string)

  /** The transport: the response the tenant gives to a GET of a URL. */
  type Server = string -> Response

  const NextPageKey := "nextPageKey"
  const SecurityProblemId := "securityProblemId"

  /** `obj.get(key, [])` on a list member. */
  function ListOf(obj: Json, key: string): seq<Json> {
    if key in obj.lists then obj.lists[key] else []
  }

  /** The outcome of one request: the body on status 200, a failure on any other status. */
  function Query(server: Server, url: string): Result<Json, ApiError> {
    var response := server(url);
    if response.statusCode != 200 then
      Failure(Failed(response))
    else
      Success(response.body)
  }

  /** Put `items` in front of a successful list; keep a failure as it is. */
  function Prepend(items: seq<Json>, r: Result<seq<Json>, ApiError>): Result<seq<Json>, ApiError> {
    match r
    case Success(rest) => Success(items + rest)
    case Failure(e) => Failure(e)
  }

  lemma PrependNothing(r: Result<seq<Json>, ApiError>)
    ensures Prepend([], r) == r
  {
    if r.Success? {
      assert [] + r.value == r.value;
    }
  }

  lemma PrependPrepend(a: seq<Json>, b: seq<Json>, r: Result<seq<Json>, ApiError>)
    ensures Prepend(a, Prepend(b, r)) == Prepend(a + b, r)
  {
    if r.Success? {
      assert a + (b + r.value) == (a + b) + r.value;
    }
  }

  // ---------------------------------------------------------------------------
  // Tenant normalisation
  // ---------------------------------------------------------------------------

  /** `rstrip('/')`: the input without its trailing slashes. */
  function RStripSlash(s: string): (r: string)
    ensures r <= s
    ensures r == [] || r[|r| - 1] != '/'
    ensures forall i :: |r| <= i < |s| ==> s[i] == '/'
    decreases |s|
  {
    if s != [] && s[|s| - 1] == '/' then RStripSlash(s[..|s| - 1]) else s
  }

  /** The three properties of `RStripSlash` pin its result down. */
  lemma {:induction false} RStripSlashUnique(s: string, t: string)
    requires t <= s
    requires t == [] || t[|t| - 1] != '/'
    requires forall i :: |t| <= i < |s| ==> s[i] == '/'
    ensures t == RStripSlash(s)
  {
    var r := RStripSlash(s);
    if |r| < |t| {
      assert false;
    } else if |t| < |r| {
      assert false;
    }
    assert r == s[..|r|] && t == s[..|t|];
  }

  lemma RStripSlashIdempotent(s: string)
    ensures RStripSlash(RStripSlash(s)) == RStripSlash(s)
  {
    var r := RStripSlash(s);
    RStripSlashUnique(r, r);
  }

  // ---------------------------------------------------------------------------
  // Cursor-following list queries
  // ---------------------------------------------------------------------------

  /** Which list member a paginated endpoint fills, and where its follow-up pages live. */
  datatype Listing = Listing(listKey: string, nextBase: string)

  const SecurityProblemsNext := "/api/v2/securityProblems?nextPageKey="
  const EntitiesNext := "/api/v2/entities?nextPageKey="
  const SecurityProblems := Listing("securityProblems", SecurityProblemsNext)
  const Entities := Listing("entities", EntitiesNext)

  /** The endpoint of the page after `page`, which must carry a cursor. */
  function NextEndpoint(listing: Listing, page: Json): string
    requires NextPageKey in page.strings
  {
    listing.nextBase + page.strings[NextPageKey]
  }

  /**
   * The cursor chain starting at `endpoint` ends (with a failure or a page
   * without cursor) within `fuel` pages.
   */
  ghost predicate ChainEnds(server: Server, tenant: string, listing: Listing, endpoint: string, fuel: nat)
    decreases fuel, 0
  {
    fuel > 0 &&
    var page := Query(server, tenant + endpoint);
    page.Success? ==> AfterEnds(server, tenant, listing, page.value, fuel - 1)
  }

  /** The cursor chain after `page` ends within `fuel` further pages. */
  ghost predicate AfterEnds(server: Server, tenant: string, listing: Listing, page: Json, fuel: nat)
    decreases fuel, 1
  {
    NextPageKey in page.strings ==> ChainEnds(server, tenant, listing, NextEndpoint(listing, page), fuel)
  }

  /** The list a paginated query returns: all pages' items in order, or the first failure. */
  ghost function FetchAll(server: Server, tenant: string, listing: Listing, endpoint: string, fuel: nat): Result<seq<Json>, ApiError>
    requires ChainEnds(server, tenant, listing, endpoint, fuel)
    decreases fuel, 0
  {
    var page := Query(server, tenant + endpoint);
    if page.Failure? then Failure(page.error)
    else Prepend(ListOf(page.value, listing.listKey), FetchAfter(server, tenant, listing, page.value, fuel - 1))
  }

  /** The items of the pages after `page`. */
  ghost function FetchAfter(server: Server, tenant: string, listing: Listing, page: Json, fuel: nat): Result<seq<Json>, ApiError>
    requires AfterEnds(server, tenant, listing, page, fuel)
    decreases fuel, 1
  {
    if NextPageKey in page.strings then FetchAll(server, tenant, listing, NextEndpoint(listing, page), fuel)
    else Success([])
  }

  /** The URLs a paginated query requests, in order. */
  ghost function PageUrls(server: Server, tenant: string, listing: Listing, endpoint: string, fuel: nat): seq<string>
    requires ChainEnds(server, tenant, listing, endpoint, fuel)
    decreases fuel, 0
  {
    var page := Query(server, tenant + endpoint);
    [tenant + endpoint] + (if page.Failure? then [] else AfterUrls(server, tenant, listing, page.value, fuel - 1))
  }

  ghost function AfterUrls(server: Server, tenant: string, listing: Listing, page: Json, fuel: nat): seq<string>
    requires AfterEnds(server, tenant, listing, page, fuel)
    decreases fuel, 1
  {
    if NextPageKey in page.strings then PageUrls(server, tenant, listing, NextEndpoint(listing, page), fuel)
    else []
  }

  /** One page of a chain: a failure ends it, a success continues after that page. */
  lemma FetchAllUnfold(server: Server, tenant: string, listing: Listing, endpoint: string, fuel: nat)
    requires ChainEnds(server, tenant, listing, endpoint, fuel)
    ensures fuel > 0
    ensures var page := Query(server, tenant + endpoint);
      page.Failure? ==>
        && FetchAll(server, tenant, listing, endpoint, fuel) == Failure(page.error)
        && PageUrls(server, tenant, listing, endpoint, fuel) == [tenant + endpoint]
    ensures var page := Query(server, tenant + endpoint);
      page.Success? ==>
        && AfterEnds(server, tenant, listing, page.value, fuel - 1)
        && FetchAll(server, tenant, listing, endpoint, fuel)
           == Prepend(ListOf(page.value, listing.listKey), FetchAfter(server, tenant, listing, page.value, fuel - 1))
        && PageUrls(server, tenant, listing, endpoint, fuel)
           == [tenant + endpoint] + AfterUrls(server, tenant, listing, page.value, fuel - 1)
  {
  }

  /** Following the cursor of `page`: the next page ends the chain or continues it. */
  lemma AfterUnfold(server: Server, tenant: string, listing: Listing, page: Json, fuel: nat)
    requires AfterEnds(server, tenant, listing, page, fuel)
    requires NextPageKey in page.strings
    ensures fuel > 0
    ensures var url := tenant + NextEndpoint(listing, page);
      var next := Query(server, url);
      next.Failure? ==>
        && FetchAfter(server, tenant, listing, page, fuel) == Failure(next.error)
        && AfterUrls(server, tenant, listing, page, fuel) == [url]
    ensures var url := tenant + NextEndpoint(listing, page);
      var next := Query(server, url);
      next.Success? ==>
        && AfterEnds(server, tenant, listing, next.value, fuel - 1)
        && FetchAfter(server, tenant, listing, page, fuel)
           == Prepend(ListOf(next.value, listing.listKey), FetchAfter(server, tenant, listing, next.value, fuel - 1))
        && AfterUrls(server, tenant, listing, page, fuel)
           == [url] + AfterUrls(server, tenant, listing, next.value, fuel - 1)
  {
    FetchAllUnfold(server, tenant, listing, NextEndpoint(listing, page), fuel);
  }

  /**
   * The state of the pagination loop: `page` is the last page read, `items`
   * the list so far and `sent` the requests so far; the pages after `page`
   * complete them to the expected result and requests.
   */
  ghost predicate PagesOwed(server: Server, tenant: string, listing: Listing, page: Json, fuel: nat,
                            items: seq<Json>, sent: seq<string>,
                            expected: Result<seq<Json>, ApiError>, pages: seq<string>)
  {
    && AfterEnds(server, tenant, listing, page, fuel)
    && Prepend(items, FetchAfter(server, tenant, listing, page, fuel)) == expected
    && sent + AfterUrls(server, tenant, listing, page, fuel) == pages
  }

  /** The first request of the pagination loop. */
  lemma FirstPageStep(server: Server, tenant: string, listing: Listing, endpoint: string, fuel: nat, sent: seq<string>)
    requires ChainEnds(server, tenant, listing, endpoint, fuel)
    ensures fuel > 0
    ensures var first := Query(server, tenant + endpoint);
      first.Failure? ==>
        && FetchAll(server, tenant, listing, endpoint, fuel) == Failure(first.error)
        && sent + [tenant + endpoint] == sent + PageUrls(server, tenant, listing, endpoint, fuel)
    ensures var first := Query(server, tenant + endpoint);
      first.Success? ==>
        PagesOwed(server, tenant, listing, first.value, fuel - 1,
                  ListOf(first.value, listing.listKey), sent + [tenant + endpoint],
                  FetchAll(server, tenant, listing, endpoint, fuel),
                  sent + PageUrls(server, tenant, listing, endpoint, fuel))
  {
    FetchAllUnfold(server, tenant, listing, endpoint, fuel);
    var first := Query(server, tenant + endpoint);
    if first.Success? {
      AppendAssoc(sent, [tenant + endpoint], AfterUrls(server, tenant, listing, first.value, fuel - 1));
    }
  }

  /** One more turn of the pagination loop. */
  lemma NextPageStep(server: Server, tenant: string, listing: Listing, page: Json, fuel: nat,
                     items: seq<Json>, sent: seq<string>,
                     expected: Result<seq<Json>, ApiError>, pages: seq<string>)
    requires PagesOwed(server, tenant, listing, page, fuel, items, sent, expected, pages)
    requires NextPageKey in page.strings
    ensures fuel > 0
    ensures var url := tenant + NextEndpoint(listing, page);
      var next := Query(server, url);
      next.Failure? ==> expected == Failure(next.error) && sent + [url] == pages
    ensures var url := tenant + NextEndpoint(listing, page);
      var next := Query(server, url);
      next.Success? ==>
        PagesOwed(server, tenant, listing, next.value, fuel - 1,
                  items + ListOf(next.value, listing.listKey), sent + [url], expected, pages)
  {
    AfterUnfold(server, tenant, listing, page, fuel);
    var url := tenant + NextEndpoint(listing, page);
    var next := Query(server, url);
    if next.Success? {
      PrependPrepend(items, ListOf(next.value, listing.listKey), FetchAfter(server, tenant, listing, next.value, fuel - 1));
      AppendAssoc(sent, [url], AfterUrls(server, tenant, listing, next.value, fuel - 1));
    }
  }

  /** The pagination loop stops at a page without cursor, owing nothing more. */
  lemma LastPageStep(server: Server, tenant: string, listing: Listing, page: Json, fuel: nat,
                     items: seq<Json>, sent: seq<string>,
                     expected: Result<seq<Json>, ApiError>, pages: seq<string>)
    requires PagesOwed(server, tenant, listing, page, fuel, items, sent, expected, pages)
    requires NextPageKey !in page.strings
    ensures expected == Success(items) && sent == pages
  {
    assert items + [] == items;
    assert sent + [] == sent;
  }

  lemma AppendAssoc<T>(a: seq<T>, b: seq<T>, c: seq<T>)
    ensures a + (b + c) == (a + b) + c
  {
  }

  /** The concatenation of the list member `key` of the responses to `urls`. */
  function ItemsAlong(server: Server, urls: seq<string>, key: string): seq<Json>
    decreases |urls|
  {
    if urls == [] then [] else ListOf(server(urls[0]).body, key) + ItemsAlong(server, urls[1..], key)
  }

  /** `next` is the page the cursor of the successful page `url` points to. */
  ghost predicate Links(server: Server, tenant: string, listing: Listing, url: string, next: string) {
    && server(url).statusCode == 200
    && NextPageKey in server(url).body.strings
    && next == tenant + NextEndpoint(listing, server(url).body)
  }

  /** The page `url` ends a chain: it failed, or it carries no cursor. */
  ghost predicate EndsChain(server: Server, url: string) {
    server(url).statusCode != 200 || NextPageKey !in server(url).body.strings
  }

  /**
   * A paginated query requests a chain of pages: the first is the endpoint,
   * each further one is the follow-up base plus the cursor of the page
   * before, and the last one failed or carries no cursor.
   */
  lemma {:induction false} PageUrlsChain(server: Server, tenant: string, listing: Listing, endpoint: string, fuel: nat)
    requires ChainEnds(server, tenant, listing, endpoint, fuel)
    ensures var urls := PageUrls(server, tenant, listing, endpoint, fuel);
      && |urls| > 0 && urls[0] == tenant + endpoint
      && (forall i :: 0 <= i < |urls| - 1 ==> Links(server, tenant, listing, urls[i], urls[i + 1]))
      && EndsChain(server, urls[|urls| - 1])
    decreases fuel
  {
    FetchAllUnfold(server, tenant, listing, endpoint, fuel);
    var url := tenant + endpoint;
    var page := Query(server, url);
    var urls := PageUrls(server, tenant, listing, endpoint, fuel);
    if page.Success? && NextPageKey in page.value.strings {
      var next := NextEndpoint(listing, page.value);
      PageUrlsChain(server, tenant, listing, next, fuel - 1);
      var rest := PageUrls(server, tenant, listing, next, fuel - 1);
      assert urls == [url] + rest;
      forall i | 0 <= i < |urls| - 1
        ensures Links(server, tenant, listing, urls[i], urls[i + 1])
      {
        if i > 0 {
          assert urls[i] == rest[i - 1] && urls[i + 1] == rest[i];
        }
      }
    } else {
      assert urls == [url];
    }
  }

  /** The error of a request that failed with `response`. */
  function Failed(response: Response): ApiError {
    RequestFailed(response.statusCode, response.reason, response.content)
  }

  /**
   * A paginated query succeeds exactly when every requested page answers
   * 200, and then returns the pages' items concatenated in order; otherwise
   * it fails with the status of the last page requested, with no partial list.
   */
  lemma {:induction false} FetchAllResult(server: Server, tenant: string, listing: Listing, endpoint: string, fuel: nat)
    requires ChainEnds(server, tenant, listing, endpoint, fuel)
    ensures var urls := PageUrls(server, tenant, listing, endpoint, fuel);
      var r := FetchAll(server, tenant, listing, endpoint, fuel);
      && (r.Success? <==> forall i :: 0 <= i < |urls| ==> server(urls[i]).statusCode == 200)
      && (r.Success? ==> r.value == ItemsAlong(server, urls, listing.listKey))
      && (r.Failure? ==> |urls| > 0 && r.error == Failed(server(urls[|urls| - 1])))
    decreases fuel
  {
    FetchAllUnfold(server, tenant, listing, endpoint, fuel);
    var url := tenant + endpoint;
    var page := Query(server, url);
    var urls := PageUrls(server, tenant, listing, endpoint, fuel);
    if page.Success? && NextPageKey in page.value.strings {
      var next := NextEndpoint(listing, page.value);
      FetchAllResult(server, tenant, listing, next, fuel - 1);
      var rest := PageUrls(server, tenant, listing, next, fuel - 1);
      assert urls == [url] + rest;
      assert urls[1..] == rest;
      assert forall i :: 1 <= i < |urls| ==> urls[i] == rest[i - 1];
    } else if page.Success? {
      assert urls == [url];
      assert ItemsAlong(server, urls, listing.listKey) == ListOf(page.value, listing.listKey) + [];
    } else {
      assert urls == [url];
      assert server(urls[0]).statusCode != 200;
    }
  }

  // ---------------------------------------------------------------------------
  // Endpoints
  // ---------------------------------------------------------------------------

  function DigitChar(d: nat): char
    requires d < 10
  {
    "0123456789"[d]
  }

  function NatToString(n: nat): string
    decreases n
  {
    if n < 10 then [DigitChar(n)] else NatToString(n / 10) + [DigitChar(n % 10)]
  }

  /** Python's `str` of an integer. */
  function IntToString(i: int): string {
    if i < 0 then "-" + NatToString(-i) else NatToString(i)
  }

  const ZonePath := "/api/v2/securityProblems?securityProblemSelector=managementZoneIds(\""
  const ZoneFields := "&fields=+riskAssessment,+managementZones&pageSize=500"
  const DetailPath := "/api/v2/securityProblems/"
  const DetailFields := "?fields=+affectedEntities,+relatedEntities,+riskAssessment,+managementZones"
  const EntitiesPath := "/api/v2/entities?entitySelector=entityId("
  const EntitiesFields := ")&fields=+properties,+managementZones"

  /** The list endpoint for the security problems of a management zone in a time window. */
  function ZoneEndpoint(mzId: string, fromTs: int, toTs: int): string {
    ZonePath + mzId + "\")&from=" + IntToString(fromTs) + "&to=" + IntToString(toTs) + ZoneFields
  }

  /** The detail endpoint of one security problem. */
  function DetailEndpoint(id: string): string {
    DetailPath + id + DetailFields
  }

  function Quoted(id: string): string {
    "\"" + id + "\""
  }

  /** `','.join(f'"{id}"' for id in ids)`. */
  function IdSelector(ids: seq<string>): string
    decreases |ids|
  {
    if ids == [] then ""
    else if |ids| == 1 then Quoted(ids[0])
    else Quoted(ids[0]) + "," + IdSelector(ids[1..])
  }

  /** The entity endpoint for a list of entity IDs. */
  function EntitiesEndpoint(ids: seq<string>): string {
    EntitiesPath + IdSelector(ids) + EntitiesFields
  }

  // ---------------------------------------------------------------------------
  // Reading a selector back
  // ---------------------------------------------------------------------------

  /** The position of the first double quote in `s`, or `|s|` when there is none. */
  function IndexOfQuote(s: string): (n: nat)
    ensures n <= |s|
    ensures forall k :: 0 <= k < n ==> s[k] != '"'
    ensures n < |s| ==> s[n] == '"'
    decreases |s|
  {
    if s == [] || s[0] == '"' then 0 else 1 + IndexOfQuote(s[1..])
  }

  /** Splits a comma-joined list of quoted IDs; anything malformed ends the list. */
  function ParseSelector(s: string): seq<string>
    decreases |s|
  {
    if s == [] || s[0] != '"' then []
    else
      var n := IndexOfQuote(s[1..]);
      if n == |s| - 1 then []
      else
        var id := s[1..n + 1];
        var rest := s[n + 2..];
        if rest == [] then [id]
        else if rest[0] == ',' then [id] + ParseSelector(rest[1..])
        else []
  }

  lemma IndexOfQuoteAfter(id: string, t: string)
    requires '"' !in id
    ensures IndexOfQuote(id + "\"" + t) == |id|
  {
    var s := id + "\"" + t;
    var n := IndexOfQuote(s);
    assert s[|id|] == '"';
    if n < |id| {
      assert false;
    }
  }

  lemma QuotedParts(id: string, t: string)
    requires '"' !in id
    ensures var s := Quoted(id) + t;
      && IndexOfQuote(s[1..]) == |id|
      && s[1..|id| + 1] == id
      && s[|id| + 2..] == t
  {
    var s := Quoted(id) + t;
    assert s[1..] == id + "\"" + t;
    IndexOfQuoteAfter(id, t);
  }

  /** Reading one quoted ID, then whatever follows it. */
  lemma ParseQuoted(id: string, t: string)
    requires '"' !in id
    ensures ParseSelector(Quoted(id) + t)
         == if t == [] then [id] else if t[0] == ',' then [id] + ParseSelector(t[1..]) else []
  {
    QuotedParts(id, t);
  }

  /** The selector lists the IDs, each quoted, in input order: it reads back to them. */
  lemma {:induction false} IdSelectorRoundTrip(ids: seq<string>)
    requires forall i :: 0 <= i < |ids| ==> '"' !in ids[i]
    ensures ParseSelector(IdSelector(ids)) == ids
    decreases |ids|
  {
    if |ids| == 1 {
      ParseQuoted(ids[0], "");
      assert Quoted(ids[0]) + "" == Quoted(ids[0]);
    } else if |ids| > 1 {
      var t := "," + IdSelector(ids[1..]);
      AppendAssoc(Quoted(ids[0]), ",", IdSelector(ids[1..]));
      assert IdSelector(ids) == Quoted(ids[0]) + t;
      ParseQuoted(ids[0], t);
      assert t[1..] == IdSelector(ids[1..]);
      IdSelectorRoundTrip(ids[1..]);
      assert ids == [ids[0]] + ids[1..];
    }
  }

  // ---------------------------------------------------------------------------
  // Enrichment
  // ---------------------------------------------------------------------------

  /** One pass of the enrichment loop: the summary's ID, then the detail record of that ID. */
  ghost function EnrichOne(server: Server, tenant: string, summary: Json): Result<Json, ApiError> {
    if SecurityProblemId !in summary.strings then Failure(MissingKey(SecurityProblemId))
    else Query(server, tenant + DetailEndpoint(summary.strings[SecurityProblemId]))
  }

  /**
   * The enrichment of a list of summaries, front to back; the first summary
   * that cannot be enriched fails the whole list.
   */
  ghost function Enriched(server: Server, tenant: string, summaries: seq<Json>): Result<seq<Json>, ApiError>
    decreases |summaries|
  {
    if summaries == [] then Success([])
    else
      var details := EnrichOne(server, tenant, summaries[0]);
      if details.Failure? then Failure(details.error)
      else Prepend([details.value], Enriched(server, tenant, summaries[1..]))
  }

  /** A summary carries an ID whose detail request answers 200. */
  ghost predicate Enrichable(server: Server, tenant: string, summary: Json) {
    && SecurityProblemId in summary.strings
    && server(tenant + DetailEndpoint(summary.strings[SecurityProblemId])).statusCode == 200
  }

  /** Enrichment succeeds exactly when every summary is enrichable. */
  lemma {:induction false} EnrichedSucceeds(server: Server, tenant: string, summaries: seq<Json>)
    ensures Enriched(server, tenant, summaries).Success?
        <==> forall i :: 0 <= i < |summaries| ==> Enrichable(server, tenant, summaries[i])
    decreases |summaries|
  {
    if summaries != [] {
      EnrichedSucceeds(server, tenant, summaries[1..]);
      assert forall i :: 1 <= i < |summaries| ==> summaries[1..][i - 1] == summaries[i];
      if !Enrichable(server, tenant, summaries[0]) {
        assert EnrichOne(server, tenant, summaries[0]).Failure?;
      }
    }
  }

  /**
   * A successful enrichment is as long as the summary list, and element `i`
   * is the detail record of summary `i`'s ID.
   */
  lemma {:induction false} EnrichedValues(server: Server, tenant: string, summaries: seq<Json>)
    requires Enriched(server, tenant, summaries).Success?
    ensures var details := Enriched(server, tenant, summaries).value;
      && |details| == |summaries|
      && forall i :: 0 <= i < |summaries| ==>
           && SecurityProblemId in summaries[i].strings
           && details[i] == server(tenant + DetailEndpoint(summaries[i].strings[SecurityProblemId])).body
    decreases |summaries|
  {
    if summaries != [] {
      EnrichedValues(server, tenant, summaries[1..]);
      var details := Enriched(server, tenant, summaries).value;
      var rest := Enriched(server, tenant, summaries[1..]).value;
      assert details == [EnrichOne(server, tenant, summaries[0]).value] + rest;
      forall i | 1 <= i < |summaries|
        ensures details[i] == server(tenant + DetailEndpoint(summaries[i].strings[SecurityProblemId])).body
      {
        assert summaries[1..][i - 1] == summaries[i];
        assert details[i] == rest[i - 1];
      }
    }
  }

  lemma EnrichedStep(server: Server, tenant: string, summaries: seq<Json>, i: nat)
    requires i < |summaries|
    ensures var details := EnrichOne(server, tenant, summaries[i]);
      Enriched(server, tenant, summaries[i..])
      == if details.Failure? then Failure(details.error)
         else Prepend([details.value], Enriched(server, tenant, summaries[i + 1..]))
  {
    assert summaries[i..][0] == summaries[i];
    assert summaries[i..][1..] == summaries[i + 1..];
  }

  // ---------------------------------------------------------------------------
  // The memo during enrichment
  // ---------------------------------------------------------------------------

  /** The IDs a list of summaries carries. */
  function IdsOf(summaries: seq<Json>): set<string>
    decreases |summaries|
  {
    if summaries == [] then {}
    else
      (if SecurityProblemId in summaries[0].strings then {summaries[0].strings[SecurityProblemId]} else {})
      + IdsOf(summaries[1..])
  }

  /** The detail URLs of a list of IDs, in order. */
  function DetailUrls(tenant: string, ids: seq<string>): seq<string>
    decreases |ids|
  {
    if ids == [] then [] else [tenant + DetailEndpoint(ids[0])] + DetailUrls(tenant, ids[1..])
  }

  /**
   * The cache the enrichment loop leaves behind when it starts from `cache`:
   * an ID not yet cached is added when its detail request succeeds, and the
   * loop stops at a summary without an ID or at the first failed request.
   */
  ghost function EnrichCache(server: Server, tenant: string, cache: map<string, Json>, summaries: seq<Json>): map<string, Json>
    decreases |summaries|
  {
    if summaries == [] || SecurityProblemId !in summaries[0].strings then cache
    else
      var id := summaries[0].strings[SecurityProblemId];
      var details := Query(server, tenant + DetailEndpoint(id));
      if id in cache then EnrichCache(server, tenant, cache, summaries[1..])
      else if details.Failure? then cache
      else EnrichCache(server, tenant, cache[id := details.value], summaries[1..])
  }

  /** The IDs whose details the enrichment loop requests, in order, when it starts from `cache`. */
  ghost function FetchedIds(server: Server, tenant: string, cache: map<string, Json>, summaries: seq<Json>): seq<string>
    decreases |summaries|
  {
    if summaries == [] || SecurityProblemId !in summaries[0].strings then []
    else
      var id := summaries[0].strings[SecurityProblemId];
      var details := Query(server, tenant + DetailEndpoint(id));
      if id in cache then FetchedIds(server, tenant, cache, summaries[1..])
      else if details.Failure? then [id]
      else [id] + FetchedIds(server, tenant, cache[id := details.value], summaries[1..])
  }

  /** The cache only grows: no entry is dropped or changed, and only IDs of the summaries are added. */
  lemma {:induction false} EnrichCacheKeeps(server: Server, tenant: string, cache: map<string, Json>, summaries: seq<Json>)
    ensures forall id :: id in cache ==>
      id in EnrichCache(server, tenant, cache, summaries) && EnrichCache(server, tenant, cache, summaries)[id] == cache[id]
    ensures EnrichCache(server, tenant, cache, summaries).Keys <= cache.Keys + IdsOf(summaries)
    decreases |summaries|
  {
    if summaries != [] && SecurityProblemId in summaries[0].strings {
      var id := summaries[0].strings[SecurityProblemId];
      var details := Query(server, tenant + DetailEndpoint(id));
      assert IdsOf(summaries) == {id} + IdsOf(summaries[1..]);
      if id in cache {
        EnrichCacheKeeps(server, tenant, cache, summaries[1..]);
      } else if details.Success? {
        EnrichCacheKeeps(server, tenant, cache[id := details.value], summaries[1..]);
      }
    }
  }

  /**
   * After a successful enrichment every summary's ID is cached, and exactly
   * the IDs that were not cached before have been requested.
   */
  lemma {:induction false} EnrichedCachesAll(server: Server, tenant: string, cache: map<string, Json>, summaries: seq<Json>)
    requires Enriched(server, tenant, summaries).Success?
    ensures EnrichCache(server, tenant, cache, summaries).Keys == cache.Keys + IdsOf(summaries)
    ensures forall id :: id in FetchedIds(server, tenant, cache, summaries) <==> id in IdsOf(summaries) && id !in cache
    decreases |summaries|
  {
    if summaries != [] {
      assert EnrichOne(server, tenant, summaries[0]).Success?;
      assert Enriched(server, tenant, summaries[1..]).Success?;
      var id := summaries[0].strings[SecurityProblemId];
      var details := Query(server, tenant + DetailEndpoint(id));
      assert IdsOf(summaries) == {id} + IdsOf(summaries[1..]);
      if id in cache {
        EnrichedCachesAll(server, tenant, cache, summaries[1..]);
      } else {
        EnrichedCachesAll(server, tenant, cache[id := details.value], summaries[1..]);
      }
    }
  }

  /**
   * The memo at work: every ID requested is an ID of the summaries that was
   * not cached at the start, and no ID is requested twice.
   */
  lemma {:induction false} FetchedIdsFresh(server: Server, tenant: string, cache: map<string, Json>, summaries: seq<Json>)
    ensures forall i :: 0 <= i < |FetchedIds(server, tenant, cache, summaries)| ==>
      FetchedIds(server, tenant, cache, summaries)[i] !in cache
      && FetchedIds(server, tenant, cache, summaries)[i] in IdsOf(summaries)
    ensures forall i, j :: 0 <= i < j < |FetchedIds(server, tenant, cache, summaries)| ==>
      FetchedIds(server, tenant, cache, summaries)[i] != FetchedIds(server, tenant, cache, summaries)[j]
    decreases |summaries|
  {
    if summaries != [] && SecurityProblemId in summaries[0].strings {
      var id := summaries[0].strings[SecurityProblemId];
      var details := Query(server, tenant + DetailEndpoint(id));
      assert IdsOf(summaries) == {id} + IdsOf(summaries[1..]);
      if id in cache {
        FetchedIdsFresh(server, tenant, cache, summaries[1..]);
      } else if details.Success? {
        var added := cache[id := details.value];
        FetchedIdsFresh(server, tenant, added, summaries[1..]);
        var rest := FetchedIds(server, tenant, added, summaries[1..]);
        var fetched := FetchedIds(server, tenant, cache, summaries);
        assert fetched == [id] + rest;
        forall i | 1 <= i < |fetched|
          ensures fetched[i] == rest[i - 1] && fetched[i] != id && fetched[i] !in cache
        {
          assert rest[i - 1] !in added;
        }
      }
    }
  }

  /**
   * The state of the enrichment loop before summary `i`: from the current
   * cache and requests, the rest of the summaries complete them to the cache
   * and requests expected from the start.
   */
  ghost predicate DetailsOwed(server: Server, tenant: string, cache0: map<string, Json>, requests0: seq<string>,
                              summaries: seq<Json>, i: nat, cache: map<string, Json>, requests: seq<string>)
    requires i <= |summaries|
  {
    && EnrichCache(server, tenant, cache, summaries[i..]) == EnrichCache(server, tenant, cache0, summaries)
    && requests + DetailUrls(tenant, FetchedIds(server, tenant, cache, summaries[i..]))
       == requests0 + DetailUrls(tenant, FetchedIds(server, tenant, cache0, summaries))
  }

  lemma FirstDetailStep(server: Server, tenant: string, cache: map<string, Json>, requests: seq<string>, summaries: seq<Json>)
    ensures DetailsOwed(server, tenant, cache, requests, summaries, 0, cache, requests)
  {
    assert summaries[0..] == summaries;
  }

  /** The loop stops at a summary without an ID, owing nothing more. */
  lemma MissingIdStep(server: Server, tenant: string, cache0: map<string, Json>, requests0: seq<string>,
                      summaries: seq<Json>, i: nat, cache: map<string, Json>, requests: seq<string>)
    requires i < |summaries| && SecurityProblemId !in summaries[i].strings
    requires DetailsOwed(server, tenant, cache0, requests0, summaries, i, cache, requests)
    ensures cache == EnrichCache(server, tenant, cache0, summaries)
    ensures requests == requests0 + DetailUrls(tenant, FetchedIds(server, tenant, cache0, summaries))
  {
    assert summaries[i..][0] == summaries[i];
    assert requests + [] == requests;
  }

  /** One summary with an ID: answered from the cache, or one detail request. */
  lemma DetailStep(server: Server, tenant: string, cache0: map<string, Json>, requests0: seq<string>,
                   summaries: seq<Json>, i: nat, cache: map<string, Json>, requests: seq<string>)
    requires i < |summaries| && SecurityProblemId in summaries[i].strings
    requires DetailsOwed(server, tenant, cache0, requests0, summaries, i, cache, requests)
    ensures var id := summaries[i].strings[SecurityProblemId];
      var url := tenant + DetailEndpoint(id);
      var details := Query(server, url);
      if id in cache then DetailsOwed(server, tenant, cache0, requests0, summaries, i + 1, cache, requests)
      else if details.Failure? then
        && cache == EnrichCache(server, tenant, cache0, summaries)
        && requests + [url] == requests0 + DetailUrls(tenant, FetchedIds(server, tenant, cache0, summaries))
      else DetailsOwed(server, tenant, cache0, requests0, summaries, i + 1, cache[id := details.value], requests + [url])
  {
    var id := summaries[i].strings[SecurityProblemId];
    var url := tenant + DetailEndpoint(id);
    var details := Query(server, url);
    assert summaries[i..][0] == summaries[i];
    assert summaries[i..][1..] == summaries[i + 1..];
    if id !in cache {
      if details.Failure? {
        assert DetailUrls(tenant, [id]) == [url] + DetailUrls(tenant, []);
      } else {
        var rest := FetchedIds(server, tenant, cache[id := details.value], summaries[i + 1..]);
        assert ([id] + rest)[1..] == rest;
        assert DetailUrls(tenant, [id] + rest) == [url] + DetailUrls(tenant, rest);
        AppendAssoc(requests, [url], DetailUrls(tenant, rest));
      }
    }
  }

  /** The loop ends after the last summary, owing nothing more. */
  lemma LastDetailStep(server: Server, tenant: string, cache0: map<string, Json>, requests0: seq<string>,
                       summaries: seq<Json>, cache: map<string, Json>, requests: seq<string>)
    requires DetailsOwed(server, tenant, cache0, requests0, summaries, |summaries|, cache, requests)
    ensures cache == EnrichCache(server, tenant, cache0, summaries)
    ensures requests == requests0 + DetailUrls(tenant, FetchedIds(server, tenant, cache0, summaries))
  {
    assert summaries[|summaries|..] == [];
    assert requests + [] == requests;
  }

  /** What `get_vulnerabilities_by_management_zone` returns. */
  ghost function ZoneVulnerabilities(server: Server, tenant: string, mzId: string, fromTs: int, toTs: int, fuel: nat): Result<seq<Json>, ApiError>
    requires ChainEnds(server, tenant, SecurityProblems, ZoneEndpoint(mzId, fromTs, toTs), fuel)
  {
    var summaries := FetchAll(server, tenant, SecurityProblems, ZoneEndpoint(mzId, fromTs, toTs), fuel);
    if summaries.Failure? then Failure(summaries.error) else Enriched(server, tenant, summaries.value)
  }

  // ---------------------------------------------------------------------------
  // The client
  // ---------------------------------------------------------------------------

  class Client {
    const tenant: string
    const apiToken: string
    const verifySsl: bool
    const server: Server

    /** The memo of `get_security_problem_details`: ID to detail record. */
    var cache: map<string, Json>
    /** Every URL requested so far, in order. */
    ghost var requests: seq<string>

    /** Every cached record is what the tenant answers for that ID. */
    ghost predicate Valid()
      reads this`cache
    {
      forall id :: id in cache ==> Query(server, tenant + DetailEndpoint(id)) == Success(cache[id])
    }

    constructor(tenant: string, apiToken: string, server: Server, verifySsl: bool := true)
      ensures this.tenant == RStripSlash(tenant)
      ensures this.apiToken == apiToken && this.verifySsl == verifySsl && this.server == server
      ensures cache == map[] && requests == []
      ensures Valid()
    {
      this.tenant := RStripSlash(tenant);
      this.apiToken := apiToken;
      this.verifySsl := verifySsl;
      this.server := server;
      cache := map[];
      requests := [];
    }

    /** One GET of `tenant + endpoint`; only status 200 is a success. */
    method QueryApi(endpoint: string) returns (r: Result<Json, ApiError>)
      modifies this`requests
      ensures requests == old(requests) + [tenant + endpoint]
      ensures r.Success? <==> server(tenant + endpoint).statusCode == 200
      ensures r.Success? ==> r.value == server(tenant + endpoint).body
      ensures r.Failure? ==> r.error == Failed(server(tenant + endpoint))
      ensures r == Query(server, tenant + endpoint)
    {
      var url := tenant + endpoint;
      requests := requests + [url];
      var response := server(url);
      if response.statusCode != 200 {
        return Failure(Failed(response));
      }
      return Success(response.body);
    }

    /** The loop shared by both paginated queries: request pages while the last one carries a cursor. */
    method QueryAllPages(listing: Listing, endpoint: string, ghost fuel: nat) returns (r: Result<seq<Json>, ApiError>)
      requires ChainEnds(server, tenant, listing, endpoint, fuel)
      modifies this`requests
      ensures r == FetchAll(server, tenant, listing, endpoint, fuel)
      ensures requests == old(requests) + PageUrls(server, tenant, listing, endpoint, fuel)
    {
      ghost var expected := FetchAll(server, tenant, listing, endpoint, fuel);
      ghost var pages := requests + PageUrls(server, tenant, listing, endpoint, fuel);
      FirstPageStep(server, tenant, listing, endpoint, fuel, requests);
      var response :- QueryApi(endpoint);
      var items := ListOf(response, listing.listKey);
      ghost var left: nat := fuel - 1;
      while NextPageKey in response.strings
        invariant PagesOwed(server, tenant, listing, response, left, items, requests, expected, pages)
        decreases left
      {
        NextPageStep(server, tenant, listing, response, left, items, requests, expected, pages);
        response :- QueryApi(NextEndpoint(listing, response));
        items := items + ListOf(response, listing.listKey);
        left := left - 1;
      }
      LastPageStep(server, tenant, listing, response, left, items, requests, expected, pages);
      return Success(items);
    }

    /** `_query_all_security_problems`. */
    method QueryAllSecurityProblems(endpoint: string, ghost fuel: nat) returns (r: Result<seq<Json>, ApiError>)
      requires ChainEnds(server, tenant, SecurityProblems, endpoint, fuel)
      modifies this`requests
      ensures r == FetchAll(server, tenant, SecurityProblems, endpoint, fuel)
      ensures requests == old(requests) + PageUrls(server, tenant, SecurityProblems, endpoint, fuel)
    {
      r := QueryAllPages(SecurityProblems, endpoint, fuel);
    }

    /** `_get_all_entities`. */
    method GetAllEntities(endpoint: string, ghost fuel: nat) returns (r: Result<seq<Json>, ApiError>)
      requires ChainEnds(server, tenant, Entities, endpoint, fuel)
      modifies this`requests
      ensures r == FetchAll(server, tenant, Entities, endpoint, fuel)
      ensures requests == old(requests) + PageUrls(server, tenant, Entities, endpoint, fuel)
    {
      r := QueryAllPages(Entities, endpoint, fuel);
    }

    /**
     * `get_security_problem_details`, memoised: a cached ID is answered from
     * the cache without a request; otherwise one request is made and only a
     * success is cached.
     */
    method GetSecurityProblemDetails(id: string) returns (r: Result<Json, ApiError>)
      requires Valid()
      modifies this`cache, this`requests
      ensures Valid()
      ensures r == Query(server, tenant + DetailEndpoint(id))
      ensures id in old(cache) ==> cache == old(cache) && requests == old(requests)
      ensures id !in old(cache) ==> requests == old(requests) + [tenant + DetailEndpoint(id)]
      ensures id !in old(cache) ==> cache == if r.Success? then old(cache)[id := r.value] else old(cache)
    {
      if id in cache {
        return Success(cache[id]);
      }
      r := QueryApi(DetailEndpoint(id));
      if r.Success? {
        cache := cache[id := r.value];
      }
    }

    /**
     * `get_vulnerabilities_by_management_zone`: the paginated summaries of the
     * zone and window, each replaced by its detail record. A failed page
     * leaves the cache as it was and requests no details.
     */
    method GetVulnerabilitiesByManagementZone(mzId: string, fromTs: int, toTs: int, ghost fuel: nat)
      returns (r: Result<seq<Json>, ApiError>)
      requires Valid()
      requires ChainEnds(server, tenant, SecurityProblems, ZoneEndpoint(mzId, fromTs, toTs), fuel)
      modifies this`cache, this`requests
      ensures Valid()
      ensures r == ZoneVulnerabilities(server, tenant, mzId, fromTs, toTs, fuel)
      ensures var pages := FetchAll(server, tenant, SecurityProblems, ZoneEndpoint(mzId, fromTs, toTs), fuel);
        var sent := old(requests) + PageUrls(server, tenant, SecurityProblems, ZoneEndpoint(mzId, fromTs, toTs), fuel);
        if pages.Failure? then cache == old(cache) && requests == sent
        else
          && cache == EnrichCache(server, tenant, old(cache), pages.value)
          && requests == sent + DetailUrls(tenant, FetchedIds(server, tenant, old(cache), pages.value))
    {
      var summaries :- QueryAllSecurityProblems(ZoneEndpoint(mzId, fromTs, toTs), fuel);
      r := EnrichSummaries(summaries);
    }

    /**
     * The enrichment loop: each summary replaced by the detail record of its
     * ID, in order, through the memo. The cache keeps every entry it had and
     * gains only IDs of the summaries (all of them on success); the requests
     * are the detail URLs of the IDs not cached when their turn came.
     */
    method EnrichSummaries(summaries: seq<Json>) returns (r: Result<seq<Json>, ApiError>)
      requires Valid()
      modifies this`cache, this`requests
      ensures Valid()
      ensures r == Enriched(server, tenant, summaries)
      ensures cache == EnrichCache(server, tenant, old(cache), summaries)
      ensures requests == old(requests) + DetailUrls(tenant, FetchedIds(server, tenant, old(cache), summaries))
      ensures forall id :: id in old(cache) ==> id in cache && cache[id] == old(cache)[id]
      ensures cache.Keys <= old(cache).Keys + IdsOf(summaries)
      ensures r.Success? ==> cache.Keys == old(cache).Keys + IdsOf(summaries)
    {
      ghost var cache0, requests0 := cache, requests;
      EnrichCacheKeeps(server, tenant, cache, summaries);
      if Enriched(server, tenant, summaries).Success? {
        EnrichedCachesAll(server, tenant, cache, summaries);
      }
      var enriched := [];
      assert summaries[0..] == summaries;
      PrependNothing(Enriched(server, tenant, summaries));
      FirstDetailStep(server, tenant, cache, requests, summaries);
      for i := 0 to |summaries|
        invariant Valid()
        invariant DetailsOwed(server, tenant, cache0, requests0, summaries, i, cache, requests)
        invariant Prepend(enriched, Enriched(server, tenant, summaries[i..])) == Enriched(server, tenant, summaries)
      {
        EnrichedStep(server, tenant, summaries, i);
        if SecurityProblemId !in summaries[i].strings {
          MissingIdStep(server, tenant, cache0, requests0, summaries, i, cache, requests);
          return Failure(MissingKey(SecurityProblemId));
        }
        DetailStep(server, tenant, cache0, requests0, summaries, i, cache, requests);
        var details :- GetSecurityProblemDetails(summaries[i].strings[SecurityProblemId]);
        PrependPrepend(enriched, [details], Enriched(server, tenant, summaries[i + 1..]));
        enriched := enriched + [details];
      }
      LastDetailStep(server, tenant, cache0, requests0, summaries, cache, requests);
      assert summaries[|summaries|..] == [];
      assert enriched + [] == enriched;
      return Success(enriched);
    }

    /** The lookup shared by `get_process_groups` and `get_hosts`. */
    method EntitiesByIds(ids: seq<string>, ghost fuel: nat) returns (r: Result<seq<Json>, ApiError>)
      requires ids != [] ==> ChainEnds(server, tenant, Entities, EntitiesEndpoint(ids), fuel)
      modifies this`requests
      ensures ids == [] ==> r == Success([]) && requests == old(requests)
      ensures ids != [] ==> r == FetchAll(server, tenant, Entities, EntitiesEndpoint(ids), fuel)
      ensures ids != [] ==> requests == old(requests) + PageUrls(server, tenant, Entities, EntitiesEndpoint(ids), fuel)
    {
      if ids == [] {
        return Success([]);
      }
      r := GetAllEntities(EntitiesEndpoint(ids), fuel);
    }

    /** `get_process_groups`. */
    method GetProcessGroups(pgIds: seq<string>, ghost fuel: nat) returns (r: Result<seq<Json>, ApiError>)
      requires pgIds != [] ==> ChainEnds(server, tenant, Entities, EntitiesEndpoint(pgIds), fuel)
      modifies this`requests
      ensures pgIds == [] ==> r == Success([]) && requests == old(requests)
      ensures pgIds != [] ==> r == FetchAll(server, tenant, Entities, EntitiesEndpoint(pgIds), fuel)
      ensures pgIds != [] ==> requests == old(requests) + PageUrls(server, tenant, Entities, EntitiesEndpoint(pgIds), fuel)
    {
      r := EntitiesByIds(pgIds, fuel);
    }

    /** `get_hosts`. */
    method GetHosts(hostIds: seq<string>, ghost fuel: nat) returns (r: Result<seq<Json>, ApiError>)
      requires hostIds != [] ==> ChainEnds(server, tenant, Entities, EntitiesEndpoint(hostIds), fuel)
      modifies this`requests
      ensures hostIds == [] ==> r == Success([]) && requests == old(requests)
      ensures hostIds != [] ==> r == FetchAll(server, tenant, Entities, EntitiesEndpoint(hostIds), fuel)
      ensures hostIds != [] ==> requests == old(requests) + PageUrls(server, tenant, Entities, EntitiesEndpoint(hostIds), fuel)
    {
      r := EntitiesByIds(hostIds, fuel);
    }
  }
}
