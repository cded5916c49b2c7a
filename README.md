# Dynatrace vulnerability reports — a verified model of the core

This project models the logic of a tool that produces vulnerability reports
for Dynatrace management zones. The model has three parts.

- **The report model** (`report_data.dfy`, module `Reports`). It works from
  the flat list of enriched vulnerabilities of one report and computes:
  - the overall severity statistics;
  - the vulnerabilities first seen inside the reporting window;
  - the per-process-group and per-host buckets.

  Each bucket holds an ID, a name, severity statistics and the
  vulnerabilities that name the ID. The buckets are built in a dictionary
  and then stably sorted by size, largest first. The aggregation loop is an
  imperative method over a map plus its key-insertion order. It is proved
  equal to a functional specification, and the properties are proved about
  that specification. A report's vulnerability list is a value, so no view
  can change it.
- **The API client** (`dynatrace_api.dfy`, module `DynatraceApi`). The
  client is a class. Its state is the detail cache and a ghost log of the
  URLs it requested. The transport is an oracle `server` from request URL
  to response. The model covers:
  - tenant normalisation;
  - the status check of every request;
  - the two cursor-following list queries;
  - the per-summary enrichment of a zone's security problems;
  - the memoised detail lookup;
  - the quoted, comma-joined entity selector of the process-group and host
    lookups.

  A paginated query takes a ghost `fuel`. It must be at least the number of
  pages in the server's cursor chain (`ChainEnds`).
- **The filename sanitiser** (`helpers.dfy`, module `Helpers`). A loop of
  one replace pass per invalid character, proved equal to a
  position-by-position specification.

`wrappers.dfy` holds the `Result` type, which stands for the exceptions the
client raises.

Three behaviours of the code are worth stating outright, because a reader
might expect otherwise:
- **Only status 200 succeeds.** Any other status is a failure, including
  201 and 204 (`DynatraceApi.Client.QueryApi`).
- **Bucket totals count ID listings.** The sizes of the host buckets add up
  to the number of host listings (`Reports.AggregatedTotalsSum`). That is at
  least the number of vulnerabilities that list a host
  (`Reports.AllKeysCoverListing`), but a vulnerability without hosts makes it
  smaller than the number of vulnerabilities
  (`Reports.HostTotalsCanFallShort`).
- **Repeated IDs repeat membership.** If one vulnerability lists an ID
  twice, it goes into that ID's bucket twice (`Reports.MembersPerListing`).

## Model

| member | source | states |
|---|---|---|
| Reports.OverallSeverityStats | src/models/report_data.py:66-78 | the loop's counters equal the severity tally of the whole list (`CountSeverities`), proved with the loop invariant over the prefix visited so far |
| Reports.CountSeveritiesCountsEach | src/models/report_data.py:66-78 | each of the four counters equals the number of vulnerabilities rated with that severity |
| Reports.TotalCountsEvery | src/models/report_data.py:21-24 | `total` includes every counter, and is zero exactly when all four counters are |
| Reports.CountSeveritiesTotal | src/models/report_data.py:21-24 | `total` is at most the list length, and equals it exactly when every severity is one of the four known ones (unknown ratings are counted nowhere) |
| Reports.CountSeveritiesSplit | src/models/report_data.py:66-78 | the counted total plus the number of vulnerabilities with an unknown severity is the list length |
| Reports.CountSeveritiesBound | src/models/report_data.py:66-78 | the total of the statistics never exceeds the number of vulnerabilities |
| Reports.NewSince | src/models/report_data.py:80-87 | the result is no longer than the input, and a vulnerability is in it exactly when it is in the input and first seen at or after the start |
| Reports.NewVulnerabilities | src/models/report_data.py:80-87 | the report's new vulnerabilities are no more than its vulnerabilities, and a vulnerability is among them exactly when the report has it and it was first seen at or after the report's start |
| Reports.NewSinceMultiplicity | src/models/report_data.py:84-87 | the filter keeps every occurrence of a new vulnerability and no occurrence of an old one |
| Reports.NewSinceAntitone | src/models/report_data.py:80-87 | a later start selects a subsequence of what an earlier start selects (filtering with the later start after the earlier one changes nothing), and never more elements |
| Reports.ExampleWindow | src/models/report_data.py:66-87 | a two-vulnerability report, one before the window and one inside it: statistics (1, 1, 0, 0), and only the one inside is new |
| Reports.Aggregate | src/models/report_data.py:92-120 | the dictionary loop (insert a bucket on first sight, append, tally, then sort) returns exactly the specified aggregation `Aggregated`, proved with loop invariants relating the map and its insertion order to the pairs visited so far |
| Reports.ProcessGroupAggregations | src/models/report_data.py:89-120 | the process-group view is the aggregation of the report's list by `process_groups` |
| Reports.HostAggregations | src/models/report_data.py:122-153 | the host view is the aggregation of the report's list by `hosts` |
| Reports.VisitKeepsAgreement | src/models/report_data.py:94-113 | visiting one (vulnerability, ID) pair keeps the map equal to the buckets of the pairs visited, and the key order equal to their first-encounter order |
| Reports.AggregatedIds | src/models/report_data.py:94-101 | bucket IDs are pairwise distinct, and an ID has a bucket exactly when some vulnerability lists it |
| Reports.AggregatedBuckets | src/models/report_data.py:96-113 | every bucket's name equals its ID, its list is the in-order list of vulnerabilities naming the ID (non-empty), its statistics are the tally of its own list, and its statistics total is at most its size |
| Reports.MembersPerListing | src/models/report_data.py:94-103 | a bucket's list is, in order, each vulnerability repeated once per listing of the bucket's ID |
| Reports.AggregatedTotalsSum | src/models/report_data.py:94-103 | the bucket sizes add up to the total number of ID listings over all vulnerabilities |
| Reports.AllKeysCoverListing | src/models/report_data.py:94-103 | the ID listings are at least as many as the vulnerabilities listing an ID, and exactly as many iff no vulnerability lists two or more |
| Reports.HostTotalsCanFallShort | src/models/report_data.py:127-136 | a vulnerability with no hosts makes the host totals add up to less than the number of vulnerabilities |
| Reports.AggregatedOrder | src/models/report_data.py:115-120 | the result is non-increasing in size, a permutation of the buckets in insertion order, and buckets of equal size keep their insertion order |
| Reports.SortByTotalDesc | src/models/report_data.py:116-120 | the sort returns a permutation of its input that is non-increasing in size |
| Reports.SortByTotalDescStable | src/models/report_data.py:116-120 | for every size, the buckets of that size appear in the same order as in the input (`sorted` with `reverse=True` is stable) |
| Reports.SortByTotalDescSum | src/models/report_data.py:116-120 | sorting keeps the sum of the bucket sizes |
| Reports.SortByTotalDescIds | src/models/report_data.py:116-120 | sorting keeps the set of bucket IDs and their distinctness |
| Reports.InsertByTotal | src/models/report_data.py:116-120 | one insertion step adds exactly the new bucket and puts it or the old head in front |
| Reports.FirstSeenKeysSpec | src/models/report_data.py:96-101 | the dictionary's key order is duplicate-free and holds exactly the IDs visited |
| DynatraceApi.RStripSlash | src/api/dynatrace_api.py:25 | the stored tenant is a prefix of the input, does not end in `/`, and only slashes were removed |
| DynatraceApi.RStripSlashUnique | src/api/dynatrace_api.py:25 | those three properties determine the stripped tenant uniquely |
| DynatraceApi.RStripSlashIdempotent | src/api/dynatrace_api.py:25 | stripping a stripped tenant changes nothing |
| DynatraceApi.Client.constructor | src/api/dynatrace_api.py:16-27 | the tenant is stored with its trailing slashes stripped, SSL verification defaults to on, and the cache and request log start empty |
| DynatraceApi.Client.QueryApi | src/api/dynatrace_api.py:29-58 | one request of `tenant + endpoint`; it succeeds exactly on status 200 with the response body, and otherwise fails with the status, reason and content |
| DynatraceApi.Client.QueryAllPages | src/api/dynatrace_api.py:125-134 | the pagination loop returns the specified list `FetchAll`, and requests exactly the specified page URLs once each, proved with loop invariants over the pages still to come |
| DynatraceApi.PageUrlsChain | src/api/dynatrace_api.py:125-134 | a paginated query requests a chain of pages, each once: the first is the endpoint, each next one is the follow-up base plus the `nextPageKey` of the page before (which answered 200), and the last one failed or carries no `nextPageKey` |
| DynatraceApi.FetchAllResult | src/api/dynatrace_api.py:125-134 | a paginated query succeeds iff every requested page answers 200, and then returns the pages' items concatenated in order (a missing list counts as empty); otherwise it fails with the last page's status, reason and content, with no partial list |
| DynatraceApi.Client.QueryAllSecurityProblems | src/api/dynatrace_api.py:115-134 | the security-problem pagination (list key `securityProblems`) |
| DynatraceApi.Client.GetAllEntities | src/api/dynatrace_api.py:199-218 | the entity pagination (list key `entities`) |
| DynatraceApi.Client.GetSecurityProblemDetails | src/api/dynatrace_api.py:136-152 | the result is the detail response of the ID; a cached ID is answered without a request, and a new ID costs one request and is cached only when it succeeds |
| DynatraceApi.Client.EnrichSummaries | src/api/dynatrace_api.py:106-113 | the enrichment loop returns the specified `Enriched` list. The cache ends as `EnrichCache` and the requests added are the detail URLs of `FetchedIds`. Every old cache entry is kept unchanged, only IDs of the summaries are added, and on success all of them are cached |
| DynatraceApi.EnrichedSucceeds | src/api/dynatrace_api.py:106-113 | enrichment succeeds exactly when every summary has a `securityProblemId` whose detail request answers 200 |
| DynatraceApi.EnrichedValues | src/api/dynatrace_api.py:106-113 | a successful enrichment is as long as the summary list, and element `i` is the detail record of summary `i`'s ID |
| DynatraceApi.EnrichCacheKeeps | src/api/dynatrace_api.py:106-113 | through the enrichment loop the cache only grows: every entry stays with its record, and the only IDs added are IDs of the summaries |
| DynatraceApi.EnrichedCachesAll | src/api/dynatrace_api.py:106-113 | after a successful enrichment the cache holds the old IDs plus every summary's ID, and an ID was requested exactly when it was a summary's ID and not cached before |
| DynatraceApi.FetchedIdsFresh | src/api/dynatrace_api.py:136-152 | the memo at work: every requested ID belongs to a summary and was not cached at the start, and no ID is requested twice, even when several summaries share it |
| DynatraceApi.Client.GetVulnerabilitiesByManagementZone | src/api/dynatrace_api.py:71-113 | the zone query's pages are fetched first, then every summary is enriched, and a failed page or detail request fails the whole call. A failed page leaves the cache unchanged and requests exactly the page URLs, with no detail request; otherwise the cache and requests are those of the enrichment that follows the pages |
| DynatraceApi.IdSelectorRoundTrip | src/api/dynatrace_api.py:167-168 | for IDs without a double quote, the selector is the IDs, each in double quotes, joined by commas, in input order: it reads back to exactly the ID list |
| DynatraceApi.Client.GetProcessGroups | src/api/dynatrace_api.py:154-175 | an empty ID list returns no entities and sends no request; otherwise the entity pagination of the selector endpoint |
| DynatraceApi.Client.GetHosts | src/api/dynatrace_api.py:177-197 | an empty ID list returns no entities and sends no request; otherwise the entity pagination of the selector endpoint |
| Helpers.SanitizeFilename | src/utils/helpers.py:23-38 | the replace loop keeps the length, and changes every invalid character to `_` and no other, proved with a loop invariant over the characters replaced so far |
| Helpers.Sanitized | src/utils/helpers.py:34-38 | the sanitised name has the input's length and contains none of `/ \ : * ? " < > \|` |
| Helpers.SanitizedIdempotent | src/utils/helpers.py:34-38 | sanitising twice is sanitising once |
| Helpers.SanitizedUnchanged | src/utils/helpers.py:34-38 | a name is left unchanged exactly when it contains no invalid character |

## Left out

- HTTP itself is not modelled: `requests.get`, the `Authorization` header, TLS verification and JSON decoding. The transport is a fixed function from URL to response, so it does not model a server that answers the same URL differently over time. The API token and the SSL flag are stored but not used.
- JSON bodies are reduced to their string members and their lists of objects. A `nextPageKey` that is present but not a string is not modelled.
- The ghost `fuel` (`ChainEnds`): a server whose cursor chain never ends makes the source loop forever, and the model does not cover that case.
- The `datetime` to epoch-millisecond conversions go through floating point. Report times and the `from`/`to` bounds are taken as integers.
- DynatraceApi.IdSelectorRoundTrip: holds only for IDs without a double quote. The selector does not escape quotes, so an ID containing one does not read back as itself.
- `get_management_zones` is not part of this model (it is one unpaginated request).
- `VulnerabilityData` and `Severity` are reduced to the fields the aggregation reads. Their module `src/models/vulnerability.py` is not part of this model, and neither is `from_api_response`.
- Both `ProcessGroupAggregation` and `HostAggregation` are one datatype, `Reports.Aggregation`. They differ only in field names.
- Buckets are values. The model does not capture that the dictionary and the sorted list share the same mutable bucket objects.
- The HTML and PDF generators, logging, `ensure_output_directory` and `main.py` are not part of this model. They are template rendering, browser conversion, filesystem side effects and command-line orchestration.
- Logging calls in every modelled operation are left out.
