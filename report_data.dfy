/**
 * The report aggregation model of the vulnerability reports: overall
 * severity statistics, the "new" vulnerabilities of the reporting window,
 * and the per-process-group and per-host buckets ordered by size.
 *
 * A report holds a flat list of enriched vulnerabilities; every view below is
 * computed from that list on demand and none of them changes it (the list is
 * a value here).
 */
module Reports {

  // ---------------------------------------------------------------------------
  // Vulnerabilities and severity statistics
  // ---------------------------------------------------------------------------

  /** The four severities a report counts; any other rating is `Other`. */
  datatype Severity = Critical | High | Medium | Low | Other(rating: string) {
    predicate IsKnown() {
      !Other?
    }
  }

  /** An enriched vulnerability, reduced to the fields the aggregation reads. */
  datatype Vulnerability = Vulnerability(
    severity: Severity,
    firstSeenTimestamp: int,        // epoch milliseconds
    hosts: seq<string>,             // affected host IDs, as listed (repeats possible)
    processGroups: seq<string>)     // affected process-group IDs, as listed

  /** Four counters, one per known severity. */
  datatype SeverityStats = SeverityStats(critical: nat, high: nat, medium: nat, low: nat) {
    /** `total`: the sum of the four counters. */
    function Total(): nat {
      critical + high + medium + low
    }
  }

  const NoSeverities := SeverityStats(0, 0, 0, 0)

  /** Every counter is part of the total, and the total is zero only when every counter is. */
  lemma TotalCountsEvery(stats: SeverityStats)
    ensures stats.critical <= stats.Total() && stats.high <= stats.Total()
    ensures stats.medium <= stats.Total() && stats.low <= stats.Total()
    ensures stats.Total() == 0 <==> stats == NoSeverities
  {
  }

  /** One pass of the `elif` chain: bump the counter of a known severity, ignore any other. */
  function Tally(stats: SeverityStats, s: Severity): SeverityStats {
    match s
    case Critical => stats.(critical := stats.critical + 1)
    case High => stats.(high := stats.high + 1)
    case Medium => stats.(medium := stats.medium + 1)
    case Low => stats.(low := stats.low + 1)
    case Other(_) => stats
  }

  /** The statistics of a list of vulnerabilities, tallied front to back. */
  function CountSeverities(vs: seq<Vulnerability>): SeverityStats
    decreases |vs|
  {
    if vs == [] then NoSeverities
    else Tally(CountSeverities(vs[..|vs| - 1]), vs[|vs| - 1].severity)
  }

  lemma CountSeveritiesAppend(vs: seq<Vulnerability>, v: Vulnerability)
    ensures CountSeverities(vs + [v]) == Tally(CountSeverities(vs), v.severity)
  {
    assert (vs + [v])[..|vs|] == vs;
  }

  function SeveritiesOf(vs: seq<Vulnerability>): seq<Severity> {
    seq(|vs|, i requires 0 <= i < |vs| => vs[i].severity)
  }

  /** One tally adds one rating to the counted multiset. */
  lemma TallyCounts(stats: SeverityStats, s: Severity, m: multiset<Severity>)
    requires stats.critical == m[Critical] && stats.high == m[High]
    requires stats.medium == m[Medium] && stats.low == m[Low]
    ensures Tally(stats, s).critical == (m + multiset{s})[Critical]
    ensures Tally(stats, s).high == (m + multiset{s})[High]
    ensures Tally(stats, s).medium == (m + multiset{s})[Medium]
    ensures Tally(stats, s).low == (m + multiset{s})[Low]
  {
  }

  /** Each counter is the number of vulnerabilities rated with that severity. */
  lemma {:induction false} CountSeveritiesCountsEach(vs: seq<Vulnerability>)
    ensures CountSeverities(vs).critical == multiset(SeveritiesOf(vs))[Critical]
    ensures CountSeverities(vs).high == multiset(SeveritiesOf(vs))[High]
    ensures CountSeverities(vs).medium == multiset(SeveritiesOf(vs))[Medium]
    ensures CountSeverities(vs).low == multiset(SeveritiesOf(vs))[Low]
    decreases |vs|
  {
    if vs != [] {
      var p := vs[..|vs| - 1];
      CountSeveritiesCountsEach(p);
      assert SeveritiesOf(vs) == SeveritiesOf(p) + [vs[|vs| - 1].severity];
      TallyCounts(CountSeverities(p), vs[|vs| - 1].severity, multiset(SeveritiesOf(p)));
    }
  }

  lemma {:induction false} CountSeveritiesBound(vs: seq<Vulnerability>)
    ensures CountSeverities(vs).Total() <= |vs|
    decreases |vs|
  {
    if vs != [] {
      CountSeveritiesBound(vs[..|vs| - 1]);
    }
  }

  /** The number of vulnerabilities whose severity is none of the four. */
  function CountUnknown(vs: seq<Vulnerability>): nat
    decreases |vs|
  {
    if vs == [] then 0
    else CountUnknown(vs[..|vs| - 1]) + if vs[|vs| - 1].severity.IsKnown() then 0 else 1
  }

  lemma {:induction false} CountSeveritiesSplit(vs: seq<Vulnerability>)
    ensures CountSeverities(vs).Total() + CountUnknown(vs) == |vs|
    decreases |vs|
  {
    if vs != [] {
      CountSeveritiesSplit(vs[..|vs| - 1]);
    }
  }

  lemma {:induction false} CountUnknownZero(vs: seq<Vulnerability>)
    ensures CountUnknown(vs) == 0 <==> forall i :: 0 <= i < |vs| ==> vs[i].severity.IsKnown()
    decreases |vs|
  {
    if vs != [] {
      var p := vs[..|vs| - 1];
      CountUnknownZero(p);
      assert forall i :: 0 <= i < |p| ==> p[i] == vs[i];
    }
  }

  /**
   * Unknown severities are counted nowhere: the total never exceeds the
   * number of vulnerabilities, and reaches it exactly when every severity
   * is one of the four.
   */
  lemma CountSeveritiesTotal(vs: seq<Vulnerability>)
    ensures CountSeverities(vs).Total() <= |vs|
    ensures CountSeverities(vs).Total() == |vs| <==> forall i :: 0 <= i < |vs| ==> vs[i].severity.IsKnown()
  {
    CountSeveritiesSplit(vs);
    CountUnknownZero(vs);
  }

  // ---------------------------------------------------------------------------
  // The report and its flat views
  // ---------------------------------------------------------------------------

  /** A report over one management zone and one time window (epoch milliseconds). */
  datatype ReportData = ReportData(
    managementZone: string,
    startTime: int,
    endTime: int,
    generatedAt: int,
    vulnerabilities: seq<Vulnerability>)

  /** `overall_severity_stats`: one pass over the list, bumping one counter per known severity. */
  method OverallSeverityStats(report: ReportData) returns (stats: SeverityStats)
    ensures stats == CountSeverities(report.vulnerabilities)
  {
    var vs := report.vulnerabilities;
    stats := NoSeverities;
    for i := 0 to |vs|
      invariant stats == CountSeverities(vs[..i])
    {
      assert vs[..i + 1] == vs[..i] + [vs[i]];
      CountSeveritiesAppend(vs[..i], vs[i]);
      var s := vs[i].severity;
      if s == Critical {
        stats := stats.(critical := stats.critical + 1);
      } else if s == High {
        stats := stats.(high := stats.high + 1);
      } else if s == Medium {
        stats := stats.(medium := stats.medium + 1);
      } else if s == Low {
        stats := stats.(low := stats.low + 1);
      }
    }
    assert vs[..|vs|] == vs;
  }

  /** The vulnerabilities first seen at or after `start`, in list order. */
  function NewSince(vs: seq<Vulnerability>, start: int): (r: seq<Vulnerability>)
    ensures |r| <= |vs|
    ensures forall v :: v in r <==> v in vs && v.firstSeenTimestamp >= start
    decreases |vs|
  {
    if vs == [] then []
    else
      assert vs == [vs[0]] + vs[1..];
      (if vs[0].firstSeenTimestamp >= start then [vs[0]] else []) + NewSince(vs[1..], start)
  }

  /** `new_vulnerabilities`: those first seen at or after the start of the window. */
  function NewVulnerabilities(report: ReportData): (r: seq<Vulnerability>)
    ensures |r| <= |report.vulnerabilities|
    ensures forall v :: v in r <==> v in report.vulnerabilities && v.firstSeenTimestamp >= report.startTime
  {
    NewSince(report.vulnerabilities, report.startTime)
  }

  /** The filter keeps every occurrence of a new vulnerability and no occurrence of an old one. */
  lemma {:induction false} NewSinceMultiplicity(vs: seq<Vulnerability>, start: int, v: Vulnerability)
    ensures multiset(NewSince(vs, start))[v] == if v.firstSeenTimestamp >= start then multiset(vs)[v] else 0
    decreases |vs|
  {
    if vs != [] {
      NewSinceMultiplicity(vs[1..], start, v);
      assert vs == [vs[0]] + vs[1..];
    }
  }

  /**
   * Moving the window start later only filters the earlier result further:
   * nothing is added, the order is kept, and the list cannot grow.
   */
  lemma {:induction false} NewSinceAntitone(vs: seq<Vulnerability>, earlier: int, later: int)
    requires earlier <= later
    ensures NewSince(vs, later) == NewSince(NewSince(vs, earlier), later)
    ensures |NewSince(vs, later)| <= |NewSince(vs, earlier)|
    decreases |vs|
  {
    if vs != [] {
      NewSinceAntitone(vs[1..], earlier, later);
      var rest := NewSince(vs[1..], earlier);
      if vs[0].firstSeenTimestamp >= earlier {
        assert NewSince(vs, earlier) == [vs[0]] + rest;
        assert ([vs[0]] + rest)[0] == vs[0];
        assert ([vs[0]] + rest)[1..] == rest;
      } else {
        assert NewSince(vs, earlier) == rest;
        assert NewSince(vs, later) == NewSince(vs[1..], later);
      }
    }
  }

  /** The worked example: a critical finding from before the window and a high one inside it. */
  lemma ExampleWindow(t0: int)
    ensures var day := 86_400_000;
            var before := Vulnerability(Critical, t0 - day, [], []);
            var inside := Vulnerability(High, t0 + day, [], []);
            var report := ReportData("zone", t0, t0 + 7 * day, t0, [before, inside]);
            CountSeverities(report.vulnerabilities) == SeverityStats(1, 1, 0, 0)
            && NewVulnerabilities(report) == [inside]
  {
    var day := 86_400_000;
    var before := Vulnerability(Critical, t0 - day, [], []);
    var inside := Vulnerability(High, t0 + day, [], []);
    assert [before, inside][..1] == [before];
    assert [before][..0] == [];
    assert CountSeverities([before]) == SeverityStats(1, 0, 0, 0);
    assert [before, inside][1..] == [inside];
    assert [inside][1..] == [];
  }

  // ---------------------------------------------------------------------------
  // Buckets per process group and per host
  // ---------------------------------------------------------------------------

  /** Which of a vulnerability's ID lists a grouping follows. */
  datatype Dimension = ByProcessGroup | ByHost

  function KeysOf(v: Vulnerability, d: Dimension): seq<string> {
    match d
    case ByProcessGroup => v.processGroups
    case ByHost => v.hosts
  }

  /**
   * ProcessGroupAggregation and HostAggregation: the entity ID, its display
   * name, the severity statistics and the vulnerabilities of one bucket.
   */
  datatype Aggregation = Aggregation(
    id: string,
    name: string,
    severityStats: SeverityStats,
    vulnerabilities: seq<Vulnerability>)
  {
    function TotalVulnerabilities(): nat {
      |vulnerabilities|
    }
  }

  /** One (vulnerability, entity ID) pair, as visited by the nested loops. */
  datatype Occurrence = Occurrence(vuln: Vulnerability, key: string)

  function OccurrencesOf(v: Vulnerability, keys: seq<string>): seq<Occurrence> {
    seq(|keys|, n requires 0 <= n < |keys| => Occurrence(v, keys[n]))
  }

  /** Every (vulnerability, ID) pair of the list, in visiting order. */
  function Occurrences(vs: seq<Vulnerability>, d: Dimension): seq<Occurrence>
    decreases |vs|
  {
    if vs == [] then []
    else Occurrences(vs[..|vs| - 1], d) + OccurrencesOf(vs[|vs| - 1], KeysOf(vs[|vs| - 1], d))
  }

  /** Every ID of every vulnerability, in order: the concatenation of the ID lists. */
  function AllKeys(vs: seq<Vulnerability>, d: Dimension): seq<string>
    decreases |vs|
  {
    if vs == [] then [] else AllKeys(vs[..|vs| - 1], d) + KeysOf(vs[|vs| - 1], d)
  }

  function KeysIn(os: seq<Occurrence>): seq<string>
    decreases |os|
  {
    if os == [] then [] else KeysIn(os[..|os| - 1]) + [os[|os| - 1].key]
  }

  /** The distinct IDs in order of first encounter: the key order of the bucket map. */
  function FirstSeenKeys(os: seq<Occurrence>): seq<string>
    decreases |os|
  {
    if os == [] then []
    else
      var ks := FirstSeenKeys(os[..|os| - 1]);
      if os[|os| - 1].key in ks then ks else ks + [os[|os| - 1].key]
  }

  /** The vulnerabilities appended to bucket `k`, one per occurrence of `k`. */
  function Members(os: seq<Occurrence>, k: string): seq<Vulnerability>
    decreases |os|
  {
    if os == [] then []
    else Members(os[..|os| - 1], k) + if os[|os| - 1].key == k then [os[|os| - 1].vuln] else []
  }

  /** The bucket the loops leave for ID `k`: named after its ID, stats of its own members. */
  function BucketFor(os: seq<Occurrence>, k: string): Aggregation {
    var m := Members(os, k);
    Aggregation(k, k, CountSeverities(m), m)
  }

  function BucketsFor(os: seq<Occurrence>, ids: seq<string>): seq<Aggregation> {
    seq(|ids|, n requires 0 <= n < |ids| => BucketFor(os, ids[n]))
  }

  /** The values of the bucket map in insertion order, before sorting. */
  function InsertionOrderBuckets(vs: seq<Vulnerability>, d: Dimension): seq<Aggregation> {
    var os := Occurrences(vs, d);
    BucketsFor(os, FirstSeenKeys(os))
  }

  /** What either aggregation returns: the buckets, stably sorted by size, largest first. */
  function Aggregated(vs: seq<Vulnerability>, d: Dimension): seq<Aggregation> {
    SortByTotalDesc(InsertionOrderBuckets(vs, d))
  }

  // ---------------------------------------------------------------------------
  // The stable descending sort (`sorted(..., key=total_vulnerabilities, reverse=True)`)
  // ---------------------------------------------------------------------------

  predicate NonIncreasing(bs: seq<Aggregation>) {
    forall i, j :: 0 <= i < j < |bs| ==> bs[i].TotalVulnerabilities() >= bs[j].TotalVulnerabilities()
  }

  /** Places `b` before the first bucket that is not larger than it. */
  function InsertByTotal(b: Aggregation, bs: seq<Aggregation>): (r: seq<Aggregation>)
    ensures multiset(r) == multiset(bs) + multiset{b}
    ensures |r| == |bs| + 1
    ensures r[0] == b || (bs != [] && r[0] == bs[0])
    decreases |bs|
  {
    if bs == [] || b.TotalVulnerabilities() >= bs[0].TotalVulnerabilities() then [b] + bs
    else
      assert bs == [bs[0]] + bs[1..];
      [bs[0]] + InsertByTotal(b, bs[1..])
  }

  /** A bucket at least as large as the head of an ordered list can go in front of it. */
  lemma PrependOrdered(x: Aggregation, bs: seq<Aggregation>)
    requires NonIncreasing(bs)
    requires bs != [] ==> x.TotalVulnerabilities() >= bs[0].TotalVulnerabilities()
    ensures NonIncreasing([x] + bs)
  {
    var r := [x] + bs;
    forall i, j | 0 <= i < j < |r|
      ensures r[i].TotalVulnerabilities() >= r[j].TotalVulnerabilities()
    {
      assert r[j] == bs[j - 1];
      if i > 0 {
        assert r[i] == bs[i - 1];
      } else {
        assert bs[0].TotalVulnerabilities() >= bs[j - 1].TotalVulnerabilities();
      }
    }
  }

  lemma {:induction false} InsertByTotalOrdered(b: Aggregation, bs: seq<Aggregation>)
    requires NonIncreasing(bs)
    ensures NonIncreasing(InsertByTotal(b, bs))
    decreases |bs|
  {
    if bs == [] || b.TotalVulnerabilities() >= bs[0].TotalVulnerabilities() {
      PrependOrdered(b, bs);
    } else {
      var t := InsertByTotal(b, bs[1..]);
      InsertByTotalOrdered(b, bs[1..]);
      assert bs[0].TotalVulnerabilities() >= t[0].TotalVulnerabilities();
      PrependOrdered(bs[0], t);
    }
  }

  /** Insertion sort by descending size; among equal sizes, the earlier bucket stays first. */
  function SortByTotalDesc(bs: seq<Aggregation>): (r: seq<Aggregation>)
    ensures multiset(r) == multiset(bs)
    ensures NonIncreasing(r)
    decreases |bs|
  {
    if bs == [] then []
    else
      var t := SortByTotalDesc(bs[1..]);
      InsertByTotalOrdered(bs[0], t);
      assert multiset(bs) == multiset(bs[1..]) + multiset{bs[0]} by {
        assert bs == [bs[0]] + bs[1..];
      }
      InsertByTotal(bs[0], t)
  }

  /** The buckets of size `t`, in order. */
  function WithTotal(bs: seq<Aggregation>, t: nat): seq<Aggregation>
    decreases |bs|
  {
    if bs == [] then []
    else (if bs[0].TotalVulnerabilities() == t then [bs[0]] else []) + WithTotal(bs[1..], t)
  }

  lemma {:induction false} InsertByTotalStable(b: Aggregation, bs: seq<Aggregation>, t: nat)
    ensures WithTotal(InsertByTotal(b, bs), t) == WithTotal([b], t) + WithTotal(bs, t)
    decreases |bs|
  {
    if bs == [] || b.TotalVulnerabilities() >= bs[0].TotalVulnerabilities() {
      assert ([b] + bs)[1..] == bs;
    } else {
      var r := InsertByTotal(b, bs[1..]);
      InsertByTotalStable(b, bs[1..], t);
      assert ([bs[0]] + r)[1..] == r;
    }
  }

  /**
   * Stability: restricted to any one size, the sorted list is the input list,
   * so buckets of equal size keep their first-encounter order.
   */
  lemma {:induction false} SortByTotalDescStable(bs: seq<Aggregation>, t: nat)
    ensures WithTotal(SortByTotalDesc(bs), t) == WithTotal(bs, t)
    decreases |bs|
  {
    if bs != [] {
      SortByTotalDescStable(bs[1..], t);
      InsertByTotalStable(bs[0], SortByTotalDesc(bs[1..]), t);
    }
  }

  function SumTotals(bs: seq<Aggregation>): nat
    decreases |bs|
  {
    if bs == [] then 0 else bs[0].TotalVulnerabilities() + SumTotals(bs[1..])
  }

  lemma {:induction false} InsertByTotalSum(b: Aggregation, bs: seq<Aggregation>)
    ensures SumTotals(InsertByTotal(b, bs)) == b.TotalVulnerabilities() + SumTotals(bs)
    decreases |bs|
  {
    if bs == [] || b.TotalVulnerabilities() >= bs[0].TotalVulnerabilities() {
      assert ([b] + bs)[1..] == bs;
    } else {
      var r := InsertByTotal(b, bs[1..]);
      InsertByTotalSum(b, bs[1..]);
      assert ([bs[0]] + r)[1..] == r;
    }
  }

  lemma {:induction false} SortByTotalDescSum(bs: seq<Aggregation>)
    ensures SumTotals(SortByTotalDesc(bs)) == SumTotals(bs)
    decreases |bs|
  {
    if bs != [] {
      SortByTotalDescSum(bs[1..]);
      InsertByTotalSum(bs[0], SortByTotalDesc(bs[1..]));
    }
  }

  function IdsOf(bs: seq<Aggregation>): seq<string>
    decreases |bs|
  {
    if bs == [] then [] else [bs[0].id] + IdsOf(bs[1..])
  }

  predicate Distinct<T(==)>(s: seq<T>) {
    forall i, j :: 0 <= i < j < |s| ==> s[i] != s[j]
  }

  lemma IdsOfCons(b: Aggregation, bs: seq<Aggregation>)
    ensures IdsOf([b] + bs) == [b.id] + IdsOf(bs)
  {
    assert ([b] + bs)[1..] == bs;
  }

  lemma DistinctCons<T>(x: T, s: seq<T>)
    requires Distinct(s) && x !in s
    ensures Distinct([x] + s)
  {
    var r := [x] + s;
    forall i, j | 0 <= i < j < |r|
      ensures r[i] != r[j]
    {
      assert r[j] == s[j - 1];
      if i > 0 {
        assert r[i] == s[i - 1];
      }
    }
  }

  lemma DistinctTail<T>(s: seq<T>)
    requires s != [] && Distinct(s)
    ensures Distinct(s[1..]) && s[0] !in s[1..]
  {
    forall i, j | 0 <= i < j < |s[1..]|
      ensures s[1..][i] != s[1..][j]
    {
      assert s[1..][i] == s[i + 1] && s[1..][j] == s[j + 1];
    }
  }

  lemma {:induction false} InsertByTotalIds(b: Aggregation, bs: seq<Aggregation>)
    ensures forall k :: k in IdsOf(InsertByTotal(b, bs)) <==> k == b.id || k in IdsOf(bs)
    ensures Distinct(IdsOf(bs)) && b.id !in IdsOf(bs) ==> Distinct(IdsOf(InsertByTotal(b, bs)))
    decreases |bs|
  {
    if bs == [] || b.TotalVulnerabilities() >= bs[0].TotalVulnerabilities() {
      IdsOfCons(b, bs);
      if Distinct(IdsOf(bs)) && b.id !in IdsOf(bs) {
        DistinctCons(b.id, IdsOf(bs));
      }
    } else {
      var t := InsertByTotal(b, bs[1..]);
      InsertByTotalIds(b, bs[1..]);
      IdsOfCons(bs[0], t);
      IdsOfCons(bs[0], bs[1..]);
      assert bs == [bs[0]] + bs[1..];
      if Distinct(IdsOf(bs)) && b.id !in IdsOf(bs) {
        DistinctTail(IdsOf(bs));
        assert IdsOf(bs)[1..] == IdsOf(bs[1..]);
        DistinctCons(bs[0].id, IdsOf(t));
      }
    }
  }

  /** Sorting neither adds nor drops an ID, and keeps distinct IDs distinct. */
  lemma {:induction false} SortByTotalDescIds(bs: seq<Aggregation>)
    ensures forall k :: k in IdsOf(SortByTotalDesc(bs)) <==> k in IdsOf(bs)
    ensures Distinct(IdsOf(bs)) ==> Distinct(IdsOf(SortByTotalDesc(bs)))
    decreases |bs|
  {
    if bs != [] {
      var t := SortByTotalDesc(bs[1..]);
      SortByTotalDescIds(bs[1..]);
      InsertByTotalIds(bs[0], t);
      IdsOfCons(bs[0], bs[1..]);
      assert bs == [bs[0]] + bs[1..];
      if Distinct(IdsOf(bs)) {
        DistinctTail(IdsOf(bs));
        assert IdsOf(bs)[1..] == IdsOf(bs[1..]);
      }
    }
  }

  // ---------------------------------------------------------------------------
  // Facts about the visiting order
  // ---------------------------------------------------------------------------

  lemma {:induction false} KeysInConcat(a: seq<Occurrence>, b: seq<Occurrence>)
    ensures KeysIn(a + b) == KeysIn(a) + KeysIn(b)
    decreases |b|
  {
    if b == [] {
      assert a + b == a;
    } else {
      var p := b[..|b| - 1];
      KeysInConcat(a, p);
      assert (a + b)[..|a + b| - 1] == a + p;
    }
  }

  lemma {:induction false} MembersConcat(a: seq<Occurrence>, b: seq<Occurrence>, k: string)
    ensures Members(a + b, k) == Members(a, k) + Members(b, k)
    decreases |b|
  {
    if b == [] {
      assert a + b == a;
    } else {
      var p := b[..|b| - 1];
      MembersConcat(a, p, k);
      assert (a + b)[..|a + b| - 1] == a + p;
      assert (a + b)[|a + b| - 1] == b[|b| - 1];
    }
  }

  lemma {:induction false} OccurrencesOfKeys(v: Vulnerability, keys: seq<string>)
    ensures KeysIn(OccurrencesOf(v, keys)) == keys
    decreases |keys|
  {
    if keys != [] {
      var p := keys[..|keys| - 1];
      OccurrencesOfKeys(v, p);
      assert OccurrencesOf(v, keys)[..|keys| - 1] == OccurrencesOf(v, p);
    }
  }

  function Repeat(v: Vulnerability, n: nat): seq<Vulnerability> {
    seq(n, _ => v)
  }

  lemma {:induction false} OccurrencesOfMembers(v: Vulnerability, keys: seq<string>, k: string)
    ensures Members(OccurrencesOf(v, keys), k) == Repeat(v, multiset(keys)[k])
    decreases |keys|
  {
    if keys != [] {
      var p := keys[..|keys| - 1];
      OccurrencesOfMembers(v, p, k);
      assert OccurrencesOf(v, keys)[..|keys| - 1] == OccurrencesOf(v, p);
      assert keys == p + [keys[|keys| - 1]];
      if keys[|keys| - 1] == k {
        assert Repeat(v, multiset(p)[k]) + [v] == Repeat(v, multiset(p)[k] + 1);
      }
    }
  }

  /** The pairs visited carry exactly the concatenated ID lists. */
  lemma {:induction false} OccurrenceKeys(vs: seq<Vulnerability>, d: Dimension)
    ensures KeysIn(Occurrences(vs, d)) == AllKeys(vs, d)
    ensures |Occurrences(vs, d)| == |AllKeys(vs, d)|
    decreases |vs|
  {
    if vs != [] {
      var p := vs[..|vs| - 1];
      var last := vs[|vs| - 1];
      OccurrenceKeys(p, d);
      KeysInConcat(Occurrences(p, d), OccurrencesOf(last, KeysOf(last, d)));
      OccurrencesOfKeys(last, KeysOf(last, d));
    }
    KeysInLength(Occurrences(vs, d));
  }

  lemma {:induction false} KeysInLength(os: seq<Occurrence>)
    ensures |KeysIn(os)| == |os|
    decreases |os|
  {
    if os != [] {
      KeysInLength(os[..|os| - 1]);
    }
  }

  lemma {:induction false} FirstSeenKeysSpec(os: seq<Occurrence>)
    ensures Distinct(FirstSeenKeys(os))
    ensures forall k :: k in FirstSeenKeys(os) <==> k in KeysIn(os)
    decreases |os|
  {
    if os != [] {
      FirstSeenKeysSpec(os[..|os| - 1]);
    }
  }

  lemma {:induction false} MembersOfUnseenKey(os: seq<Occurrence>, k: string)
    requires k !in KeysIn(os)
    ensures Members(os, k) == []
    decreases |os|
  {
    if os != [] {
      MembersOfUnseenKey(os[..|os| - 1], k);
    }
  }

  /** What visiting one more pair does to the key order and to the buckets. */
  lemma MembersAppend(os: seq<Occurrence>, o: Occurrence, k: string)
    ensures Members(os + [o], k) == Members(os, k) + if o.key == k then [o.vuln] else []
  {
    assert (os + [o])[..|os|] == os;
  }

  lemma AppendOccurrence(os: seq<Occurrence>, o: Occurrence)
    ensures FirstSeenKeys(os + [o]) == if o.key in FirstSeenKeys(os) then FirstSeenKeys(os) else FirstSeenKeys(os) + [o.key]
    ensures KeysIn(os + [o]) == KeysIn(os) + [o.key]
    ensures forall k :: Members(os + [o], k) == Members(os, k) + if o.key == k then [o.vuln] else []
  {
    assert (os + [o])[..|os|] == os;
  }

  // ---------------------------------------------------------------------------
  // The aggregation loop
  // ---------------------------------------------------------------------------

  /** The bucket map and its key order agree with the pairs visited so far. */
  ghost predicate BucketsAgree(buckets: map<string, Aggregation>, order: seq<string>, os: seq<Occurrence>) {
    && order == FirstSeenKeys(os)
    && (forall k :: k in buckets <==> k in order)
    && (forall k :: k in buckets ==> buckets[k] == BucketFor(os, k))
  }

  /** Visiting one more pair: insert the bucket if missing, append, tally. */
  lemma VisitKeepsAgreement(buckets: map<string, Aggregation>, order: seq<string>, os: seq<Occurrence>, v: Vulnerability, k: string)
    requires BucketsAgree(buckets, order, os)
    ensures var withBucket := if k in buckets then buckets else buckets[k := Aggregation(k, k, NoSeverities, [])];
            var b := withBucket[k];
            BucketsAgree(withBucket[k := b.(vulnerabilities := b.vulnerabilities + [v],
                                        severityStats := Tally(b.severityStats, v.severity))],
                         if k in buckets then order else order + [k],
                         os + [Occurrence(v, k)])
  {
    var o := Occurrence(v, k);
    var after := os + [o];
    AppendOccurrence(os, o);
    FirstSeenKeysSpec(os);
    var withBucket := if k in buckets then buckets else buckets[k := Aggregation(k, k, NoSeverities, [])];
    var b := withBucket[k];
    if k !in buckets {
      MembersOfUnseenKey(os, k);
    }
    assert b == BucketFor(os, k);
    CountSeveritiesAppend(b.vulnerabilities, v);
    var updated := b.(vulnerabilities := b.vulnerabilities + [v], severityStats := Tally(b.severityStats, v.severity));
    assert updated == BucketFor(after, k);
    var buckets' := withBucket[k := updated];
    var order' := if k in buckets then order else order + [k];
    assert order' == FirstSeenKeys(after);
    forall key | key in buckets'
      ensures buckets'[key] == BucketFor(after, key)
    {
      if key != k {
        assert Members(after, key) == Members(os, key);
      }
    }
  }

  lemma OccurrencesStep(vs: seq<Vulnerability>, i: nat, d: Dimension)
    requires i < |vs|
    ensures Occurrences(vs[..i + 1], d) == Occurrences(vs[..i], d) + OccurrencesOf(vs[i], KeysOf(vs[i], d))
  {
    assert vs[..i + 1][..i] == vs[..i];
  }

  lemma OccurrencesOfStep(done: seq<Occurrence>, v: Vulnerability, keys: seq<string>, j: nat)
    requires j < |keys|
    ensures done + OccurrencesOf(v, keys[..j + 1]) == (done + OccurrencesOf(v, keys[..j])) + [Occurrence(v, keys[j])]
  {
    assert OccurrencesOf(v, keys[..j + 1]) == OccurrencesOf(v, keys[..j]) + [Occurrence(v, keys[j])];
  }

  /** `buckets.values()`: the buckets in the insertion order of their keys. */
  function ValuesInOrder(buckets: map<string, Aggregation>, order: seq<string>): seq<Aggregation>
    requires forall k :: k in order ==> k in buckets
  {
    seq(|order|, n requires 0 <= n < |order| => buckets[order[n]])
  }

  lemma ValuesInOrderAgree(buckets: map<string, Aggregation>, order: seq<string>, os: seq<Occurrence>)
    requires BucketsAgree(buckets, order, os)
    ensures ValuesInOrder(buckets, order) == BucketsFor(os, FirstSeenKeys(os))
  {
  }

  /**
   * The loop shared by both aggregations: for each vulnerability and each of
   * its IDs, insert the bucket if it is missing, append the vulnerability and
   * tally its severity; then sort the buckets by size, largest first.
   */
  method Aggregate(vs: seq<Vulnerability>, d: Dimension) returns (result: seq<Aggregation>)
    ensures result == Aggregated(vs, d)
  {
    var buckets: map<string, Aggregation> := map[];
    var order: seq<string> := [];
    for i := 0 to |vs|
      invariant BucketsAgree(buckets, order, Occurrences(vs[..i], d))
    {
      var v := vs[i];
      var keys := KeysOf(v, d);
      ghost var done := Occurrences(vs[..i], d);
      assert done + OccurrencesOf(v, keys[..0]) == done;
      for j := 0 to |keys|
        invariant BucketsAgree(buckets, order, done + OccurrencesOf(v, keys[..j]))
      {
        var k := keys[j];
        ghost var os := done + OccurrencesOf(v, keys[..j]);
        OccurrencesOfStep(done, v, keys, j);
        VisitKeepsAgreement(buckets, order, os, v, k);
        if k !in buckets {
          buckets := buckets[k := Aggregation(k, k, NoSeverities, [])];
          order := order + [k];
        }
        var b := buckets[k];
        buckets := buckets[k := b.(vulnerabilities := b.vulnerabilities + [v],
                                   severityStats := Tally(b.severityStats, v.severity))];
      }
      assert keys[..|keys|] == keys;
      OccurrencesStep(vs, i, d);
    }
    assert vs[..|vs|] == vs;
    ValuesInOrderAgree(buckets, order, Occurrences(vs, d));
    result := SortByTotalDesc(ValuesInOrder(buckets, order));
  }

  /** `process_group_aggregations`. */
  method ProcessGroupAggregations(report: ReportData) returns (result: seq<Aggregation>)
    ensures result == Aggregated(report.vulnerabilities, ByProcessGroup)
  {
    result := Aggregate(report.vulnerabilities, ByProcessGroup);
  }

  /** `host_aggregations`. */
  method HostAggregations(report: ReportData) returns (result: seq<Aggregation>)
    ensures result == Aggregated(report.vulnerabilities, ByHost)
  {
    result := Aggregate(report.vulnerabilities, ByHost);
  }

  // ---------------------------------------------------------------------------
  // What the aggregations promise
  // ---------------------------------------------------------------------------

  lemma BucketsForTail(os: seq<Occurrence>, ids: seq<string>)
    requires ids != []
    ensures BucketsFor(os, ids) == [BucketFor(os, ids[0])] + BucketsFor(os, ids[1..])
  {
  }

  lemma {:induction false} BucketsForIds(os: seq<Occurrence>, ids: seq<string>)
    ensures IdsOf(BucketsFor(os, ids)) == ids
    decreases |ids|
  {
    if ids != [] {
      BucketsForTail(os, ids);
      BucketsForIds(os, ids[1..]);
      IdsOfCons(BucketFor(os, ids[0]), BucketsFor(os, ids[1..]));
    }
  }

  /** A bucket as the loops leave it. */
  ghost predicate WellFormedBucket(os: seq<Occurrence>, b: Aggregation) {
    && b.name == b.id
    && b.vulnerabilities == Members(os, b.id)
    && b.severityStats == CountSeverities(b.vulnerabilities)
  }

  /**
   * Bucket IDs are pairwise distinct and are exactly the IDs that occur in
   * some vulnerability's list.
   */
  lemma AggregatedIds(vs: seq<Vulnerability>, d: Dimension)
    ensures Distinct(IdsOf(Aggregated(vs, d)))
    ensures forall k :: k in IdsOf(Aggregated(vs, d)) <==> k in AllKeys(vs, d)
  {
    var os := Occurrences(vs, d);
    var u := InsertionOrderBuckets(vs, d);
    BucketsForIds(os, FirstSeenKeys(os));
    FirstSeenKeysSpec(os);
    OccurrenceKeys(vs, d);
    SortByTotalDescIds(u);
  }

  /**
   * Every returned bucket is named after its ID, holds the vulnerabilities
   * that list that ID (once per listing), and its statistics are those of its
   * own list, so they never exceed its size.
   */
  lemma AggregatedBuckets(vs: seq<Vulnerability>, d: Dimension)
    ensures forall b :: b in Aggregated(vs, d) ==>
              && WellFormedBucket(Occurrences(vs, d), b)
              && b.vulnerabilities != []
              && b.severityStats.Total() <= b.TotalVulnerabilities()
  {
    var os := Occurrences(vs, d);
    var ids := FirstSeenKeys(os);
    var u := BucketsFor(os, ids);
    var r := Aggregated(vs, d);
    assert multiset(r) == multiset(u);
    FirstSeenKeysSpec(os);
    forall b | b in r
      ensures WellFormedBucket(os, b) && b.vulnerabilities != [] && b.severityStats.Total() <= b.TotalVulnerabilities()
    {
      assert b in multiset(u);
      var n :| 0 <= n < |u| && u[n] == b;
      var k := ids[n];
      assert b == BucketFor(os, k);
      assert k in KeysIn(os);
      MembersNonEmpty(os, k);
      CountSeveritiesBound(b.vulnerabilities);
    }
  }

  lemma {:induction false} MembersNonEmpty(os: seq<Occurrence>, k: string)
    requires k in KeysIn(os)
    ensures Members(os, k) != []
    decreases |os|
  {
    var p := os[..|os| - 1];
    if os[|os| - 1].key != k {
      MembersNonEmpty(p, k);
    }
  }

  /** The vulnerabilities of a bucket, spelled per vulnerability: each repeated once per listing of the ID. */
  function PerListing(vs: seq<Vulnerability>, d: Dimension, k: string): seq<Vulnerability>
    decreases |vs|
  {
    if vs == [] then []
    else PerListing(vs[..|vs| - 1], d, k) + Repeat(vs[|vs| - 1], multiset(KeysOf(vs[|vs| - 1], d))[k])
  }

  /** A bucket's list is the in-order list of vulnerabilities naming its ID, once per naming. */
  lemma {:induction false} MembersPerListing(vs: seq<Vulnerability>, d: Dimension, k: string)
    ensures Members(Occurrences(vs, d), k) == PerListing(vs, d, k)
    decreases |vs|
  {
    if vs != [] {
      var p := vs[..|vs| - 1];
      var last := vs[|vs| - 1];
      MembersPerListing(p, d, k);
      MembersConcat(Occurrences(p, d), OccurrencesOf(last, KeysOf(last, d)), k);
      OccurrencesOfMembers(last, KeysOf(last, d), k);
    }
  }

  // Sizes: the bucket sizes add up to the number of ID listings.

  lemma {:induction false} BucketsForEmpty(ids: seq<string>)
    ensures SumTotals(BucketsFor([], ids)) == 0
    decreases |ids|
  {
    if ids != [] {
      BucketsForTail([], ids);
      BucketsForEmpty(ids[1..]);
    }
  }

  lemma {:induction false} BucketsForAppend(os: seq<Occurrence>, o: Occurrence, ids: seq<string>)
    requires Distinct(ids)
    ensures SumTotals(BucketsFor(os + [o], ids)) == SumTotals(BucketsFor(os, ids)) + if o.key in ids then 1 else 0
    decreases |ids|
  {
    if ids != [] {
      BucketsForTail(os + [o], ids);
      BucketsForTail(os, ids);
      BucketsForAppend(os, o, ids[1..]);
      MembersAppend(os, o, ids[0]);
      assert ids == [ids[0]] + ids[1..];
    }
  }

  lemma {:induction false} BucketsForCover(os: seq<Occurrence>, ids: seq<string>)
    requires Distinct(ids)
    requires forall k :: k in KeysIn(os) ==> k in ids
    ensures SumTotals(BucketsFor(os, ids)) == |os|
    decreases |os|
  {
    if os == [] {
      BucketsForEmpty(ids);
    } else {
      var p := os[..|os| - 1];
      var last := os[|os| - 1];
      assert os == p + [last];
      AppendOccurrence(p, last);
      BucketsForCover(p, ids);
      BucketsForAppend(p, last, ids);
    }
  }

  /** The sizes of all buckets add up to the total length of the vulnerabilities' ID lists. */
  lemma AggregatedTotalsSum(vs: seq<Vulnerability>, d: Dimension)
    ensures SumTotals(Aggregated(vs, d)) == |AllKeys(vs, d)|
  {
    var os := Occurrences(vs, d);
    FirstSeenKeysSpec(os);
    BucketsForCover(os, FirstSeenKeys(os));
    SortByTotalDescSum(InsertionOrderBuckets(vs, d));
    OccurrenceKeys(vs, d);
  }

  /** The number of vulnerabilities that list at least one ID. */
  function CountListing(vs: seq<Vulnerability>, d: Dimension): nat
    decreases |vs|
  {
    if vs == [] then 0
    else CountListing(vs[..|vs| - 1], d) + if KeysOf(vs[|vs| - 1], d) != [] then 1 else 0
  }

  /**
   * The ID listings are at least as many as the vulnerabilities that list an
   * ID, and exactly as many when no vulnerability lists two or more.
   */
  lemma {:induction false} AllKeysCoverListing(vs: seq<Vulnerability>, d: Dimension)
    ensures |AllKeys(vs, d)| >= CountListing(vs, d)
    ensures |AllKeys(vs, d)| == CountListing(vs, d) <==> forall i :: 0 <= i < |vs| ==> |KeysOf(vs[i], d)| <= 1
    decreases |vs|
  {
    if vs != [] {
      var p := vs[..|vs| - 1];
      AllKeysCoverListing(p, d);
      assert forall i :: 0 <= i < |p| ==> p[i] == vs[i];
      if |AllKeys(vs, d)| == CountListing(vs, d) {
        forall i | 0 <= i < |vs|
          ensures |KeysOf(vs[i], d)| <= 1
        {
          if i < |p| {
            assert vs[i] == p[i];
          }
        }
      }
    }
  }

  /**
   * The returned buckets are ordered by size, largest first, hold the same
   * buckets as the map, and among equal sizes keep insertion order.
   */
  lemma AggregatedOrder(vs: seq<Vulnerability>, d: Dimension, t: nat)
    ensures NonIncreasing(Aggregated(vs, d))
    ensures multiset(Aggregated(vs, d)) == multiset(InsertionOrderBuckets(vs, d))
    ensures WithTotal(Aggregated(vs, d), t) == WithTotal(InsertionOrderBuckets(vs, d), t)
  {
    SortByTotalDescStable(InsertionOrderBuckets(vs, d), t);
  }

  /** A vulnerability without hosts is in no host bucket, so the sizes can add up to less than the list. */
  lemma HostTotalsCanFallShort()
    ensures var vs := [Vulnerability(Low, 0, [], ["PROCESS_GROUP-1"])];
            SumTotals(Aggregated(vs, ByHost)) == 0 < |vs|
  {
    var vs := [Vulnerability(Low, 0, [], ["PROCESS_GROUP-1"])];
    AggregatedTotalsSum(vs, ByHost);
    assert vs[..0] == [];
  }
}
