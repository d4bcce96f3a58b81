/**
 * The browser-side metrics derivation (frontend/static/js/api.js): the record
 * received from the backend is enriched with a flattened issue list and
 * aggregate counts, and an audit date is rendered as a relative time.
 */
module Api {
  import opened Wrappers
  import opened Json
  import opened Text

  /**
   * One issue object as the browser sees it. Issues are duck-typed: the
   * fields that tell the three categories apart are optional. Severity stays
   * a plain string (a missing severity behaves like any unknown string);
   * the fields no frontend code reads are kept opaque in `rest`.
   */
  datatype Issue = Issue(
    severity: string,
    errorType: Option<string>,
    element: Option<string>,
    content: Option<string>,
    missingElement: Option<string>,
    location: Option<string>,
    transactionImpact: Option<string>,
    agentConfusion: Option<string>,
    agentImpact: Option<string>,
    rest: map<string, Json>)

  /**
   * The audit record as decoded from the response. A list that is absent
   * (or falsy) is None; `other` holds every remaining key of the object
   * (url, audit_date, enrichment, ...).
   */
  datatype RawAudit = RawAudit(
    technicalFailures: Option<seq<Issue>>,
    contextualErrors: Option<seq<Issue>>,
    competitiveGaps: Option<seq<Issue>>,
    other: map<string, Json>)

  datatype Metrics = Metrics(
    totalIssues: nat,
    criticalCount: nat,
    highCount: nat,
    mediumCount: nat,
    lowCount: nat,
    riskScore: nat,
    technicalCount: nat,
    contextualCount: nat,
    competitiveCount: nat)

  /** `{...data, metrics, allIssues}`: every key of the input, with the two computed keys on top. */
  datatype EnrichedAudit = EnrichedAudit(
    technicalFailures: Option<seq<Issue>>,
    contextualErrors: Option<seq<Issue>>,
    competitiveGaps: Option<seq<Issue>>,
    other: map<string, Json>,
    metrics: Metrics,
    allIssues: seq<Issue>)

  /** The keys the enrichment writes, overriding any input key of the same name. */
  const ComputedKeys: set<string> := {"metrics", "allIssues"}

  /** `list || []` */
  function OrEmpty(list: Option<seq<Issue>>): seq<Issue> {
    if list.Some? then list.value else []
  }

  function Severities(issues: seq<Issue>): (r: seq<string>)
    ensures |r| == |issues|
    ensures forall i :: 0 <= i < |issues| ==> r[i] == issues[i].severity
  {
    seq(|issues|, i requires 0 <= i < |issues| => issues[i].severity)
  }

  predicate IsKnownSeverity(s: string) {
    s == "critical" || s == "high" || s == "medium" || s == "low"
  }

  /** `issues.filter(i => i.severity === level)`, with `===` exact string equality. */
  function WithSeverity(issues: seq<Issue>, level: string): (r: seq<Issue>)
    ensures |r| <= |issues|
    ensures forall i :: 0 <= i < |r| ==> r[i].severity == level
  {
    if issues == [] then []
    else
      var init, last := issues[..|issues| - 1], issues[|issues| - 1];
      WithSeverity(init, level) + (if last.severity == level then [last] else [])
  }

  /**
   * The filtered list holds exactly the issues of that level, each as many
   * times as the input does.
   */
  lemma {:induction false} WithSeverityContents(issues: seq<Issue>, level: string)
    ensures forall x :: multiset(WithSeverity(issues, level))[x]
                        == if x.severity == level then multiset(issues)[x] else 0
    ensures forall x :: x in WithSeverity(issues, level) <==> x in issues && x.severity == level
  {
    if issues != [] {
      var init, last := issues[..|issues| - 1], issues[|issues| - 1];
      assert issues == init + [last];
      WithSeverityContents(init, level);
    }
  }

  /** The length of the filtered list is the multiplicity of `level` among the severities. */
  lemma {:induction false} WithSeverityCountsLevel(issues: seq<Issue>, level: string)
    ensures |WithSeverity(issues, level)| == multiset(Severities(issues))[level]
  {
    if issues != [] {
      var init, last := issues[..|issues| - 1], issues[|issues| - 1];
      assert Severities(issues) == Severities(init) + [last.severity];
      WithSeverityCountsLevel(init, level);
    }
  }

  /** `Math.min(100, 25c + 10h + 5m + 2l)` */
  function RiskScore(critical: nat, high: nat, medium: nat, low: nat): (r: nat)
    ensures r <= 100
    ensures r <= 25 * critical + 10 * high + 5 * medium + 2 * low
    ensures r < 100 ==> r == 25 * critical + 10 * high + 5 * medium + 2 * low
  {
    var raw := critical * 25 + high * 10 + medium * 5 + low * 2;
    if raw < 100 then raw else 100
  }

  /** processAuditData */
  function ProcessAuditData(data: RawAudit): (r: EnrichedAudit)
    ensures r.allIssues == OrEmpty(data.technicalFailures) + OrEmpty(data.contextualErrors)
                           + OrEmpty(data.competitiveGaps)
    ensures r.metrics.technicalCount == |OrEmpty(data.technicalFailures)|
    ensures r.metrics.contextualCount == |OrEmpty(data.contextualErrors)|
    ensures r.metrics.competitiveCount == |OrEmpty(data.competitiveGaps)|
    ensures r.metrics.totalIssues == |r.allIssues|
                                  == r.metrics.technicalCount + r.metrics.contextualCount
                                     + r.metrics.competitiveCount
    ensures r.metrics.criticalCount == multiset(Severities(r.allIssues))["critical"]
    ensures r.metrics.highCount == multiset(Severities(r.allIssues))["high"]
    ensures r.metrics.mediumCount == multiset(Severities(r.allIssues))["medium"]
    ensures r.metrics.lowCount == multiset(Severities(r.allIssues))["low"]
    ensures var m := r.metrics;
            var weighted := 25 * m.criticalCount + 10 * m.highCount + 5 * m.mediumCount + 2 * m.lowCount;
            m.riskScore == (if weighted < 100 then weighted else 100)
    ensures r.technicalFailures == data.technicalFailures
    ensures r.contextualErrors == data.contextualErrors
    ensures r.competitiveGaps == data.competitiveGaps
    ensures r.other.Keys == data.other.Keys - ComputedKeys
    ensures forall k :: k in r.other ==> r.other[k] == data.other[k]
  {
    var allIssues := OrEmpty(data.technicalFailures) + OrEmpty(data.contextualErrors)
                     + OrEmpty(data.competitiveGaps);
    WithSeverityCountsLevel(allIssues, "critical");
    WithSeverityCountsLevel(allIssues, "high");
    WithSeverityCountsLevel(allIssues, "medium");
    WithSeverityCountsLevel(allIssues, "low");
    var criticalCount := |WithSeverity(allIssues, "critical")|;
    var highCount := |WithSeverity(allIssues, "high")|;
    var mediumCount := |WithSeverity(allIssues, "medium")|;
    var lowCount := |WithSeverity(allIssues, "low")|;
    var metrics := Metrics(
      totalIssues := |allIssues|,
      criticalCount := criticalCount,
      highCount := highCount,
      mediumCount := mediumCount,
      lowCount := lowCount,
      riskScore := RiskScore(criticalCount, highCount, mediumCount, lowCount),
      technicalCount := |OrEmpty(data.technicalFailures)|,
      contextualCount := |OrEmpty(data.contextualErrors)|,
      competitiveCount := |OrEmpty(data.competitiveGaps)|);
    EnrichedAudit(data.technicalFailures, data.contextualErrors, data.competitiveGaps,
                  data.other - ComputedKeys, metrics, allIssues)
  }

  /** The severity counts over an issue list, in the order critical, high, medium, low. */
  function SeverityTotal(issues: seq<Issue>): nat {
    |WithSeverity(issues, "critical")| + |WithSeverity(issues, "high")|
    + |WithSeverity(issues, "medium")| + |WithSeverity(issues, "low")|
  }

  lemma WithSeveritySingle(x: Issue, level: string)
    ensures WithSeverity([x], level) == if x.severity == level then [x] else []
  {
    assert [x][..0] == [];
  }

  /** Filtering distributes over concatenation, keeping order. */
  lemma {:induction false} WithSeverityConcat(a: seq<Issue>, b: seq<Issue>, level: string)
    ensures WithSeverity(a + b, level) == WithSeverity(a, level) + WithSeverity(b, level)
    decreases |b|
  {
    if b == [] {
      assert a + b == a;
    } else {
      var init, last := b[..|b| - 1], b[|b| - 1];
      assert (a + b)[..|a + b| - 1] == a + init;
      assert (a + b)[|a + b| - 1] == last;
      WithSeverityConcat(a, init, level);
    }
  }

  /** Dropping the last issue removes exactly its own contribution from one count. */
  lemma WithSeverityLast(issues: seq<Issue>, level: string)
    requires issues != []
    ensures |WithSeverity(issues, level)|
            == |WithSeverity(issues[..|issues| - 1], level)| + (if issues[|issues| - 1].severity == level then 1 else 0)
  {
  }

  /**
   * The four severity counts never exceed the number of issues, and they add
   * up to it exactly when every severity is one of the four known strings.
   */
  lemma {:induction false} SeverityCountsBound(issues: seq<Issue>)
    ensures SeverityTotal(issues) <= |issues|
    ensures SeverityTotal(issues) == |issues|
            <==> forall i :: 0 <= i < |issues| ==> IsKnownSeverity(issues[i].severity)
  {
    if issues != [] {
      var init, last := issues[..|issues| - 1], issues[|issues| - 1];
      SeverityCountsBound(init);
      WithSeverityLast(issues, "critical");
      WithSeverityLast(issues, "high");
      WithSeverityLast(issues, "medium");
      WithSeverityLast(issues, "low");
      assert SeverityTotal(issues) == SeverityTotal(init) + (if IsKnownSeverity(last.severity) then 1 else 0);
      if forall i :: 0 <= i < |issues| ==> IsKnownSeverity(issues[i].severity) {
        assert forall i :: 0 <= i < |init| ==> IsKnownSeverity(init[i].severity) by {
          assert forall i :: 0 <= i < |init| ==> init[i] == issues[i];
        }
      } else {
        var j :| 0 <= j < |issues| && !IsKnownSeverity(issues[j].severity);
        if j < |init| {
          assert init[j] == issues[j];
        }
      }
    }
  }

  /** A record with all three lists absent yields an empty, zero-risk enrichment. */
  lemma NoListsNoIssues(other: map<string, Json>)
    ensures var r := ProcessAuditData(RawAudit(None, None, None, other));
            r.allIssues == [] && r.metrics.totalIssues == 0 && r.metrics.riskScore == 0
            && r.metrics.criticalCount == 0 && r.metrics.technicalCount == 0
  {
  }

  /**
   * Enriching an already enriched record changes nothing, whatever values
   * the record carries under the computed keys (allIssues, metrics) or
   * whether it carries them at all.
   */
  lemma ReprocessIsIdentity(data: RawAudit, computed: map<string, Json>)
    requires computed.Keys <= ComputedKeys
    ensures var e := ProcessAuditData(data);
            ProcessAuditData(RawAudit(e.technicalFailures, e.contextualErrors, e.competitiveGaps, e.other + computed)) == e
  {
    var e := ProcessAuditData(data);
    assert (e.other + computed) - ComputedKeys == e.other;
  }

  /** Extending a list never lowers one of its severity counts. */
  lemma PrefixCountLe(a: seq<Issue>, b: seq<Issue>, level: string)
    requires a <= b
    ensures |WithSeverity(a, level)| <= |WithSeverity(b, level)|
  {
    assert b == a + b[|a|..];
    WithSeverityConcat(a, b[|a|..], level);
  }

  /** A severity count of the flattened list is the sum of the three lists' counts. */
  lemma ThreeListCount(t: seq<Issue>, c: seq<Issue>, g: seq<Issue>, level: string)
    ensures |WithSeverity(t + c + g, level)|
            == |WithSeverity(t, level)| + |WithSeverity(c, level)| + |WithSeverity(g, level)|
  {
    WithSeverityConcat(t + c, g, level);
    WithSeverityConcat(t, c, level);
  }

  /**
   * Adding issues at the end of any of the three lists never lowers the risk
   * score: the weights are non-negative and the clamp is monotone.
   */
  lemma AddingIssuesNeverLowersRisk(data: RawAudit, more: RawAudit)
    requires OrEmpty(data.technicalFailures) <= OrEmpty(more.technicalFailures)
    requires OrEmpty(data.contextualErrors) <= OrEmpty(more.contextualErrors)
    requires OrEmpty(data.competitiveGaps) <= OrEmpty(more.competitiveGaps)
    ensures ProcessAuditData(data).metrics.riskScore <= ProcessAuditData(more).metrics.riskScore
  {
    var t1, c1, g1 := OrEmpty(data.technicalFailures), OrEmpty(data.contextualErrors), OrEmpty(data.competitiveGaps);
    var t2, c2, g2 := OrEmpty(more.technicalFailures), OrEmpty(more.contextualErrors), OrEmpty(more.competitiveGaps);
    var m1, m2 := ProcessAuditData(data).metrics, ProcessAuditData(more).metrics;
    forall level | level in {"critical", "high", "medium", "low"}
      ensures |WithSeverity(t1 + c1 + g1, level)| <= |WithSeverity(t2 + c2 + g2, level)|
    {
      ThreeListCount(t1, c1, g1, level);
      ThreeListCount(t2, c2, g2, level);
      PrefixCountLe(t1, t2, level);
      PrefixCountLe(c1, c2, level);
      PrefixCountLe(g1, g2, level);
    }
    assert m1.criticalCount <= m2.criticalCount && m1.highCount <= m2.highCount;
    assert m1.mediumCount <= m2.mediumCount && m1.lowCount <= m2.lowCount;
  }

  /** The four severity strings are distinct. */
  lemma SeverityLevelsDistinct()
    ensures "critical" != "high" && "critical" != "medium" && "critical" != "low"
    ensures "high" != "medium" && "high" != "low" && "medium" != "low"
  {
  }

  /** Appending one issue adds one to the count of its own severity only. */
  lemma SeverityCountSnoc(issues: seq<Issue>, x: Issue, level: string)
    ensures multiset(Severities(issues + [x]))[level]
            == multiset(Severities(issues))[level] + (if x.severity == level then 1 else 0)
  {
    assert Severities(issues + [x]) == Severities(issues) + [x.severity];
  }

  /** The count of a level among four issues, one by one. */
  lemma CountsOfFour(c: Issue, h: Issue, m: Issue, l: Issue, level: string)
    ensures multiset(Severities([c, h, m, l]))[level]
            == (if c.severity == level then 1 else 0) + (if h.severity == level then 1 else 0)
               + (if m.severity == level then 1 else 0) + (if l.severity == level then 1 else 0)
  {
    assert [c, h, m, l] == [c, h, m] + [l] && [c, h, m] == [c, h] + [m] && [c, h] == [c] + [h] && [c] == [] + [c];
    SeverityCountSnoc([c, h, m], l, level);
    SeverityCountSnoc([c, h], m, level);
    SeverityCountSnoc([c], h, level);
    SeverityCountSnoc([], c, level);
  }

  /** One issue of each severity scores 25 + 10 + 5 + 2 = 42. */
  lemma OneOfEachScores42(c: Issue, h: Issue, m: Issue, l: Issue, other: map<string, Json>)
    requires c.severity == "critical" && h.severity == "high"
    requires m.severity == "medium" && l.severity == "low"
    ensures ProcessAuditData(RawAudit(Some([c, h]), Some([m]), Some([l]), other)).metrics.riskScore == 42
  {
    var r := ProcessAuditData(RawAudit(Some([c, h]), Some([m]), Some([l]), other));
    assert r.allIssues == [c, h, m, l];
    SeverityLevelsDistinct();
    CountsOfFour(c, h, m, l, "critical");
    CountsOfFour(c, h, m, l, "high");
    CountsOfFour(c, h, m, l, "medium");
    CountsOfFour(c, h, m, l, "low");
  }

  /** Five critical issues weigh 125 and are clamped to 100. */
  lemma FiveCriticalClampTo100(issues: seq<Issue>, other: map<string, Json>)
    requires |issues| == 5
    requires forall i :: 0 <= i < 5 ==> issues[i].severity == "critical"
    ensures ProcessAuditData(RawAudit(Some(issues), None, None, other)).metrics.riskScore == 100
  {
    assert issues + [] + [] == issues;
    assert Severities(issues) == ["critical", "critical", "critical", "critical", "critical"];
  }

  // ---------------------------------------------------------------- formatDate

  datatype TimeUnit = Minute | Hour | Day

  /** The relative time formatDate renders: "Just now", or an amount of one unit. */
  datatype Elapsed = JustNow | Ago(amount: nat, unit: TimeUnit)

  function UnitMs(u: TimeUnit): nat {
    match u
    case Minute => 60000
    case Hour => 3600000
    case Day => 86400000
  }

  /** Flooring minutes to hours is flooring milliseconds to hours. */
  lemma MinutesToHours(ms: int)
    ensures ms / 60000 / 60 == ms / 3600000
  {
  }

  /** Flooring hours to days is flooring milliseconds to days. */
  lemma HoursToDays(ms: int)
    ensures ms / 3600000 / 24 == ms / 86400000
  {
  }

  /**
   * The bucketing of formatDate as a function of `diffMs = now - date`:
   * minutes are `Math.floor(diffMs / 60000)`, hours and days are floored
   * again from them, and the first rule that matches wins.
   */
  function ElapsedSince(diffMs: int): (e: Elapsed)
    ensures e == JustNow <==> diffMs < 60000
    ensures (e.Ago? && e.unit == Minute) <==> 60000 <= diffMs < 3600000
    ensures (e.Ago? && e.unit == Hour) <==> 3600000 <= diffMs < 86400000
    ensures (e.Ago? && e.unit == Day) <==> 86400000 <= diffMs
    ensures e.Ago? ==> 1 <= e.amount && e.amount == diffMs / UnitMs(e.unit)
  {
    // Dafny's division by a positive divisor rounds down, as Math.floor does.
    var diffMins := diffMs / 60000;
    if diffMins < 1 then JustNow
    else if diffMins < 60 then Ago(diffMins, Minute)
    else
      var diffHours := diffMins / 60;
      MinutesToHours(diffMs);
      if diffHours < 24 then Ago(diffHours, Hour)
      else
        HoursToDays(diffMs);
        Ago(diffHours / 24, Day)
  }

  function UnitName(u: TimeUnit): string {
    match u
    case Minute => "minute"
    case Hour => "hour"
    case Day => "day"
  }

  /** The text formatDate returns for a millisecond difference. */
  function FormatDate(diffMs: int): (r: string)
    ensures r == "Just now" <==> diffMs < 60000
    ensures diffMs >= 60000 ==>
              var e := ElapsedSince(diffMs);
              StartsWith(r, NatToString(e.amount) + " " + UnitName(e.unit))
              && EndsWith(r, " ago")
              && (EndsWith(r, "s ago") <==> e.amount > 1)
              && |r| == |NatToString(e.amount)| + 1 + |UnitName(e.unit)| + (if e.amount > 1 then 5 else 4)
  {
    match ElapsedSince(diffMs)
    case JustNow => "Just now"
    case Ago(n, u) =>
      var head := NatToString(n) + " " + UnitName(u);
      var r := head + (if n > 1 then "s" else "") + " ago";
      assert r[..|head|] == head;
      assert r[|r| - 4..] == " ago";
      assert r[|r| - 1] != "Just now"[7];
      assert n <= 1 ==> r[|r| - 5] == UnitName(u)[|UnitName(u)| - 1] != 's';
      r
  }
}
