/**
 * The backend's audit record (backend/models.py): a closed severity
 * enumeration, three issue types that each carry a required severity, and
 * the derived properties of AuditResult.
 */
module Models {
  import opened Wrappers
  import opened Json

  datatype Severity = Critical | High | Medium | Low

  /** The string value of each enumeration member. */
  function SeverityValue(s: Severity): string {
    match s
    case Critical => "critical"
    case High => "high"
    case Medium => "medium"
    case Low => "low"
  }

  datatype TechnicalFailure = TechnicalFailure(
    errorType: string,
    element: string,
    location: string,
    expectedBehavior: string,
    actualBehavior: string,
    transactionImpact: string,
    severity: Severity)

  datatype ContextualError = ContextualError(
    errorType: string,
    content: string,
    location: string,
    whyWrong: string,
    agentConfusion: string,
    severity: Severity)

  datatype CompetitiveGap = CompetitiveGap(
    gapType: string,
    missingElement: string,
    location: string,
    competitorStandard: string,
    agentImpact: string,
    severity: Severity)

  /** An element of `all_issues`, which mixes the three issue types. */
  datatype AnyIssue =
    | Technical(t: TechnicalFailure)
    | Contextual(c: ContextualError)
    | Competitive(g: CompetitiveGap)

  function SeverityOf(issue: AnyIssue): Severity {
    match issue
    case Technical(t) => t.severity
    case Contextual(c) => c.severity
    case Competitive(g) => g.severity
  }

  /** The audit date is an opaque timestamp. */
  datatype AuditResult = AuditResult(
    url: string,
    auditDate: int,
    technicalFailures: seq<TechnicalFailure>,
    contextualErrors: seq<ContextualError>,
    competitiveGaps: seq<CompetitiveGap>,
    enrichment: Option<map<string, Json>>)

  /** Construction with the field defaults: an omitted issue list is a fresh empty list. */
  function NewAuditResult(
    url: string, auditDate: int,
    technicalFailures: Option<seq<TechnicalFailure>>,
    contextualErrors: Option<seq<ContextualError>>,
    competitiveGaps: Option<seq<CompetitiveGap>>,
    enrichment: Option<map<string, Json>>): (a: AuditResult)
    ensures technicalFailures.None? ==> a.technicalFailures == []
    ensures contextualErrors.None? ==> a.contextualErrors == []
    ensures competitiveGaps.None? ==> a.competitiveGaps == []
    ensures technicalFailures.Some? ==> a.technicalFailures == technicalFailures.value
    ensures contextualErrors.Some? ==> a.contextualErrors == contextualErrors.value
    ensures competitiveGaps.Some? ==> a.competitiveGaps == competitiveGaps.value
    ensures a.url == url && a.auditDate == auditDate && a.enrichment == enrichment
  {
    AuditResult(
      url, auditDate,
      if technicalFailures.Some? then technicalFailures.value else [],
      if contextualErrors.Some? then contextualErrors.value else [],
      if competitiveGaps.Some? then competitiveGaps.value else [],
      enrichment)
  }

  function TechnicalIssues(ts: seq<TechnicalFailure>): (r: seq<AnyIssue>)
    ensures |r| == |ts| && forall i :: 0 <= i < |ts| ==> r[i] == Technical(ts[i])
  {
    seq(|ts|, i requires 0 <= i < |ts| => Technical(ts[i]))
  }

  function ContextualIssues(cs: seq<ContextualError>): (r: seq<AnyIssue>)
    ensures |r| == |cs| && forall i :: 0 <= i < |cs| ==> r[i] == Contextual(cs[i])
  {
    seq(|cs|, i requires 0 <= i < |cs| => Contextual(cs[i]))
  }

  function CompetitiveIssues(gs: seq<CompetitiveGap>): (r: seq<AnyIssue>)
    ensures |r| == |gs| && forall i :: 0 <= i < |gs| ==> r[i] == Competitive(gs[i])
  {
    seq(|gs|, i requires 0 <= i < |gs| => Competitive(gs[i]))
  }

  /** all_issues: technical failures, then contextual errors, then competitive gaps. */
  function AllIssues(a: AuditResult): (r: seq<AnyIssue>)
    ensures |r| == |a.technicalFailures| + |a.contextualErrors| + |a.competitiveGaps|
    ensures forall i :: 0 <= i < |a.technicalFailures| ==> r[i] == Technical(a.technicalFailures[i])
    ensures forall i :: 0 <= i < |a.contextualErrors| ==>
              r[|a.technicalFailures| + i] == Contextual(a.contextualErrors[i])
    ensures forall i :: 0 <= i < |a.competitiveGaps| ==>
              r[|a.technicalFailures| + |a.contextualErrors| + i] == Competitive(a.competitiveGaps[i])
  {
    TechnicalIssues(a.technicalFailures) + ContextualIssues(a.contextualErrors)
    + CompetitiveIssues(a.competitiveGaps)
  }

  /** total_issues */
  function TotalIssues(a: AuditResult): (n: nat)
    ensures n == |AllIssues(a)|
  {
    |a.technicalFailures| + |a.contextualErrors| + |a.competitiveGaps|
  }

  /** `sum(w for i in issues if i.severity == s)`; with w = 1 it is the count. */
  function WeightOf(issues: seq<AnyIssue>, s: Severity, w: nat): nat {
    if issues == [] then 0
    else WeightOf(issues[..|issues| - 1], s, w) + (if SeverityOf(issues[|issues| - 1]) == s then w else 0)
  }

  /** The number of issues of severity `s`, as an independent reference. */
  function CountOf(issues: seq<AnyIssue>, s: Severity): nat {
    |set i | 0 <= i < |issues| && SeverityOf(issues[i]) == s|
  }

  /** critical_count */
  function CriticalCount(a: AuditResult): nat {
    WeightOf(AllIssues(a), Critical, 1)
  }

  /** high_count */
  function HighCount(a: AuditResult): nat {
    WeightOf(AllIssues(a), High, 1)
  }

  /** medium_count */
  function MediumCount(a: AuditResult): nat {
    WeightOf(AllIssues(a), Medium, 1)
  }

  /** low_count */
  function LowCount(a: AuditResult): nat {
    WeightOf(AllIssues(a), Low, 1)
  }

  /** A weighted sum is the weight times the count. */
  lemma {:induction false} WeightIsScaledCount(issues: seq<AnyIssue>, s: Severity, w: nat)
    ensures WeightOf(issues, s, w) == w * WeightOf(issues, s, 1)
  {
    if issues != [] {
      WeightIsScaledCount(issues[..|issues| - 1], s, w);
    }
  }

  /** Each count is the number of positions whose issue has that severity. */
  lemma {:induction false} CountMatchesPositions(issues: seq<AnyIssue>, s: Severity)
    ensures WeightOf(issues, s, 1) == CountOf(issues, s)
  {
    if issues != [] {
      CountMatchesPositions(issues[..|issues| - 1], s);
      CountOfSnoc(issues, s);
    }
  }

  /** The positions below `n` whose issue has severity `s`. */
  function PositionsBelow(issues: seq<AnyIssue>, n: nat, s: Severity): set<nat>
    requires n <= |issues|
  {
    set i: nat | i < n && SeverityOf(issues[i]) == s
  }

  /** Counting a prefix counts the positions below its length. */
  lemma CountOfPrefix(issues: seq<AnyIssue>, n: nat, s: Severity)
    requires n <= |issues|
    ensures CountOf(issues[..n], s) == |PositionsBelow(issues, n, s)|
  {
    var init := issues[..n];
    assert (set i | 0 <= i < |init| && SeverityOf(init[i]) == s) == PositionsBelow(issues, n, s);
  }

  /** One more position adds itself exactly when its issue has severity `s`. */
  lemma PositionsBelowSnoc(issues: seq<AnyIssue>, n: nat, s: Severity)
    requires n < |issues|
    ensures |PositionsBelow(issues, n + 1, s)|
            == |PositionsBelow(issues, n, s)| + (if SeverityOf(issues[n]) == s then 1 else 0)
  {
    var before := PositionsBelow(issues, n, s);
    assert n !in before;
    if SeverityOf(issues[n]) == s {
      assert PositionsBelow(issues, n + 1, s) == before + {n};
      assert |before + {n}| == |before| + 1;
    } else {
      assert PositionsBelow(issues, n + 1, s) == before;
    }
  }

  /** The last position adds one to the count of its own severity only. */
  lemma CountOfSnoc(issues: seq<AnyIssue>, s: Severity)
    requires issues != []
    ensures CountOf(issues, s)
            == CountOf(issues[..|issues| - 1], s) + (if SeverityOf(issues[|issues| - 1]) == s then 1 else 0)
  {
    var n := |issues| - 1;
    CountOfPrefix(issues, n, s);
    CountOfPrefix(issues, n + 1, s);
    assert issues[..n + 1] == issues;
    PositionsBelowSnoc(issues, n, s);
  }

  /** risk_score: the four weighted sums, capped at 100. */
  function RiskScore(a: AuditResult): (r: nat)
    ensures r <= 100
    ensures var weighted := 25 * CriticalCount(a) + 10 * HighCount(a) + 5 * MediumCount(a) + 2 * LowCount(a);
            r == if weighted < 100 then weighted else 100
  {
    var all := AllIssues(a);
    WeightIsScaledCount(all, Critical, 25);
    WeightIsScaledCount(all, High, 10);
    WeightIsScaledCount(all, Medium, 5);
    WeightIsScaledCount(all, Low, 2);
    var score := WeightOf(all, Critical, 25) + WeightOf(all, High, 10)
                 + WeightOf(all, Medium, 5) + WeightOf(all, Low, 2);
    if score < 100 then score else 100
  }

  /** The four counts of a list of issues add up to its length: the enumeration is closed. */
  lemma {:induction false} ClosedEnumCounts(issues: seq<AnyIssue>)
    ensures WeightOf(issues, Critical, 1) + WeightOf(issues, High, 1)
            + WeightOf(issues, Medium, 1) + WeightOf(issues, Low, 1) == |issues|
  {
    if issues != [] {
      ClosedEnumCounts(issues[..|issues| - 1]);
    }
  }

  /** critical_count + high_count + medium_count + low_count == total_issues */
  lemma CountsSumToTotal(a: AuditResult)
    ensures CriticalCount(a) + HighCount(a) + MediumCount(a) + LowCount(a) == TotalIssues(a)
  {
    ClosedEnumCounts(AllIssues(a));
  }

  /** A result built with every list defaulted has no issues and no risk. */
  lemma DefaultsHaveNoRisk(url: string, auditDate: int, enrichment: Option<map<string, Json>>)
    ensures var a := NewAuditResult(url, auditDate, None, None, None, enrichment);
            TotalIssues(a) == 0 && AllIssues(a) == [] && RiskScore(a) == 0
            && CriticalCount(a) == 0 && HighCount(a) == 0 && MediumCount(a) == 0 && LowCount(a) == 0
  {
  }
}
