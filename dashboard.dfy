/**
 * The decision rules of the dashboard (frontend/static/js/dashboard.js),
 * each taken out of the render function that embeds it in markup: URL
 * normalisation and the submit handler's state, the risk tier, the
 * executive-summary insights, the fix-time estimate, the severity sort and
 * the choice of category, title and location on an issue card.
 */
module Dashboard {
  import opened Wrappers
  import opened Text
  import opened Api

  // ---------------------------------------------------------- URL on submit

  /** `c` equals the lower-case ASCII letter `lower` up to case, as the `i` flag compares. */
  predicate SameLetterIgnoringCase(c: char, lower: char)
    requires 'a' <= lower <= 'z'
  {
    c == lower || c as int == lower as int - 32
  }

  /** `url.match(/^https?:\/\//i)` succeeds. */
  predicate HasHttpScheme(url: string) {
    && |url| >= 7
    && SameLetterIgnoringCase(url[0], 'h') && SameLetterIgnoringCase(url[1], 't')
    && SameLetterIgnoringCase(url[2], 't') && SameLetterIgnoringCase(url[3], 'p')
    && (url[4..7] == "://" || (|url| >= 8 && SameLetterIgnoringCase(url[4], 's') && url[5..8] == "://"))
  }

  const EmptyUrlMessage := "Please enter a valid URL"

  /**
   * handleAuditSubmit's treatment of the typed text: trim it, refuse it when
   * nothing is left, and prepend "https://" unless it already names an http
   * or https scheme.
   */
  function NormalizeUrl(input: string): (r: Result<string, string>)
    ensures r.Err? <==> Trim(input) == []
    ensures r.Err? ==> r.error == EmptyUrlMessage
    ensures r.Ok? ==> HasHttpScheme(r.value)
    ensures r.Ok? && HasHttpScheme(Trim(input)) ==> r.value == Trim(input)
    ensures r.Ok? && !HasHttpScheme(Trim(input)) ==> r.value == "https://" + Trim(input)
  {
    var url := Trim(input);
    if url == [] then Err(EmptyUrlMessage)
    else if HasHttpScheme(url) then Ok(url)
    else
      PrefixedHasScheme(url);
      Ok("https://" + url)
  }

  /** Whatever follows it, "https://" matches the scheme test. */
  lemma PrefixedHasScheme(url: string)
    ensures HasHttpScheme("https://" + url)
  {
    var r := "https://" + url;
    assert r[0] == 'h' && r[1] == 't' && r[2] == 't' && r[3] == 'p' && r[4] == 's';
    assert r[5..8] == "://";
  }

  /** Normalising an already normalised URL returns it unchanged. */
  lemma NormalizeIsIdempotent(input: string)
    requires NormalizeUrl(input).Ok?
    ensures NormalizeUrl(NormalizeUrl(input).value) == NormalizeUrl(input)
  {
    NormalizedEndsTrimmed(input);
    SchemeUrlIsFixed(NormalizeUrl(input).value);
  }

  /** A normalised URL ends where the trimmed input ends, so not in whitespace. */
  lemma NormalizedEndsTrimmed(input: string)
    requires NormalizeUrl(input).Ok?
    ensures var url := NormalizeUrl(input).value; url != [] && !IsJsWhitespace(url[|url| - 1])
    ensures var url, t := NormalizeUrl(input).value, Trim(input); t != [] && url[|url| - 1] == t[|t| - 1]
  {
    var t := Trim(input);
    if !HasHttpScheme(t) {
      var url := NormalizeUrl(input).value;
      assert url == "https://" + t;
      assert url[|url| - 1] == t[|t| - 1];
    }
  }

  /** A URL with an http(s) scheme and no trailing whitespace normalises to itself. */
  lemma SchemeUrlIsFixed(url: string)
    requires HasHttpScheme(url) && !IsJsWhitespace(url[|url| - 1])
    ensures NormalizeUrl(url) == Ok(url)
  {
    assert !IsJsWhitespace(url[0]);
    TrimmedIsFixed(url);
  }

  /**
   * The page state handleAuditSubmit changes: the module-level
   * `currentAuditData`, and the error banners shown so far.
   */
  class DashboardState {
    var currentAuditData: Option<EnrichedAudit>
    var errors: seq<string>

    constructor ()
      ensures currentAuditData == None && errors == []
    {
      currentAuditData := None;
      errors := [];
    }

    /**
     * Submit the typed URL. `submitAudit` stands for the request to the
     * backend: the audit record it returns, or the message of the error it
     * raises. Returns the URL that was sent, if any.
     */
    method HandleAuditSubmit(input: string, submitAudit: string -> Result<RawAudit, string>)
      returns (sent: Option<string>)
      modifies this
      ensures sent.Some? <==> NormalizeUrl(input).Ok?
      ensures sent.Some? ==> sent.value == NormalizeUrl(input).value
      ensures sent.None? ==>
                currentAuditData == old(currentAuditData) && errors == old(errors) + [EmptyUrlMessage]
      ensures sent.Some? && submitAudit(sent.value).Ok? ==>
                currentAuditData == Some(ProcessAuditData(submitAudit(sent.value).value))
                && errors == old(errors)
      ensures sent.Some? && submitAudit(sent.value).Err? ==>
                currentAuditData == old(currentAuditData)
                && errors == old(errors) + ["Audit failed: " + submitAudit(sent.value).error]
    {
      var url := Trim(input);
      if url == [] {
        errors := errors + [EmptyUrlMessage];
        return None;
      }
      if !HasHttpScheme(url) {
        url := "https://" + url;
      }
      assert NormalizeUrl(input) == Ok(url);
      var response := submitAudit(url);
      ShowResponse(response);
      sent := Some(url);
    }

    /**
     * The end of the submit handler: keep the processed record of a
     * successful request, or show the message of a failed one.
     */
    method ShowResponse(response: Result<RawAudit, string>)
      modifies this
      ensures response.Ok? ==> currentAuditData == Some(ProcessAuditData(response.value)) && errors == old(errors)
      ensures response.Err? ==>
                currentAuditData == old(currentAuditData) && errors == old(errors) + ["Audit failed: " + response.error]
    {
      if response.Ok? {
        currentAuditData := Some(ProcessAuditData(response.value));
      } else {
        errors := errors + ["Audit failed: " + response.error];
      }
    }
  }

  // ------------------------------------------------------------- risk tier

  datatype RiskTier = LowRisk | MediumRisk | HighRisk | CriticalRisk

  /** renderMetrics' classification of the risk score. */
  function TierOf(riskScore: int): (t: RiskTier)
    ensures t == CriticalRisk <==> riskScore >= 75
    ensures t == HighRisk <==> 50 <= riskScore < 75
    ensures t == MediumRisk <==> 25 <= riskScore < 50
    ensures t == LowRisk <==> riskScore < 25
  {
    if riskScore >= 75 then CriticalRisk
    else if riskScore >= 50 then HighRisk
    else if riskScore >= 25 then MediumRisk
    else LowRisk
  }

  function TierLevel(t: RiskTier): nat {
    match t
    case LowRisk => 0
    case MediumRisk => 1
    case HighRisk => 2
    case CriticalRisk => 3
  }

  function TierLabel(t: RiskTier): string {
    match t
    case CriticalRisk => "Critical Risk"
    case HighRisk => "High Risk"
    case MediumRisk => "Medium Risk"
    case LowRisk => "Low Risk"
  }

  function TierColor(t: RiskTier): string {
    match t
    case CriticalRisk => "var(--color-critical)"
    case HighRisk => "var(--color-high)"
    case MediumRisk => "var(--color-medium)"
    case LowRisk => "#10B981"
  }

  /** The label and colour renderMetrics shows for each band of the risk score. */
  lemma TierDisplayOfScore(riskScore: int)
    ensures var t := TierOf(riskScore);
            && (TierLabel(t) == "Critical Risk" <==> riskScore >= 75)
            && (TierLabel(t) == "High Risk" <==> 50 <= riskScore < 75)
            && (TierLabel(t) == "Medium Risk" <==> 25 <= riskScore < 50)
            && (TierLabel(t) == "Low Risk" <==> riskScore < 25)
            && (TierColor(t) == "#10B981" <==> riskScore < 25)
            && (riskScore >= 75 ==> TierColor(t) == "var(--color-critical)")
            && (50 <= riskScore < 75 ==> TierColor(t) == "var(--color-high)")
            && (25 <= riskScore < 50 ==> TierColor(t) == "var(--color-medium)")
  {
  }

  /** A higher score never gets a lower tier. */
  lemma TierIsMonotone(a: int, b: int)
    requires a <= b
    ensures TierLevel(TierOf(a)) <= TierLevel(TierOf(b))
  {
  }

  // ------------------------------------------------------ executive summary

  /** The lines of the executive summary, each with the number it shows. */
  datatype Insight =
    | RevenueAtRisk(thousands: nat)
    | CriticalBlocking(count: nat)
    | BottomQuartile
    | AboveAverageRisk
    | TechnicalFailuresPrimary
    | ContextualErrorsDetected
    | MissingCompetitiveElements(count: nat)
    | NoIssuesDetected

  /** The order in which the summary emits its lines. */
  function Position(i: Insight): nat {
    match i
    case RevenueAtRisk(_) => 0
    case CriticalBlocking(_) => 1
    case BottomQuartile => 2
    case AboveAverageRisk => 3
    case TechnicalFailuresPrimary => 4
    case ContextualErrorsDetected => 5
    case MissingCompetitiveElements(_) => 6
    case NoIssuesDetected => 7
  }

  /** The line the summary adds when `condition` holds. */
  function When(condition: bool, line: Insight): seq<Insight> {
    if condition then [line] else []
  }

  /** The eight candidate lines, each kept when its condition holds, in summary order. */
  function SummaryChain(b0: bool, b1: bool, b2: bool, b3: bool, b4: bool, b5: bool, b6: bool, b7: bool,
                        loss: nat, critical: nat, gaps: nat): seq<Insight> {
    When(b0, RevenueAtRisk(loss)) + When(b1, CriticalBlocking(critical))
    + When(b2, BottomQuartile) + When(b3, AboveAverageRisk)
    + When(b4, TechnicalFailuresPrimary) + When(b5, ContextualErrorsDetected)
    + When(b6, MissingCompetitiveElements(gaps)) + When(b7, NoIssuesDetected)
  }

  /** A line is in the chain exactly when it is one of the candidates and its condition holds. */
  lemma ChainMembers(b0: bool, b1: bool, b2: bool, b3: bool, b4: bool, b5: bool, b6: bool, b7: bool,
                     loss: nat, critical: nat, gaps: nat)
    ensures forall x :: x in SummaryChain(b0, b1, b2, b3, b4, b5, b6, b7, loss, critical, gaps) <==>
              || (b0 && x == RevenueAtRisk(loss)) || (b1 && x == CriticalBlocking(critical))
              || (b2 && x == BottomQuartile) || (b3 && x == AboveAverageRisk)
              || (b4 && x == TechnicalFailuresPrimary) || (b5 && x == ContextualErrorsDetected)
              || (b6 && x == MissingCompetitiveElements(gaps)) || (b7 && x == NoIssuesDetected)
  {
  }

  /** The summary lines for the metrics and the three list lengths the summary reads. */
  function SummaryFor(m: Metrics, techCount: nat, contextCount: nat, compCount: nat): seq<Insight> {
    var loss := 50000 * m.criticalCount + 15000 * m.highCount;
    SummaryChain(
      loss > 0, m.criticalCount > 0, m.riskScore >= 75, 50 <= m.riskScore < 75,
      techCount > contextCount, techCount <= contextCount && contextCount > 0,
      compCount > 0, m.totalIssues == 0,
      loss / 1000, m.criticalCount, compCount)
  }

  /** The lines renderExecutiveSummary shows, in order, as a function of the record. */
  function SummaryLines(data: EnrichedAudit): seq<Insight> {
    SummaryFor(data.metrics, |OrEmpty(data.technicalFailures)|, |OrEmpty(data.contextualErrors)|,
               |OrEmpty(data.competitiveGaps)|)
  }

  /** ChainMembers, instantiated at the summary's own conditions. */
  lemma SummaryMembers(m: Metrics, techCount: nat, contextCount: nat, compCount: nat)
    ensures var loss := 50000 * m.criticalCount + 15000 * m.highCount;
            forall x :: x in SummaryFor(m, techCount, contextCount, compCount) <==>
              || (loss > 0 && x == RevenueAtRisk(loss / 1000))
              || (m.criticalCount > 0 && x == CriticalBlocking(m.criticalCount))
              || (m.riskScore >= 75 && x == BottomQuartile)
              || (50 <= m.riskScore < 75 && x == AboveAverageRisk)
              || (techCount > contextCount && x == TechnicalFailuresPrimary)
              || (techCount <= contextCount && contextCount > 0 && x == ContextualErrorsDetected)
              || (compCount > 0 && x == MissingCompetitiveElements(compCount))
              || (m.totalIssues == 0 && x == NoIssuesDetected)
  {
    var loss := 50000 * m.criticalCount + 15000 * m.highCount;
    var b0, b1, b2, b3 := loss > 0, m.criticalCount > 0, m.riskScore >= 75, 50 <= m.riskScore < 75;
    var b4, b5 := techCount > contextCount, techCount <= contextCount && contextCount > 0;
    var b6, b7 := compCount > 0, m.totalIssues == 0;
    var thousands := loss / 1000;
    var chain := SummaryChain(b0, b1, b2, b3, b4, b5, b6, b7, thousands, m.criticalCount, compCount);
    ChainMembers(b0, b1, b2, b3, b4, b5, b6, b7, thousands, m.criticalCount, compCount);
    assert SummaryFor(m, techCount, contextCount, compCount) == chain;
  }

  /**
   * renderExecutiveSummary: the insights pushed one by one, then the
   * "no issues" line the template adds after them when there are none.
   */
  method ExecutiveSummary(data: EnrichedAudit) returns (items: seq<Insight>)
    ensures items == SummaryLines(data)
  {
    var m := data.metrics;
    var insights: seq<Insight> := [];

    var estimatedLoss := m.criticalCount * 50000 + m.highCount * 15000;
    if estimatedLoss > 0 {
      insights := insights + [RevenueAtRisk(estimatedLoss / 1000)];
    }
    ghost var w0 := When(estimatedLoss > 0, RevenueAtRisk(estimatedLoss / 1000));
    assert insights == w0;
    if m.criticalCount > 0 {
      insights := insights + [CriticalBlocking(m.criticalCount)];
    }
    ghost var w1 := When(m.criticalCount > 0, CriticalBlocking(m.criticalCount));
    assert insights == w0 + w1;
    ghost var w2 := When(m.riskScore >= 75, BottomQuartile);
    ghost var w3 := When(50 <= m.riskScore < 75, AboveAverageRisk);
    if m.riskScore >= 75 {
      insights := insights + [BottomQuartile];
      assert insights == w0 + w1 + w2 + w3;
    } else if m.riskScore >= 50 {
      insights := insights + [AboveAverageRisk];
      assert insights == w0 + w1 + w2 + w3;
    } else {
      assert insights == w0 + w1 + w2 + w3;
    }
    var techCount := |OrEmpty(data.technicalFailures)|;
    var contextCount := |OrEmpty(data.contextualErrors)|;
    ghost var w4 := When(techCount > contextCount, TechnicalFailuresPrimary);
    ghost var w5 := When(techCount <= contextCount && contextCount > 0, ContextualErrorsDetected);
    if techCount > contextCount {
      insights := insights + [TechnicalFailuresPrimary];
      assert insights == w0 + w1 + w2 + w3 + w4 + w5;
    } else if contextCount > 0 {
      insights := insights + [ContextualErrorsDetected];
      assert insights == w0 + w1 + w2 + w3 + w4 + w5;
    } else {
      assert insights == w0 + w1 + w2 + w3 + w4 + w5;
    }
    var compCount := |OrEmpty(data.competitiveGaps)|;
    if compCount > 0 {
      insights := insights + [MissingCompetitiveElements(compCount)];
    }
    ghost var w6 := When(compCount > 0, MissingCompetitiveElements(compCount));
    assert insights == w0 + w1 + w2 + w3 + w4 + w5 + w6;
    items := insights;
    if m.totalIssues == 0 {
      items := items + [NoIssuesDetected];
    }
    ghost var w7 := When(m.totalIssues == 0, NoIssuesDetected);
    assert items == w0 + w1 + w2 + w3 + w4 + w5 + w6 + w7;
    SummaryForIsChain(m, techCount, contextCount, compCount);
  }

  /** SummaryFor laid out as the eight conditional lines it concatenates. */
  lemma SummaryForIsChain(m: Metrics, techCount: nat, contextCount: nat, compCount: nat)
    ensures var loss := m.criticalCount * 50000 + m.highCount * 15000;
            SummaryFor(m, techCount, contextCount, compCount)
            == When(loss > 0, RevenueAtRisk(loss / 1000))
               + When(m.criticalCount > 0, CriticalBlocking(m.criticalCount))
               + When(m.riskScore >= 75, BottomQuartile) + When(50 <= m.riskScore < 75, AboveAverageRisk)
               + When(techCount > contextCount, TechnicalFailuresPrimary)
               + When(techCount <= contextCount && contextCount > 0, ContextualErrorsDetected)
               + When(compCount > 0, MissingCompetitiveElements(compCount))
               + When(m.totalIssues == 0, NoIssuesDetected)
  {
    assert m.criticalCount * 50000 + m.highCount * 15000 == 50000 * m.criticalCount + 15000 * m.highCount;
  }

  /** The estimated-loss line appears exactly when 50000c + 15000h is positive, showing it in thousands. */
  lemma RevenueLineIff(data: EnrichedAudit)
    ensures var m := data.metrics;
            RevenueAtRisk(50 * m.criticalCount + 15 * m.highCount) in SummaryLines(data)
            <==> 50000 * m.criticalCount + 15000 * m.highCount > 0
    ensures forall x :: x in SummaryLines(data) && x.RevenueAtRisk? ==>
              x.thousands == 50 * data.metrics.criticalCount + 15 * data.metrics.highCount
  {
    SummaryMembers(data.metrics, |OrEmpty(data.technicalFailures)|, |OrEmpty(data.contextualErrors)|,
                   |OrEmpty(data.competitiveGaps)|);
  }

  /** The risk-level line: bottom quartile from 75, above average from 50 to 74, none below. */
  lemma RiskLinesIff(data: EnrichedAudit)
    ensures BottomQuartile in SummaryLines(data) <==> data.metrics.riskScore >= 75
    ensures AboveAverageRisk in SummaryLines(data) <==> 50 <= data.metrics.riskScore < 75
    ensures CriticalBlocking(data.metrics.criticalCount) in SummaryLines(data) <==> data.metrics.criticalCount > 0
  {
    SummaryMembers(data.metrics, |OrEmpty(data.technicalFailures)|, |OrEmpty(data.contextualErrors)|,
                   |OrEmpty(data.competitiveGaps)|);
  }

  /**
   * At most one of the technical-versus-contextual lines appears: the
   * technical one exactly when technical failures outnumber contextual errors.
   */
  lemma TechnicalVersusContextual(data: EnrichedAudit)
    ensures var techCount, contextCount := |OrEmpty(data.technicalFailures)|, |OrEmpty(data.contextualErrors)|;
            && (TechnicalFailuresPrimary in SummaryLines(data) <==> techCount > contextCount)
            && (ContextualErrorsDetected in SummaryLines(data) <==> techCount <= contextCount && contextCount > 0)
            && !(TechnicalFailuresPrimary in SummaryLines(data) && ContextualErrorsDetected in SummaryLines(data))
  {
    SummaryMembers(data.metrics, |OrEmpty(data.technicalFailures)|, |OrEmpty(data.contextualErrors)|,
                   |OrEmpty(data.competitiveGaps)|);
  }

  /** The "no issues" line appears exactly when the record has no issues. */
  lemma NoIssuesLineIff(data: EnrichedAudit)
    ensures NoIssuesDetected in SummaryLines(data) <==> data.metrics.totalIssues == 0
    ensures MissingCompetitiveElements(|OrEmpty(data.competitiveGaps)|) in SummaryLines(data)
            <==> |OrEmpty(data.competitiveGaps)| > 0
  {
    SummaryMembers(data.metrics, |OrEmpty(data.technicalFailures)|, |OrEmpty(data.contextualErrors)|,
                   |OrEmpty(data.competitiveGaps)|);
  }

  predicate InOrder(items: seq<Insight>) {
    forall i, j :: 0 <= i < j < |items| ==> Position(items[i]) < Position(items[j])
  }

  /** Appending a line that comes later than everything so far keeps the order. */
  lemma AppendWhenInOrder(items: seq<Insight>, condition: bool, line: Insight)
    requires InOrder(items)
    requires forall x :: x in items ==> Position(x) < Position(line)
    ensures InOrder(items + When(condition, line))
    ensures forall x :: x in items + When(condition, line) ==> Position(x) <= Position(line)
  {
  }

  /** Lines chosen by any eight conditions, laid out in summary order, are in order. */
  lemma WhenChainInOrder(b0: bool, b1: bool, b2: bool, b3: bool, b4: bool, b5: bool, b6: bool, b7: bool,
                         loss: nat, critical: nat, gaps: nat)
    ensures InOrder(SummaryChain(b0, b1, b2, b3, b4, b5, b6, b7, loss, critical, gaps))
  {
    var s1 := When(b0, RevenueAtRisk(loss));
    AppendWhenInOrder([], b0, RevenueAtRisk(loss));
    assert [] + s1 == s1;
    var s2 := s1 + When(b1, CriticalBlocking(critical));
    AppendWhenInOrder(s1, b1, CriticalBlocking(critical));
    var s3 := s2 + When(b2, BottomQuartile);
    AppendWhenInOrder(s2, b2, BottomQuartile);
    var s4 := s3 + When(b3, AboveAverageRisk);
    AppendWhenInOrder(s3, b3, AboveAverageRisk);
    var s5 := s4 + When(b4, TechnicalFailuresPrimary);
    AppendWhenInOrder(s4, b4, TechnicalFailuresPrimary);
    var s6 := s5 + When(b5, ContextualErrorsDetected);
    AppendWhenInOrder(s5, b5, ContextualErrorsDetected);
    var s7 := s6 + When(b6, MissingCompetitiveElements(gaps));
    AppendWhenInOrder(s6, b6, MissingCompetitiveElements(gaps));
    AppendWhenInOrder(s7, b7, NoIssuesDetected);
  }

  /** The lines come in the fixed order of the summary, each at most once. */
  lemma SummaryIsOrdered(data: EnrichedAudit)
    ensures InOrder(SummaryLines(data))
  {
    SummaryForIsOrdered(data.metrics, |OrEmpty(data.technicalFailures)|, |OrEmpty(data.contextualErrors)|,
                        |OrEmpty(data.competitiveGaps)|);
  }

  /** WhenChainInOrder, instantiated at the summary's own conditions. */
  lemma SummaryForIsOrdered(m: Metrics, techCount: nat, contextCount: nat, compCount: nat)
    ensures InOrder(SummaryFor(m, techCount, contextCount, compCount))
  {
    var loss := 50000 * m.criticalCount + 15000 * m.highCount;
    var b0, b1, b2, b3 := loss > 0, m.criticalCount > 0, m.riskScore >= 75, 50 <= m.riskScore < 75;
    var b4, b5 := techCount > contextCount, techCount <= contextCount && contextCount > 0;
    var b6, b7 := compCount > 0, m.totalIssues == 0;
    var thousands := loss / 1000;
    var chain := SummaryChain(b0, b1, b2, b3, b4, b5, b6, b7, thousands, m.criticalCount, compCount);
    WhenChainInOrder(b0, b1, b2, b3, b4, b5, b6, b7, thousands, m.criticalCount, compCount);
    assert InOrder(chain);
    assert SummaryFor(m, techCount, contextCount, compCount) == chain;
  }

  // ------------------------------------------------------------ fix timeline

  /**
   * renderFixTimeline's estimate, in quarter-hours so that it stays exact:
   * 2 h per critical, 1 h per high, 30 min per medium, 15 min per low, and
   * `Math.ceil(totalHours / 6)` working days of six hours.
   */
  datatype FixTimeline = FixTimeline(
    criticalQuarters: nat,
    highQuarters: nat,
    otherQuarters: nat,
    workDays: nat)

  function TotalQuarters(t: FixTimeline): nat {
    t.criticalQuarters + t.highQuarters + t.otherQuarters
  }

  function FixTimelineOf(m: Metrics): (t: FixTimeline)
    ensures t.criticalQuarters == 8 * m.criticalCount && t.highQuarters == 4 * m.highCount
    ensures t.otherQuarters == 2 * m.mediumCount + m.lowCount
    ensures TotalQuarters(t) == 8 * m.criticalCount + 4 * m.highCount + 2 * m.mediumCount + m.lowCount
    ensures TotalQuarters(t) <= 24 * t.workDays < TotalQuarters(t) + 24
    ensures t.workDays == 0 <==> m.criticalCount == m.highCount == m.mediumCount == m.lowCount == 0
  {
    var criticalTime := m.criticalCount * 8;
    var highTime := m.highCount * 4;
    var otherTime := m.mediumCount * 2 + m.lowCount;
    var totalTime := criticalTime + highTime + otherTime;
    FixTimeline(criticalTime, highTime, otherTime, (totalTime + 23) / 24)
  }

  // ----------------------------------------------------------- severity sort

  /**
   * `severityOrder[severity]` for the four known severities. Any other string
   * is given 4 here, but no sort below is defined for it: the lookup yields
   * undefined there and the comparator NaN, which leaves the order to the engine.
   */
  function SeverityRank(s: string): nat {
    if s == "critical" then 0 else if s == "high" then 1 else if s == "medium" then 2
    else if s == "low" then 3 else 4
  }

  predicate AllKnown(issues: seq<Issue>) {
    forall i :: 0 <= i < |issues| ==> IsKnownSeverity(issues[i].severity)
  }

  predicate SortedBySeverity(issues: seq<Issue>) {
    forall i, j :: 0 <= i < j < |issues| ==>
      SeverityRank(issues[i].severity) <= SeverityRank(issues[j].severity)
  }

  /** Insert `x` after every element the comparator does not put behind it. */
  function Insert(sorted: seq<Issue>, x: Issue): (r: seq<Issue>)
    ensures multiset(r) == multiset(sorted) + multiset{x}
  {
    if sorted == [] then [x]
    else
      var init, last := sorted[..|sorted| - 1], sorted[|sorted| - 1];
      assert sorted == init + [last];
      if SeverityRank(last.severity) <= SeverityRank(x.severity) then sorted + [x]
      else Insert(init, x) + [last]
  }

  /** Inserting into a sorted list keeps it sorted. */
  lemma {:induction false} InsertKeepsSorted(sorted: seq<Issue>, x: Issue)
    requires SortedBySeverity(sorted)
    ensures SortedBySeverity(Insert(sorted, x))
  {
    if sorted != [] {
      var init, last := sorted[..|sorted| - 1], sorted[|sorted| - 1];
      var rankLast := SeverityRank(last.severity);
      assert forall i :: 0 <= i < |init| ==> init[i] == sorted[i];
      if rankLast <= SeverityRank(x.severity) {
        AppendNoMoreSevere(sorted, x);
      } else {
        InsertKeepsSorted(init, x);
        var front := Insert(init, x);
        forall i | 0 <= i < |front| ensures SeverityRank(front[i].severity) <= rankLast {
          assert front[i] in multiset(init) + multiset{x};
        }
        AppendNoMoreSevere(front, last);
      }
    }
  }

  /** Appending an issue no more severe than any before it keeps a sorted list sorted. */
  lemma AppendNoMoreSevere(front: seq<Issue>, y: Issue)
    requires SortedBySeverity(front)
    requires forall i :: 0 <= i < |front| ==> SeverityRank(front[i].severity) <= SeverityRank(y.severity)
    ensures SortedBySeverity(front + [y])
  {
    var r := front + [y];
    forall i, j | 0 <= i < j < |r|
      ensures SeverityRank(r[i].severity) <= SeverityRank(r[j].severity)
    {
      assert r[i] == front[i];
    }
  }

  /**
   * `[...data.allIssues].sort((a, b) => severityOrder[a.severity] - severityOrder[b.severity])`,
   * the sort being stable as the language requires.
   */
  function SortBySeverity(issues: seq<Issue>): (r: seq<Issue>)
    requires AllKnown(issues)
    ensures multiset(r) == multiset(issues)
  {
    if issues == [] then []
    else
      var init := issues[..|issues| - 1];
      assert issues == init + [issues[|issues| - 1]];
      Insert(SortBySeverity(init), issues[|issues| - 1])
  }

  /** The sort puts critical issues first, then high, medium and low. */
  lemma {:induction false} SortIsSorted(issues: seq<Issue>)
    requires AllKnown(issues)
    ensures SortedBySeverity(SortBySeverity(issues))
  {
    if issues != [] {
      SortIsSorted(issues[..|issues| - 1]);
      InsertKeepsSorted(SortBySeverity(issues[..|issues| - 1]), issues[|issues| - 1]);
    }
  }

  /** With one of `a`, `b` empty, the order they are appended in does not matter. */
  lemma SwapEmpty<T>(p: seq<T>, a: seq<T>, b: seq<T>)
    requires a == [] || b == []
    ensures p + a + b == p + b + a
  {
    if a == [] {
      assert p + a == p;
      assert p + b + a == p + b;
    } else {
      assert p + a + b == p + a;
      assert p + b == p;
    }
  }

  /** Inserting keeps every severity's issues in order, with `x` after its equals. */
  lemma {:induction false} InsertIsStable(sorted: seq<Issue>, x: Issue, level: string)
    ensures WithSeverity(Insert(sorted, x), level) == WithSeverity(sorted + [x], level)
  {
    if sorted != [] {
      var init, last := sorted[..|sorted| - 1], sorted[|sorted| - 1];
      if SeverityRank(last.severity) > SeverityRank(x.severity) {
        var front := Insert(init, x);
        assert sorted == init + [last];
        WithSeveritySingle(x, level);
        WithSeveritySingle(last, level);
        var wx, wl := WithSeverity([x], level), WithSeverity([last], level);
        assert wx == [] || wl == [];
        calc {
          WithSeverity(Insert(sorted, x), level);
          WithSeverity(front + [last], level);
          { WithSeverityConcat(front, [last], level); }
          WithSeverity(front, level) + wl;
          { InsertIsStable(init, x, level); }
          WithSeverity(init + [x], level) + wl;
          { WithSeverityConcat(init, [x], level); }
          WithSeverity(init, level) + wx + wl;
          { SwapEmpty(WithSeverity(init, level), wx, wl); }
          WithSeverity(init, level) + wl + wx;
          { WithSeverityConcat(init, [last], level); }
          WithSeverity(sorted, level) + wx;
          { WithSeverityConcat(sorted, [x], level); }
          WithSeverity(sorted + [x], level);
        }
      } else {
        assert Insert(sorted, x) == sorted + [x];
      }
    }
  }

  /** The sort is stable: issues of one severity keep their original relative order. */
  lemma {:induction false} SortIsStable(issues: seq<Issue>, level: string)
    requires AllKnown(issues)
    ensures WithSeverity(SortBySeverity(issues), level) == WithSeverity(issues, level)
  {
    if issues != [] {
      var init, last := issues[..|issues| - 1], issues[|issues| - 1];
      assert issues == init + [last];
      assert AllKnown(init);
      var sortedInit := SortBySeverity(init);
      calc {
        WithSeverity(SortBySeverity(issues), level);
        WithSeverity(Insert(sortedInit, last), level);
        { InsertIsStable(sortedInit, last, level); }
        WithSeverity(sortedInit + [last], level);
        { WithSeverityConcat(sortedInit, [last], level); }
        WithSeverity(sortedInit, level) + WithSeverity([last], level);
        { SortIsStable(init, level); }
        WithSeverity(init, level) + WithSeverity([last], level);
        { WithSeverityConcat(init, [last], level); }
        WithSeverity(issues, level);
      }
    }
  }

  /** A list with no issue of a severity filters to nothing for it. */
  lemma {:induction false} AbsentLevelFiltersEmpty(issues: seq<Issue>, level: string)
    requires forall i :: 0 <= i < |issues| ==> issues[i].severity != level
    ensures WithSeverity(issues, level) == []
  {
    if issues != [] {
      AbsentLevelFiltersEmpty(issues[..|issues| - 1], level);
    }
  }

  /** The four severity groups of a list, most severe first. */
  function Grouped(issues: seq<Issue>): seq<Issue> {
    WithSeverity(issues, "critical") + WithSeverity(issues, "high")
    + WithSeverity(issues, "medium") + WithSeverity(issues, "low")
  }

  /** A list sorted by severity is its four severity groups laid end to end. */
  lemma {:induction false} SortedIsGrouped(issues: seq<Issue>)
    requires AllKnown(issues)
    requires SortedBySeverity(issues)
    ensures issues == Grouped(issues)
  {
    if issues != [] {
      var init, last := issues[..|issues| - 1], issues[|issues| - 1];
      assert issues == init + [last];
      assert AllKnown(init);
      assert SortedBySeverity(init);
      SortedIsGrouped(init);
      assert forall i :: 0 <= i < |init| ==> SeverityRank(init[i].severity) <= SeverityRank(last.severity) by {
        forall i | 0 <= i < |init| ensures SeverityRank(init[i].severity) <= SeverityRank(last.severity) {
          assert init[i] == issues[i];
        }
      }
      GroupedSnoc(init, last);
    }
  }

  /** Appending an issue no more severe than all before it (ranked no earlier) extends its own group. */
  lemma GroupedSnoc(init: seq<Issue>, last: Issue)
    requires IsKnownSeverity(last.severity)
    requires forall i :: 0 <= i < |init| ==> SeverityRank(init[i].severity) <= SeverityRank(last.severity)
    ensures Grouped(init + [last]) == Grouped(init) + [last]
  {
    var rank := SeverityRank(last.severity);
    var c, h, m, l := WithSeverity(init, "critical"), WithSeverity(init, "high"),
                      WithSeverity(init, "medium"), WithSeverity(init, "low");
    WithSeverityConcat(init, [last], "critical");
    WithSeverityConcat(init, [last], "high");
    WithSeverityConcat(init, [last], "medium");
    WithSeverityConcat(init, [last], "low");
    SingleByRank(last);
    if rank < 3 {
      AbsentLevelFiltersEmpty(init, "low");
    }
    if rank < 2 {
      AbsentLevelFiltersEmpty(init, "medium");
    }
    if rank < 1 {
      AbsentLevelFiltersEmpty(init, "high");
    }
    PlaceLast(c, h, m, l, WithSeverity([last], "critical"), WithSeverity([last], "high"),
              WithSeverity([last], "medium"), WithSeverity([last], "low"), last, rank);
  }

  /** A single issue of known severity lands in exactly the group its rank names. */
  lemma SingleByRank(x: Issue)
    requires IsKnownSeverity(x.severity)
    ensures WithSeverity([x], "critical") == (if SeverityRank(x.severity) == 0 then [x] else [])
    ensures WithSeverity([x], "high") == (if SeverityRank(x.severity) == 1 then [x] else [])
    ensures WithSeverity([x], "medium") == (if SeverityRank(x.severity) == 2 then [x] else [])
    ensures WithSeverity([x], "low") == (if SeverityRank(x.severity) == 3 then [x] else [])
  {
    WithSeveritySingle(x, "critical");
    WithSeveritySingle(x, "high");
    WithSeveritySingle(x, "medium");
    WithSeveritySingle(x, "low");
  }

  /** Appending an element of group `rank` after groups that end at `rank` extends that group. */
  lemma PlaceLast<T>(c: seq<T>, h: seq<T>, m: seq<T>, l: seq<T>,
                     wc: seq<T>, wh: seq<T>, wm: seq<T>, wl: seq<T>, x: T, rank: nat)
    requires rank < 4
    requires wc == (if rank == 0 then [x] else [])
    requires wh == (if rank == 1 then [x] else [])
    requires wm == (if rank == 2 then [x] else [])
    requires wl == (if rank == 3 then [x] else [])
    requires rank < 1 ==> h == []
    requires rank < 2 ==> m == []
    requires rank < 3 ==> l == []
    ensures c + h + m + l + [x] == (c + wc) + (h + wh) + (m + wm) + (l + wl)
  {
    if rank == 0 {
      assert h + wh == [] && m + wm == [] && l + wl == [];
      assert c + h + m + l == c;
    } else if rank == 1 {
      assert m + wm == [] && l + wl == [] && c + wc == c;
      assert c + h + m + l == c + h;
    } else if rank == 2 {
      assert l + wl == [] && c + wc == c && h + wh == h;
      assert c + h + m + l == c + h + m;
    } else {
      assert c + wc == c && h + wh == h && m + wm == m;
    }
  }

  /**
   * Every stable sort by severity gives the same list: a sorted list of known
   * severities whose severity groups match those of the input is SortBySeverity's result.
   */
  lemma StableSortIsUnique(issues: seq<Issue>, other: seq<Issue>)
    requires AllKnown(issues)
    requires AllKnown(other)
    requires SortedBySeverity(other)
    requires WithSeverity(other, "critical") == WithSeverity(issues, "critical")
    requires WithSeverity(other, "high") == WithSeverity(issues, "high")
    requires WithSeverity(other, "medium") == WithSeverity(issues, "medium")
    requires WithSeverity(other, "low") == WithSeverity(issues, "low")
    ensures other == SortBySeverity(issues)
  {
    var sorted := SortBySeverity(issues);
    SortIsSorted(issues);
    assert AllKnown(sorted) by {
      forall i | 0 <= i < |sorted| ensures IsKnownSeverity(sorted[i].severity) {
        assert sorted[i] in multiset(issues);
      }
    }
    SortedIsGrouped(sorted);
    SortedIsGrouped(other);
    SortIsStable(issues, "critical");
    SortIsStable(issues, "high");
    SortIsStable(issues, "medium");
    SortIsStable(issues, "low");
  }

  // -------------------------------------------------------------- issue card

  datatype IssueCategory = TechnicalFailure | ContextualError | CompetitiveGap

  /** JavaScript truthiness of an optional string field: present and not empty. */
  predicate Truthy(v: Option<string>) {
    v.Some? && v.value != []
  }

  /** renderIssueCard's inference as written: error_type first, then content. */
  function InferCategoryAsWritten(issue: Issue): (c: IssueCategory)
    ensures c == TechnicalFailure <==> Truthy(issue.errorType)
    ensures c == ContextualError <==> !Truthy(issue.errorType) && Truthy(issue.content)
  {
    if Truthy(issue.errorType) then TechnicalFailure
    else if Truthy(issue.content) then ContextualError
    else CompetitiveGap
  }

  /**
   * The inference evidently intended: the field only contextual errors have
   * (content) is tested before the one both technical failures and
   * contextual errors have (error_type).
   */
  function InferCategory(issue: Issue): (c: IssueCategory)
    ensures issue.content.Some? <==> c == ContextualError
    ensures c == TechnicalFailure <==> issue.content.None? && issue.errorType.Some?
  {
    if issue.content.Some? then ContextualError
    else if issue.errorType.Some? then TechnicalFailure
    else CompetitiveGap
  }

  function CategoryLabel(c: IssueCategory): string {
    match c
    case TechnicalFailure => "Technical Failure"
    case ContextualError => "Contextual Error"
    case CompetitiveGap => "Competitive Gap"
  }

  function ImpactLabel(c: IssueCategory): string {
    match c
    case TechnicalFailure => "Transaction Impact"
    case ContextualError => "Agent Confusion"
    case CompetitiveGap => "Agent Impact"
  }

  /** The impact field the card shows for its category (absent if the issue lacks it). */
  function ImpactText(issue: Issue, c: IssueCategory): Option<string> {
    match c
    case TechnicalFailure => issue.transactionImpact
    case ContextualError => issue.agentConfusion
    case CompetitiveGap => issue.agentImpact
  }

  /** `issue.element || issue.content || issue.missing_element || 'Issue'` */
  function Title(issue: Issue): (r: string)
    ensures r != []
    ensures Truthy(issue.element) ==> r == issue.element.value
    ensures !Truthy(issue.element) && Truthy(issue.content) ==> r == issue.content.value
    ensures !Truthy(issue.element) && !Truthy(issue.content) && Truthy(issue.missingElement)
            ==> r == issue.missingElement.value
    ensures r == "Issue" <==> (Truthy(issue.element) && issue.element.value == "Issue")
                              || (!Truthy(issue.element) && Truthy(issue.content) && issue.content.value == "Issue")
                              || (!Truthy(issue.element) && !Truthy(issue.content)
                                  && (Truthy(issue.missingElement) ==> issue.missingElement.value == "Issue"))
  {
    if Truthy(issue.element) then issue.element.value
    else if Truthy(issue.content) then issue.content.value
    else if Truthy(issue.missingElement) then issue.missingElement.value
    else "Issue"
  }

  /** `issue.location || 'Unknown location'` */
  function Location(issue: Issue): (r: string)
    ensures r != []
    ensures Truthy(issue.location) ==> r == issue.location.value
    ensures !Truthy(issue.location) ==> r == "Unknown location"
  {
    if Truthy(issue.location) then issue.location.value else "Unknown location"
  }

  /** What an issue card shows, apart from markup. */
  datatype Card = Card(
    severity: string,
    categoryLabel: string,
    impactLabel: string,
    impactText: Option<string>,
    title: string,
    location: string)

  /** The card for an issue once its category is chosen. */
  function CardFor(issue: Issue, c: IssueCategory): Card {
    Card(issue.severity, CategoryLabel(c), ImpactLabel(c), ImpactText(issue, c), Title(issue), Location(issue))
  }

  /** renderIssueCard as written: the category is inferred with error_type tested first. */
  function IssueCard(issue: Issue): (card: Card)
    ensures card.severity == issue.severity && card.title == Title(issue) && card.location == Location(issue)
    ensures card.categoryLabel == "Technical Failure" <==> Truthy(issue.errorType)
    ensures card.categoryLabel == "Contextual Error" <==> !Truthy(issue.errorType) && Truthy(issue.content)
    ensures card.categoryLabel == "Competitive Gap" <==> !Truthy(issue.errorType) && !Truthy(issue.content)
    ensures Truthy(issue.errorType) ==>
              card.impactLabel == "Transaction Impact" && card.impactText == issue.transactionImpact
    ensures !Truthy(issue.errorType) && Truthy(issue.content) ==>
              card.impactLabel == "Agent Confusion" && card.impactText == issue.agentConfusion
    ensures !Truthy(issue.errorType) && !Truthy(issue.content) ==>
              card.impactLabel == "Agent Impact" && card.impactText == issue.agentImpact
  {
    CardFor(issue, InferCategoryAsWritten(issue))
  }

  /** The card with the corrected inference: content is tested before error_type. */
  function CorrectedIssueCard(issue: Issue): (card: Card)
    ensures card.severity == issue.severity && card.title == Title(issue) && card.location == Location(issue)
    ensures card.categoryLabel == "Contextual Error" <==> issue.content.Some?
    ensures card.categoryLabel == "Technical Failure" <==> issue.content.None? && issue.errorType.Some?
    ensures card.categoryLabel == "Competitive Gap" <==> issue.content.None? && issue.errorType.None?
    ensures issue.content.Some? ==> card.impactLabel == "Agent Confusion" && card.impactText == issue.agentConfusion
    ensures issue.content.None? && issue.errorType.Some? ==>
              card.impactLabel == "Transaction Impact" && card.impactText == issue.transactionImpact
    ensures issue.content.None? && issue.errorType.None? ==>
              card.impactLabel == "Agent Impact" && card.impactText == issue.agentImpact
  {
    CardFor(issue, InferCategory(issue))
  }
}
