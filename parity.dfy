/**
 * The backend record as the frontend receives it. An AuditResult is
 * serialised field by field (every issue list present, every issue field
 * present), and the frontend's processAuditData then recomputes the metrics
 * the backend's properties define. Here the two computations are shown to
 * agree, and the issue-card category is checked against the issue's type.
 */
module Parity {
  import opened Wrappers
  import opened Json
  import Api
  import M = Models
  import Dashboard

  /** One backend issue as a JSON object: its own fields, by their Python names. */
  function ToFrontend(issue: M.AnyIssue): (r: Api.Issue)
    ensures r.severity == M.SeverityValue(M.SeverityOf(issue))
    ensures r.errorType.Some? <==> !issue.Competitive?
    ensures r.content.Some? <==> issue.Contextual?
    ensures r.missingElement.Some? <==> issue.Competitive?
    ensures r.location.Some?
  {
    match issue
    case Technical(t) =>
      Api.Issue(M.SeverityValue(t.severity), Some(t.errorType), Some(t.element), None, None,
                Some(t.location), Some(t.transactionImpact), None, None,
                map["expected_behavior" := JString(t.expectedBehavior),
                    "actual_behavior" := JString(t.actualBehavior)])
    case Contextual(c) =>
      Api.Issue(M.SeverityValue(c.severity), Some(c.errorType), None, Some(c.content), None,
                Some(c.location), None, Some(c.agentConfusion), None,
                map["why_wrong" := JString(c.whyWrong)])
    case Competitive(g) =>
      Api.Issue(M.SeverityValue(g.severity), None, None, None, Some(g.missingElement),
                Some(g.location), None, None, Some(g.agentImpact),
                map["gap_type" := JString(g.gapType),
                    "competitor_standard" := JString(g.competitorStandard)])
  }

  function ToFrontendAll(issues: seq<M.AnyIssue>): (r: seq<Api.Issue>)
    ensures |r| == |issues| && forall i :: 0 <= i < |issues| ==> r[i] == ToFrontend(issues[i])
  {
    seq(|issues|, i requires 0 <= i < |issues| => ToFrontend(issues[i]))
  }

  /** model_dump of an AuditResult: the three lists always present. */
  function Serialize(a: M.AuditResult): Api.RawAudit {
    Api.RawAudit(
      Some(ToFrontendAll(M.TechnicalIssues(a.technicalFailures))),
      Some(ToFrontendAll(M.ContextualIssues(a.contextualErrors))),
      Some(ToFrontendAll(M.CompetitiveIssues(a.competitiveGaps))),
      map["url" := JString(a.url)])
  }

  /** Converting issue by issue commutes with concatenation. */
  lemma ToFrontendAllConcat(xs: seq<M.AnyIssue>, ys: seq<M.AnyIssue>)
    ensures ToFrontendAll(xs + ys) == ToFrontendAll(xs) + ToFrontendAll(ys)
  {
    assert forall i :: 0 <= i < |xs + ys| ==> ToFrontendAll(xs + ys)[i] == (ToFrontendAll(xs) + ToFrontendAll(ys))[i];
  }

  /** Converting a list converts its last issue last. */
  lemma ToFrontendAllSnoc(issues: seq<M.AnyIssue>)
    requires issues != []
    ensures ToFrontendAll(issues) == ToFrontendAll(issues[..|issues| - 1]) + [ToFrontend(issues[|issues| - 1])]
  {
  }

  lemma SeverityValueIsInjective(s: M.Severity, t: M.Severity)
    ensures M.SeverityValue(s) == M.SeverityValue(t) <==> s == t
  {
  }

  /** The frontend's string count of a level equals the backend's enum count of it. */
  lemma {:induction false} CountsAgree(issues: seq<M.AnyIssue>, s: M.Severity)
    ensures multiset(Api.Severities(ToFrontendAll(issues)))[M.SeverityValue(s)] == M.WeightOf(issues, s, 1)
  {
    if issues != [] {
      var init, last := issues[..|issues| - 1], issues[|issues| - 1];
      CountsAgree(init, s);
      ToFrontendAllSnoc(issues);
      Api.SeverityCountSnoc(ToFrontendAll(init), ToFrontend(last), M.SeverityValue(s));
      SeverityValueIsInjective(M.SeverityOf(last), s);
    }
  }

  /** The frontend's combined list is the backend's all_issues, converted issue by issue. */
  lemma AllIssuesAgree(a: M.AuditResult)
    ensures Api.ProcessAuditData(Serialize(a)).allIssues == ToFrontendAll(M.AllIssues(a))
  {
    var t := M.TechnicalIssues(a.technicalFailures);
    var c := M.ContextualIssues(a.contextualErrors);
    var g := M.CompetitiveIssues(a.competitiveGaps);
    ToFrontendAllConcat(t, c);
    ToFrontendAllConcat(t + c, g);
  }

  /** One severity level counted by the frontend on the serialised record and by the backend. */
  lemma LevelCountAgrees(a: M.AuditResult, s: M.Severity)
    ensures multiset(Api.Severities(Api.ProcessAuditData(Serialize(a)).allIssues))[M.SeverityValue(s)]
            == M.WeightOf(M.AllIssues(a), s, 1)
  {
    AllIssuesAgree(a);
    CountsAgree(M.AllIssues(a), s);
  }

  /** The frontend's four severity counts on the serialised record are the backend's. */
  lemma SeverityCountsAgree(a: M.AuditResult)
    ensures var m := Api.ProcessAuditData(Serialize(a)).metrics;
            && m.criticalCount == M.CriticalCount(a)
            && m.highCount == M.HighCount(a)
            && m.mediumCount == M.MediumCount(a)
            && m.lowCount == M.LowCount(a)
  {
    LevelCountAgrees(a, M.Critical);
    LevelCountAgrees(a, M.High);
    LevelCountAgrees(a, M.Medium);
    LevelCountAgrees(a, M.Low);
  }

  /**
   * For the same issues the frontend shows what the backend defines: the
   * same combined list, the same total, the same four counts and the same
   * risk score.
   */
  lemma MetricsAgree(a: M.AuditResult)
    ensures var fe := Api.ProcessAuditData(Serialize(a));
            && fe.allIssues == ToFrontendAll(M.AllIssues(a))
            && fe.metrics.totalIssues == M.TotalIssues(a)
            && fe.metrics.criticalCount == M.CriticalCount(a)
            && fe.metrics.highCount == M.HighCount(a)
            && fe.metrics.mediumCount == M.MediumCount(a)
            && fe.metrics.lowCount == M.LowCount(a)
            && fe.metrics.riskScore == M.RiskScore(a)
  {
    AllIssuesAgree(a);
    SeverityCountsAgree(a);
  }

  // --------------------------------------------------------- card category

  /**
   * The contextual error of the sample audit (backend/tinyfish_client.py,
   * lines 96-103). The content starts with the four characters the file
   * holds there, U+00F0 U+0178 U+017D U+201E, the Windows-1252 reading of
   * the UTF-8 bytes of a Christmas-tree emoji.
   */
  const SampleContextualError := M.ContextualError(
    "seasonal_mismatch",
    "\U{00F0}\U{0178}\U{017D}\U{201E} Holiday Gift Guide - Perfect Presents for Everyone!",
    "Homepage hero banner section",
    "Current date is February 2026, well past holiday shopping season",
    "Agent may interpret as outdated content, skip promotional pricing, or question site maintenance",
    M.Medium)

  /**
   * As written, the card calls every contextual error with a non-empty
   * error_type a technical failure; the sample audit's first contextual
   * error is one.
   */
  lemma AsWrittenMislabelsContextualErrors(c: M.ContextualError)
    requires c.errorType != []
    ensures Dashboard.InferCategoryAsWritten(ToFrontend(M.Contextual(c))) == Dashboard.TechnicalFailure
    ensures var card := Dashboard.IssueCard(ToFrontend(M.Contextual(c)));
            && card.categoryLabel == "Technical Failure"
            && card.impactLabel == "Transaction Impact"
            && card.impactText.None?
    ensures Dashboard.IssueCard(ToFrontend(M.Contextual(SampleContextualError))).categoryLabel
            == "Technical Failure"
  {
  }

  /** The corrected inference names every backend issue's own type, whatever its fields hold. */
  lemma CategoryMatchesIssueType(issue: M.AnyIssue)
    ensures var c := Dashboard.InferCategory(ToFrontend(issue));
            && (issue.Technical? <==> c == Dashboard.TechnicalFailure)
            && (issue.Contextual? <==> c == Dashboard.ContextualError)
            && (issue.Competitive? <==> c == Dashboard.CompetitiveGap)
  {
  }

  /** The corrected card of a contextual error shows its own label and its agent confusion. */
  lemma CorrectedCardShowsContextualErrors(c: M.ContextualError)
    ensures var card := Dashboard.CorrectedIssueCard(ToFrontend(M.Contextual(c)));
            && card.categoryLabel == "Contextual Error"
            && card.impactLabel == "Agent Confusion"
            && card.impactText == Some(c.agentConfusion)
  {
  }
}
