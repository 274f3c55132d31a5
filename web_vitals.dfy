/** Web-vitals thresholds and the performance score computed from up to four
    of the metrics. */
module WebVitals {
  import opened Common
  import JsString

  datatype Thresholds = Thresholds(good: real, needsImprovement: real)

  /** The metrics the table knows. */
  const KnownMetrics: set<string> := {"FCP", "LCP", "FID", "CLS", "TTFB", "INP"}

  /** `getWebVitalThresholds`: the table entry, or both bounds zero for a
      name the table does not hold. */
  function GetThresholds(metric: string): (r: Thresholds)
    ensures metric in KnownMetrics ==> 0.0 < r.good < r.needsImprovement
    ensures metric !in KnownMetrics ==> r == Thresholds(0.0, 0.0)
    ensures metric == "LCP" ==> r == Thresholds(2500.0, 4000.0)
    ensures metric == "FID" ==> r == Thresholds(100.0, 300.0)
    ensures metric == "CLS" ==> r == Thresholds(0.1, 0.25)
    ensures metric == "FCP" ==> r == Thresholds(1800.0, 3000.0)
    ensures metric == "TTFB" ==> r == Thresholds(800.0, 1800.0)
    ensures metric == "INP" ==> r == Thresholds(200.0, 500.0)
  {
    if metric == "FCP" then Thresholds(1800.0, 3000.0)
    else if metric == "LCP" then Thresholds(2500.0, 4000.0)
    else if metric == "FID" then Thresholds(100.0, 300.0)
    else if metric == "CLS" then Thresholds(0.1, 0.25)
    else if metric == "TTFB" then Thresholds(800.0, 1800.0)
    else if metric == "INP" then Thresholds(200.0, 500.0)
    else Thresholds(0.0, 0.0)
  }

  /** The optional readings passed in; `ttfb` is accepted with the others. */
  datatype Metrics = Metrics(lcp: Option<JsString.JsNumber>, fid: Option<JsString.JsNumber>,
                             cls: Option<JsString.JsNumber>, fcp: Option<JsString.JsNumber>,
                             ttfb: Option<JsString.JsNumber>)

  datatype Grade = A | B | C | D | F

  datatype Report = Report(score: int, grade: Grade, details: seq<string>)

  const AllGood: string := "All metrics look good!"

  /** How one metric is scored: its table name and its two issue texts. */
  datatype Rule = Rule(name: string, needsText: string, poorText: string)

  const LcpRule := Rule("LCP", "LCP needs improvement", "Poor LCP - optimize images and critical resources")
  const FidRule := Rule("FID", "FID needs improvement", "Poor FID - reduce JavaScript execution time")
  const ClsRule := Rule("CLS", "CLS needs improvement", "Poor CLS - add size attributes to images")
  const FcpRule := Rule("FCP", "FCP needs improvement", "Poor FCP - optimize server response time")

  /** The points one reading earns: 25 within the good bound, 15 within the
      needs-improvement bound, 5 otherwise; both bounds are inclusive. */
  function Points(v: JsString.JsNumber, t: Thresholds): nat
  {
    if JsString.AtMost(v, t.good) then 25
    else if JsString.AtMost(v, t.needsImprovement) then 15
    else 5
  }

  /** The issue one reading reports: none when good, else one text. */
  function IssueOf(v: JsString.JsNumber, t: Thresholds, rule: Rule): seq<string>
  {
    if JsString.AtMost(v, t.good) then []
    else if JsString.AtMost(v, t.needsImprovement) then [rule.needsText]
    else [rule.poorText]
  }

  function Present(o: Option<JsString.JsNumber>): nat
  {
    if o.Some? then 1 else 0
  }

  function PointsFor(o: Option<JsString.JsNumber>, rule: Rule): nat
  {
    if o.Some? then Points(o.value, GetThresholds(rule.name)) else 0
  }

  function IssuesFor(o: Option<JsString.JsNumber>, rule: Rule): seq<string>
  {
    if o.Some? then IssueOf(o.value, GetThresholds(rule.name), rule) else []
  }

  /** The number of metrics counted, the points they earn and the issues
      they raise, in the order LCP, FID, CLS, FCP. */
  function Count(m: Metrics): nat
  {
    Present(m.lcp) + Present(m.fid) + Present(m.cls) + Present(m.fcp)
  }

  function Total(m: Metrics): nat
  {
    PointsFor(m.lcp, LcpRule) + PointsFor(m.fid, FidRule) + PointsFor(m.cls, ClsRule) + PointsFor(m.fcp, FcpRule)
  }

  function Issues(m: Metrics): seq<string>
  {
    IssuesFor(m.lcp, LcpRule) + IssuesFor(m.fid, FidRule) + IssuesFor(m.cls, ClsRule) + IssuesFor(m.fcp, FcpRule)
  }

  /** The average points per counted metric, zero when none is. */
  function Normalized(m: Metrics): real
  {
    if Count(m) > 0 then Total(m) as real / Count(m) as real else 0.0
  }

  /** The grade for a normalised score, with cut-offs at 90, 75, 60 and 50. */
  function GradeOf(x: real): Grade
  {
    if x >= 90.0 then A
    else if x >= 75.0 then B
    else if x >= 60.0 then C
    else if x >= 50.0 then D
    else F
  }

  /** `Math.round` on a non-negative value: halves round up. */
  function Round(x: real): int
  {
    (x + 0.5).Floor
  }

  /** The report the scoring promises. */
  function Score(m: Metrics): Report
  {
    Report(Round(Normalized(m)), GradeOf(Normalized(m)), if Issues(m) != [] then Issues(m) else [AllGood])
  }

  /** One metric block: a present reading is counted, earns its points and
      raises its issue, if any. */
  method Tally(o: Option<JsString.JsNumber>, rule: Rule, totalScore: nat, metricCount: nat, issues: seq<string>)
    returns (totalScore': nat, metricCount': nat, issues': seq<string>)
    ensures totalScore' == totalScore + PointsFor(o, rule)
    ensures metricCount' == metricCount + Present(o)
    ensures issues' == issues + IssuesFor(o, rule)
  {
    totalScore', metricCount', issues' := totalScore, metricCount, issues;
    if o.Some? {
      metricCount' := metricCount' + 1;
      var t := GetThresholds(rule.name);
      if JsString.AtMost(o.value, t.good) {
        totalScore' := totalScore' + 25;
      } else if JsString.AtMost(o.value, t.needsImprovement) {
        totalScore' := totalScore' + 15;
        issues' := issues' + [rule.needsText];
      } else {
        totalScore' := totalScore' + 5;
        issues' := issues' + [rule.poorText];
      }
    }
  }

  /** `calculatePerformanceScore`: the four metric blocks add to the running
      total, the count and the issue list one after another; then the
      average is graded and rounded. */
  method CalculatePerformanceScore(m: Metrics) returns (r: Report)
    ensures r == Score(m)
  {
    var totalScore: nat := 0;
    var issues: seq<string> := [];
    var metricCount: nat := 0;

    totalScore, metricCount, issues := Tally(m.lcp, LcpRule, totalScore, metricCount, issues);
    totalScore, metricCount, issues := Tally(m.fid, FidRule, totalScore, metricCount, issues);
    totalScore, metricCount, issues := Tally(m.cls, ClsRule, totalScore, metricCount, issues);
    totalScore, metricCount, issues := Tally(m.fcp, FcpRule, totalScore, metricCount, issues);
    assert issues == Issues(m);

    var normalizedScore: real := if metricCount > 0 then totalScore as real / metricCount as real else 0.0;

    var grade: Grade;
    if normalizedScore >= 90.0 {
      grade := A;
    } else if normalizedScore >= 75.0 {
      grade := B;
    } else if normalizedScore >= 60.0 {
      grade := C;
    } else if normalizedScore >= 50.0 {
      grade := D;
    } else {
      grade := F;
    }

    r := Report(Round(normalizedScore), grade, if |issues| > 0 then issues else [AllGood]);
  }

  // ------------------------------------------------------------ properties

  /** Each counted metric earns between 5 and 25 points. */
  lemma TotalBounds(m: Metrics)
    ensures 5 * Count(m) <= Total(m) <= 25 * Count(m)
  {
  }

  /** An average of up to four values between 5 and 25 lies between 5
      and 25. */
  lemma AverageBounds(total: nat, count: nat)
    requires 0 < count <= 4 && 5 * count <= total <= 25 * count
    ensures 5.0 <= total as real / count as real <= 25.0
  {
    if count == 1 {
    } else if count == 2 {
      assert total as real / count as real == total as real / 2.0;
    } else if count == 3 {
      assert total as real / count as real == total as real / 3.0;
    } else {
      assert total as real / count as real == total as real / 4.0;
    }
  }

  /** With any metric present the average lies in [5, 25], so the rounded
      score does too. */
  lemma NormalizedBounds(m: Metrics)
    requires Count(m) > 0
    ensures 5.0 <= Normalized(m) <= 25.0
    ensures 5 <= Score(m).score <= 25
  {
    TotalBounds(m);
    AverageBounds(Total(m), Count(m));
  }

  /** As written the average never reaches 50, so every report is graded
      "F", whatever the readings. */
  lemma AlwaysGradeF(m: Metrics)
    ensures Score(m).grade == F
  {
    if Count(m) > 0 {
      NormalizedBounds(m);
    }
  }

  /** With no metric the score is 0, the grade "F" and the details say
      everything looks good. */
  lemma NoMetrics(m: Metrics)
    requires m.lcp.None? && m.fid.None? && m.cls.None? && m.fcp.None?
    ensures Score(m) == Report(0, F, [AllGood])
  {
  }

  /** The `ttfb` reading is never consulted. */
  lemma TtfbIgnored(m: Metrics, ttfb: Option<JsString.JsNumber>)
    ensures Score(m.(ttfb := ttfb)) == Score(m)
  {
  }

  /** Each metric outside its good band raises exactly one issue, so there
      are as many issues as counted metrics that are not good. */
  lemma OneIssuePerBadMetric(m: Metrics)
    ensures |Issues(m)| == Count(m) - Good(m)
  {
  }

  function GoodFor(o: Option<JsString.JsNumber>, rule: Rule): nat
  {
    if o.Some? && JsString.AtMost(o.value, GetThresholds(rule.name).good) then 1 else 0
  }

  /** The counted metrics within their good bound. */
  function Good(m: Metrics): (r: nat)
    ensures r <= Count(m)
  {
    GoodFor(m.lcp, LcpRule) + GoodFor(m.fid, FidRule) + GoodFor(m.cls, ClsRule) + GoodFor(m.fcp, FcpRule)
  }

  /** The details are the all-good message exactly when every counted metric
      is within its good bound. */
  lemma AllGoodIff(m: Metrics)
    ensures Score(m).details == [AllGood] <==> Good(m) == Count(m)
  {
    OneIssuePerBadMetric(m);
    if Issues(m) != [] {
      assert Issues(m)[0] != AllGood;
    }
  }

  /** When LCP is poor its issue comes first. */
  lemma LcpIssueFirst(m: Metrics)
    requires m.lcp.Some? && !JsString.AtMost(m.lcp.value, 4000.0)
    ensures Score(m).details[0] == LcpRule.poorText
  {
  }

  function Rank(g: Grade): nat
  {
    match g
    case F => 0
    case D => 1
    case C => 2
    case B => 3
    case A => 4
  }

  /** A higher average never earns a lower grade. */
  lemma GradeMonotone(x: real, y: real)
    requires x <= y
    ensures Rank(GradeOf(x)) <= Rank(GradeOf(y))
  {
  }

  /** The rounding is the nearest integer, halves going up. */
  lemma RoundNearest(x: real)
    ensures x - 0.5 < Round(x) as real <= x + 0.5
  {
  }
}
