/** The statistics service's entry point: the QAs of the window, listed
    by the repository, turned into the six parts of the report. */
module StatReport {
  import opened Common
  import opened GoValue
  import opened BackendModel
  import opened StatPeriod
  import opened Statistics
  import opened KeywordTrends
  import StrOrder

  /** `model.Statistics`. */
  datatype Report = Report(userTrends: UserTrend, userTrendsHourly: UserTrend, satisfaction: Survey,
                           askHistory: History, tokenHistory: History, keywordTrends: Trends)

  /** What each part of a report of the QAs `qas` holds. */
  ghost predicate ReportOf(rep: Report, qas: seq<QA>, unit: PeriodUnit, from: int, to: int) {
    var keys := StrOrder.SortedSet(ReportKeys(qas, unit, from, to));
    // user trends: one series per job group, each counting the sessions per bucket
    rep.userTrends.labels == Labels(unit, from, to) &&
    Enumerates(UnitLabels(rep.userTrends.data), JobGroups(qas)) && GroupSorted(UnitLabels(rep.userTrends.data)) &&
    (forall i :: 0 <= i < |rep.userTrends.data| ==>
       rep.userTrends.data[i].data == SessionCounts(qas, BucketOf(unit), keys, rep.userTrends.data[i].name)) &&
    // hourly user trends: the same per hour of the day
    rep.userTrendsHourly.labels == HourLabels() &&
    Enumerates(UnitLabels(rep.userTrendsHourly.data), JobGroups(qas)) &&
    GroupSorted(UnitLabels(rep.userTrendsHourly.data)) &&
    (forall i :: 0 <= i < |rep.userTrendsHourly.data| ==>
       rep.userTrendsHourly.data[i].data == SessionCounts(qas, HourKey(), Hours(), rep.userTrendsHourly.data[i].name)) &&
    // satisfaction: the shares of up and down votes
    rep.satisfaction == SurveyOf(Votes(qas, "up"), Votes(qas, "down")) &&
    // histories: QAs and tokens per bucket
    rep.askHistory == History(Labels(unit, from, to), Tallies(qas, BucketOf(unit), keys, One())) &&
    rep.tokenHistory == History(Labels(unit, from, to), Tallies(qas, BucketOf(unit), keys, Tokens())) &&
    // keyword trends: the window's top ten and each bucket's
    rep.keywordTrends.summary.from == Bucket(unit, from) && rep.keywordTrends.summary.to == Bucket(unit, to) &&
    IsRanking(rep.keywordTrends.summary.ranking, CountsOf(Bag(qas)), TopN) &&
    |rep.keywordTrends.timeBased| == |keys| &&
    forall i :: 0 <= i < |keys| ==>
      rep.keywordTrends.timeBased[i].dateTime == keys[i] &&
      IsRanking(rep.keywordTrends.timeBased[i].ranking, CountsOf(BagIn(qas, BucketOf(unit), keys[i])), TopN)
  }

  /** `GetStatistics`: a repository error is passed on; otherwise "MONTH"
      buckets by month, anything else by day, and each part is computed
      from the listed QAs. */
  method GetStatistics(listed: Result<seq<QA>, GoError>, from: int, to: int, unit: string)
    returns (r: Result<Report, GoError>)
    ensures listed.Err? ==> r == Err(listed.error)
    ensures listed.Ok? ==> r.Ok? && ReportOf(r.value, listed.value, UnitOf(unit), from, to)
  {
    if listed.Err? {
      return Err(listed.error);
    }
    var qas := listed.value;
    var u := UnitOf(unit);
    var userTrends := ExtractUserTrends(qas, u, from, to);
    var hourly := ExtractUserTrendsHourly(qas);
    var survey := ExtractSatisfactionSurvey(qas);
    var asks := TallyHistory(qas, u, from, to, One());
    var tokens := TallyHistory(qas, u, from, to, Tokens());
    var trends := ExtractKeywordTrends(qas, u, from, to);
    r := Ok(Report(userTrends, hourly, survey, asks, tokens, trends));
  }

  /** The orders the report's final sorts ask for already hold: each
      ranking by descending count and the time-based rankings by ascending
      bucket, so those sorts change nothing. */
  lemma ReportOrdered(rep: Report, qas: seq<QA>, unit: PeriodUnit, from: int, to: int)
    requires ReportOf(rep, qas, unit, from, to)
    ensures Descending(rep.keywordTrends.summary.ranking)
    ensures forall i :: 0 <= i < |rep.keywordTrends.timeBased| ==> Descending(rep.keywordTrends.timeBased[i].ranking)
    ensures forall i, j :: 0 <= i < j < |rep.keywordTrends.timeBased| ==>
      StrOrder.Less(rep.keywordTrends.timeBased[i].dateTime, rep.keywordTrends.timeBased[j].dateTime)
  {
    var keys := StrOrder.SortedSet(ReportKeys(qas, unit, from, to));
    assert StrOrder.Sorted(keys);
  }

  /** The parts agree with each other: the ask history counts every QA
      once and the token history every token, the keyword rankings line up
      with the histories' buckets, and each series has one value per
      bucket. */
  lemma ReportTotals(rep: Report, qas: seq<QA>, unit: PeriodUnit, from: int, to: int)
    requires ReportOf(rep, qas, unit, from, to)
    ensures Sum(rep.askHistory.data) == |qas|
    ensures Sum(rep.tokenHistory.data) == Total(qas, Tokens())
    ensures |rep.askHistory.data| == |rep.tokenHistory.data| == |rep.keywordTrends.timeBased|
    ensures forall i :: 0 <= i < |rep.askHistory.data| ==>
      rep.askHistory.data[i] == Tally(qas, BucketOf(unit), rep.keywordTrends.timeBased[i].dateTime, One())
  {
    AskHistoryTotal(qas, unit, from, to);
    TokenHistoryTotal(qas, unit, from, to);
  }
}
