/** The simple backtest (`BacktestAnalyzer`): the record of a stock on a
    date read from a window of bars around it, the simulated analysis of a
    day, the next-day performance of the recommendations with its summary,
    and the conclusion drawn from it. Bar windows are inputs: `history(code,
    date)` is the window fetched for a stock around a date, `None` when the
    fetch is empty or raises. */
module Backtest {
  import opened Common
  import opened Lists
  import opened Bars
  import StockFilter

  // ---------------------------------------------------------------------
  // The record of a stock on a date

  /** The record `get_historical_data_for_date` returns: the PE is the
      fixed estimate 15 and the name is "股票" followed by the code. */
  datatype HistRecord = HistRecord(
    code: string,
    name: string,
    date: int,
    price: Close,
    volume: int,
    changePct: real,
    momentum20d: real,
    peRatio: real,
    turnover: real)

  /** The first bar dated exactly on the target, if any. */
  function ExactRow(bars: seq<Bar>, target: int): (r: Option<Bar>)
    ensures r.Some? <==> exists i :: 0 <= i < |bars| && bars[i].date == target
    ensures r.Some? ==> r.value in bars && r.value.date == target
  {
    if bars == [] then None
    else if bars[0].date == target then Some(bars[0])
    else
      var rest := ExactRow(bars[1..], target);
      assert forall i :: 1 <= i < |bars| ==> bars[i] == bars[1..][i - 1];
      rest
  }

  /** The bar used for the target: the exact match when one exists, else
      the last bar dated before the target, else none. */
  function TargetRow(bars: seq<Bar>, target: int): Option<Bar> {
    var exact := ExactRow(bars, target);
    if exact.Some? then exact else LastOnOrBefore(bars, target)
  }

  /** For bars in date order the two lookups agree: the target row is the
      latest bar dated on or before the target, and there is one exactly
      when some bar is so dated. */
  lemma TargetRowIsLatest(bars: seq<Bar>, target: int)
    requires Ascending(bars)
    ensures TargetRow(bars, target) == LastOnOrBefore(bars, target)
    ensures TargetRow(bars, target).Some? <==> exists i :: 0 <= i < |bars| && bars[i].date <= target
  {
    LastOnOrBeforeIsLatest(bars, target);
    var exact := ExactRow(bars, target);
    if exact.Some? {
      var last := LastOnOrBefore(bars, target).value;
      var i :| 0 <= i < |bars| && bars[i] == exact.value;
      var j :| 0 <= j < |bars| && bars[j] == last;
      assert bars[i].date <= last.date;
    }
  }

  /** `get_historical_data_for_date` on a fetched window: the momentum
      compares the target row's close with the 21st-from-last bar of the
      whole window (which extends past the target day), and is 0 with fewer
      than 21 bars. */
  function HistoricalDataForDate(code: string, window: Option<seq<Bar>>, date: int): (r: Option<HistRecord>)
    ensures r.Some? <==> window.Some? && TargetRow(window.value, date).Some?
    ensures r.Some? ==> r.value.code == code && r.value.name == "股票" + code && r.value.peRatio == 15.0
                        && r.value.price == TargetRow(window.value, date).value.close
                        && r.value.momentum20d == WindowMomentum(r.value.price, Closes(window.value))
  {
    if window.None? || window.value == [] then None
    else
      var row := TargetRow(window.value, date);
      if row.None? then None
      else
        var b := row.value;
        Some(HistRecord(code, "股票" + code, date, b.close, b.volume, b.changePct,
                        WindowMomentum(b.close, Closes(window.value)), 15.0, b.turnover))
  }

  /** When the target day is the last bar of the window, the momentum is
      `calculate_momentum` over 21 bars; a window with 20 bars gives 0. */
  lemma HistoricalMomentum(code: string, bars: seq<Bar>, date: int)
    requires bars != [] && bars[|bars| - 1].date == date && Ascending(bars)
    ensures HistoricalDataForDate(code, Some(bars), date).Some?
    ensures HistoricalDataForDate(code, Some(bars), date).value.momentum20d == CalculateMomentum(Closes(bars), 21)
  {
    TargetRowIsLatest(bars, date);
    LastOnOrBeforeIsLatest(bars, date);
    var row := LastOnOrBefore(bars, date).value;
    var k :| 0 <= k < |bars| && bars[k] == row;
    WindowIsCalculate21(Closes(bars));
  }

  // ---------------------------------------------------------------------
  // Simulated analysis

  /** The stocks analysed when no list is given. */
  const DefaultStockList: seq<string> := [
    "000001", "000002", "000858", "000725", "002714",
    "600036", "600519", "600887", "600276", "600009",
    "300059", "002415", "002507", "000596", "002241",
    "600031", "000063", "600048", "002304", "600104"]

  function ToStock(d: HistRecord): StockFilter.Stock {
    StockFilter.Stock(d.code, Num(d.price as real), Num(d.turnover), Num(d.changePct), Num(d.momentum20d),
                      Num(d.peRatio), Missing, Missing, Missing, Missing, Missing, Missing, None, None)
  }

  function ToStocks(ds: seq<HistRecord>): (r: seq<StockFilter.Stock>)
    ensures |r| == |ds|
  {
    seq(|ds|, i requires 0 <= i < |ds| => ToStock(ds[i]))
  }

  /** The records found for the listed stocks, in list order. */
  function Gathered(codes: seq<string>, date: int, history: (string, int) -> Option<seq<Bar>>): seq<HistRecord> {
    if codes == [] then []
    else
      var code := codes[|codes| - 1];
      var d := HistoricalDataForDate(code, history(code, date), date);
      Gathered(codes[..|codes| - 1], date, history) + (if d.Some? then [d.value] else [])
  }

  function ChangesOf(ds: seq<HistRecord>): (r: seq<real>)
    ensures |r| == |ds|
  {
    seq(|ds|, i requires 0 <= i < |ds| => ds[i].changePct)
  }

  datatype Analysis = Analysis(date: int, totalAnalyzed: nat, selected: seq<StockFilter.Stock>, avgChangePct: real)

  /** `simulate_analysis_for_date`: nothing when no record was found;
      otherwise the default selection over the records found and their
      average change. */
  function SimulateAnalysis(date: int, stockList: Option<seq<string>>, history: (string, int) -> Option<seq<Bar>>): (r: Option<Analysis>)
    ensures r.None? <==> Gathered(if stockList.Some? then stockList.value else DefaultStockList, date, history) == []
    ensures r.Some? ==> forall i :: 0 <= i < |r.value.selected| ==> PricePositive(r.value.selected[i])
    ensures r.Some? ==>
              var data := Gathered(if stockList.Some? then stockList.value else DefaultStockList, date, history);
              r.value.date == date && r.value.totalAnalyzed == |data|
              && r.value.selected == StockFilter.SelectTop(StockFilter.DefaultConfig, ToStocks(data))
              && Min(ChangesOf(data)) <= r.value.avgChangePct <= Max(ChangesOf(data))
  {
    var codes := if stockList.Some? then stockList.value else DefaultStockList;
    var data := Gathered(codes, date, history);
    if data == [] then None
    else
      SelectionPricesPositive(data);
      AverageBetween(ChangesOf(data));
      Some(Analysis(date, |data|, StockFilter.SelectTop(StockFilter.DefaultConfig, ToStocks(data)),
                    Sum(ChangesOf(data)) / |data| as real))
  }

  /** The gathering loop of `simulate_analysis_for_date`. */
  method GatherRecords(codes: seq<string>, date: int, history: (string, int) -> Option<seq<Bar>>)
    returns (data: seq<HistRecord>)
    ensures data == Gathered(codes, date, history)
  {
    data := [];
    for i := 0 to |codes|
      invariant data == Gathered(codes[..i], date, history)
    {
      var d := HistoricalDataForDate(codes[i], history(codes[i], date), date);
      assert codes[..i + 1][..i] == codes[..i];
      if d.Some? {
        data := data + [d.value];
      }
    }
    assert codes[..|codes|] == codes;
  }

  method SimulateAnalysisForDate(date: int, stockList: Option<seq<string>>, history: (string, int) -> Option<seq<Bar>>)
    returns (r: Option<Analysis>)
    ensures r == SimulateAnalysis(date, stockList, history)
  {
    var codes := if stockList.Some? then stockList.value else DefaultStockList;
    var data := GatherRecords(codes, date, history);
    if data == [] {
      return None;
    }
    var selected := StockFilter.SelectTopStocks(StockFilter.DefaultConfig, ToStocks(data));
    r := Some(Analysis(date, |data|, selected, Sum(ChangesOf(data)) / |data| as real));
  }

  predicate PricePositive(x: StockFilter.Stock) {
    x.price.Num? && x.price.x > 0.0
  }

  /** Every recommendation comes from a record, whose price is a positive
      close. */
  lemma SelectionPricesPositive(ds: seq<HistRecord>)
    ensures forall i :: 0 <= i < |StockFilter.SelectTop(StockFilter.DefaultConfig, ToStocks(ds))| ==>
              PricePositive(StockFilter.SelectTop(StockFilter.DefaultConfig, ToStocks(ds))[i])
  {
    var s := ToStocks(ds);
    var r := StockFilter.SelectTop(StockFilter.DefaultConfig, s);
    StockFilter.SelectTopProperties(StockFilter.DefaultConfig, s);
    forall i | 0 <= i < |r| ensures PricePositive(r[i]) {
      assert StockFilter.Plain(r[i]) in StockFilter.Plains(s);
      var j :| 0 <= j < |s| && StockFilter.Plains(s)[j] == StockFilter.Plain(r[i]);
      assert r[i].price == s[j].price;
    }
  }

  // ---------------------------------------------------------------------
  // Performance

  /** One recommendation's outcome on the next day. */
  datatype Outcome = Outcome(rank: Option<nat>, code: string, originalPrice: real, nextPrice: real, returnPct: real)

  /** The outcomes of the recommendations whose next-day record exists, in
      recommendation order. */
  function Outcomes(recs: seq<StockFilter.Stock>, nextDate: int, history: (string, int) -> Option<seq<Bar>>): (o: seq<Outcome>)
    requires forall i :: 0 <= i < |recs| ==> PricePositive(recs[i])
    ensures |o| <= |recs|
  {
    if recs == [] then []
    else
      var x := recs[|recs| - 1];
      assert PricePositive(x);
      var next := HistoricalDataForDate(x.code, history(x.code, nextDate), nextDate);
      Outcomes(recs[..|recs| - 1], nextDate, history)
      + (if next.Some? then [Outcome(x.rank, x.code, x.price.x, next.value.price as real,
                                     (next.value.price as real / x.price.x - 1.0) * 100.0)] else [])
  }

  function Returns(o: seq<Outcome>): (r: seq<real>)
    ensures |r| == |o|
  {
    seq(|o|, i requires 0 <= i < |o| => o[i].returnPct)
  }

  /** The position of the best return: the first of the largest, as
      Python's `max` with a key returns it. */
  function BestIndex(r: seq<real>): (k: nat)
    requires r != []
    ensures k < |r|
    ensures forall i :: 0 <= i < |r| ==> r[i] <= r[k]
    ensures forall i :: 0 <= i < k ==> r[i] < r[k]
  {
    if |r| == 1 then 0
    else
      var k := BestIndex(r[..|r| - 1]);
      assert forall i :: 0 <= i < |r| - 1 ==> r[i] == r[..|r| - 1][i];
      if r[|r| - 1] > r[k] then |r| - 1 else k
  }

  /** The position of the worst return: the first of the smallest. */
  function WorstIndex(r: seq<real>): (k: nat)
    requires r != []
    ensures k < |r|
    ensures forall i :: 0 <= i < |r| ==> r[k] <= r[i]
    ensures forall i :: 0 <= i < k ==> r[k] < r[i]
  {
    if |r| == 1 then 0
    else
      var k := WorstIndex(r[..|r| - 1]);
      assert forall i :: 0 <= i < |r| - 1 ==> r[i] == r[..|r| - 1][i];
      if r[|r| - 1] < r[k] then |r| - 1 else k
  }

  datatype PerfSummary = PerfSummary(
    totalStocks: nat,
    avgReturn: real,
    totalReturn: real,
    maxReturn: real,
    minReturn: real,
    positiveCount: nat,
    successRate: real,
    best: Outcome,
    worst: Outcome)

  /** The best position holds the largest return and the worst position
      the smallest. */
  lemma Extremes(r: seq<real>)
    requires r != []
    ensures r[BestIndex(r)] == Max(r) && r[WorstIndex(r)] == Min(r)
  {
    MaxIsUpperBound(r);
    var j :| 0 <= j < |r| && r[j] == Max(r);
    assert r[j] <= r[BestIndex(r)];
    MinIsLowerBound(r);
    var k :| 0 <= k < |r| && r[k] == Min(r);
    assert r[WorstIndex(r)] <= r[k];
  }

  /** A count out of a positive total, as a percentage, lies in [0, 100]. */
  lemma PercentBound(c: nat, n: nat)
    requires 0 < n && c <= n
    ensures 0.0 <= c as real / n as real * 100.0 <= 100.0
  {
    assert c as real / n as real * n as real == c as real;
  }

  /** The summary of the outcomes: none without outcomes; otherwise the
      total return is the sum of the returns and the average its share per
      stock, the best and worst outcomes carry the largest and smallest
      return, and the success rate is the percentage of positive returns. */
  function SummaryOf(o: seq<Outcome>, total: real): (s: Option<PerfSummary>)
    requires total == Sum(Returns(o))
    ensures s.None? <==> o == []
    ensures s.Some? ==>
              var m := s.value;
              m.totalStocks == |o| && m.totalReturn == Sum(Returns(o))
              && m.avgReturn == m.totalReturn / |o| as real
              && m.minReturn <= m.avgReturn <= m.maxReturn
              && m.best in o && m.worst in o
              && m.best.returnPct == m.maxReturn && m.worst.returnPct == m.minReturn
              && m.positiveCount == CountPositive(Returns(o)) <= m.totalStocks
              && 0.0 <= m.successRate <= 100.0
  {
    if o == [] then None
    else
      var r := Returns(o);
      var b, w := BestIndex(r), WorstIndex(r);
      Extremes(r);
      assert o[b] in o && o[w] in o;
      assert o[b].returnPct == r[b] && o[w].returnPct == r[w];
      PercentBound(CountPositive(r), |o|);
      AverageBetween(r);
      Some(PerfSummary(|o|, total / |o| as real, total, Max(r), Min(r), CountPositive(r),
                       CountPositive(r) as real / |o| as real * 100.0, o[b], o[w]))
  }

  /** Every return lies between the worst and the best. */
  lemma SummaryRange(o: seq<Outcome>)
    requires o != []
    ensures var m := SummaryOf(o, Sum(Returns(o))).value;
            forall i :: 0 <= i < |o| ==> m.minReturn <= o[i].returnPct <= m.maxReturn
  {
    var r := Returns(o);
    MaxIsUpperBound(r);
    MinIsLowerBound(r);
    assert forall i :: 0 <= i < |o| ==> o[i].returnPct == r[i];
  }

  datatype Performance = Performance(date: int, outcomes: seq<Outcome>, summary: Option<PerfSummary>)

  /** `calculate_performance`: the loop that collects the outcomes and
      accumulates the total return, then the summary. */
  method CalculatePerformance(recs: seq<StockFilter.Stock>, nextDate: int, history: (string, int) -> Option<seq<Bar>>)
    returns (p: Performance)
    requires forall i :: 0 <= i < |recs| ==> PricePositive(recs[i])
    ensures p.date == nextDate && p.outcomes == Outcomes(recs, nextDate, history)
    ensures p.summary == SummaryOf(p.outcomes, Sum(Returns(p.outcomes)))
  {
    var results: seq<Outcome> := [];
    var total := 0.0;
    for i := 0 to |recs|
      invariant results == Outcomes(recs[..i], nextDate, history)
      invariant total == Sum(Returns(results))
    {
      var x := recs[i];
      assert PricePositive(x);
      assert recs[..i + 1][..i] == recs[..i];
      var next := HistoricalDataForDate(x.code, history(x.code, nextDate), nextDate);
      if next.Some? {
        var ret := (next.value.price as real / x.price.x - 1.0) * 100.0;
        assert Returns(results + [Outcome(x.rank, x.code, x.price.x, next.value.price as real, ret)])[..|results|]
               == Returns(results);
        results := results + [Outcome(x.rank, x.code, x.price.x, next.value.price as real, ret)];
        total := total + ret;
      }
    }
    assert recs[..|recs|] == recs;
    p := Performance(nextDate, results, SummaryOf(results, total));
  }

  /** Every outcome belongs to a recommendation, keeps its rank and price,
      and is a gain exactly when the next price is above the original. */
  lemma {:induction false} OutcomesFacts(recs: seq<StockFilter.Stock>, nextDate: int, history: (string, int) -> Option<seq<Bar>>)
    requires forall i :: 0 <= i < |recs| ==> PricePositive(recs[i])
    ensures forall k :: 0 <= k < |Outcomes(recs, nextDate, history)| ==>
              var o := Outcomes(recs, nextDate, history)[k];
              (o.returnPct > 0.0 <==> o.nextPrice > o.originalPrice)
              && exists i :: 0 <= i < |recs| && recs[i].code == o.code && recs[i].rank == o.rank
                             && recs[i].price == Num(o.originalPrice)
  {
    if recs != [] {
      var init := recs[..|recs| - 1];
      OutcomesFacts(init, nextDate, history);
      var out := Outcomes(recs, nextDate, history);
      forall k | 0 <= k < |Outcomes(init, nextDate, history)|
        ensures exists i :: 0 <= i < |recs| && recs[i].code == out[k].code && recs[i].rank == out[k].rank
                            && recs[i].price == Num(out[k].originalPrice)
      {
        var i :| 0 <= i < |init| && init[i].code == out[k].code && init[i].rank == out[k].rank
                 && init[i].price == Num(out[k].originalPrice);
        assert recs[i] == init[i];
      }
      var x := recs[|recs| - 1];
      assert PricePositive(x);
      if |out| > |Outcomes(init, nextDate, history)| {
        var last := out[|out| - 1];
        GainIffHigher(last.originalPrice, last.nextPrice);
      }
    }
  }

  // ---------------------------------------------------------------------
  // Conclusion

  /** The overall rating: 优秀 (excellent), 良好 (good), 需改进 (needs
      improvement). */
  datatype Rating = Excellent | Good | NeedsImprovement

  function RatingText(r: Rating): string {
    match r
    case Excellent => "优秀"
    case Good => "良好"
    case NeedsImprovement => "需改进"
  }

  datatype Conclusion =
    | Failed
    | Concluded(overall: Rating, effective: bool, successRate: real, avgReturn: real,
                bestCode: string, bestReturn: real, totalStocks: nat, positiveCount: nat)

  /** `_generate_conclusion`: failed without a summary; otherwise the
      rating by average return (above 2, above 0, else) and the strategy
      is effective (有效, else 需优化) when the average return is positive
      and more than half of the picks rose. */
  function GenerateConclusion(summary: Option<PerfSummary>): (c: Conclusion)
    ensures c.Failed? <==> summary.None?
    ensures c.Concluded? ==>
              var m := summary.value;
              (c.overall == Excellent <==> m.avgReturn > 2.0)
              && (c.overall == Good <==> 0.0 < m.avgReturn <= 2.0)
              && (c.overall == NeedsImprovement <==> m.avgReturn <= 0.0)
              && (c.effective <==> m.avgReturn > 0.0 && m.successRate > 50.0)
              && c.bestCode == m.best.code && c.bestReturn == m.best.returnPct
  {
    match summary
    case None => Failed
    case Some(m) =>
      Concluded(if m.avgReturn > 2.0 then Excellent else if m.avgReturn > 0.0 then Good else NeedsImprovement,
                m.avgReturn > 0.0 && m.successRate > 50.0,
                m.successRate, m.avgReturn, m.best.code, m.best.returnPct, m.totalStocks, m.positiveCount)
  }

  /** An effective strategy never needs improvement, and a rating of
      excellent or good means that on average the picks rose. */
  lemma ConclusionConsistent(o: seq<Outcome>)
    requires GenerateConclusion(SummaryOf(o, Sum(Returns(o)))).Concluded?
    ensures var c := GenerateConclusion(SummaryOf(o, Sum(Returns(o))));
            (c.effective ==> c.overall != NeedsImprovement)
            && (c.overall != NeedsImprovement ==> Sum(Returns(o)) > 0.0)
  {
    var m := SummaryOf(o, Sum(Returns(o))).value;
    PositiveShare(Sum(Returns(o)), |o|);
  }

  /** A share of a total over a positive count is positive exactly when the
      total is. */
  lemma PositiveShare(total: real, n: nat)
    requires 0 < n
    ensures total / n as real > 0.0 <==> total > 0.0
  {
    assert total / n as real * n as real == total;
  }

  // ---------------------------------------------------------------------
  // Backtest

  datatype Report = Report(analysisDate: int, performanceDate: int, analysis: Analysis,
                           performance: Performance, conclusion: Conclusion)

  /** `run_backtest`: nothing when the simulated analysis found no record
      or selected no stock; otherwise the next-day performance of the
      selection and its conclusion. */
  method RunBacktest(analysisDate: int, nextDate: int, history: (string, int) -> Option<seq<Bar>>)
    returns (r: Option<Report>)
    ensures r.None? <==> SimulateAnalysis(analysisDate, None, history).None?
                         || SimulateAnalysis(analysisDate, None, history).value.selected == []
    ensures r.Some? ==>
              r.value.analysis == SimulateAnalysis(analysisDate, None, history).value
              && r.value.analysisDate == analysisDate && r.value.performanceDate == nextDate
              && r.value.performance.date == nextDate
              && r.value.performance.outcomes == Outcomes(r.value.analysis.selected, nextDate, history)
              && r.value.performance.summary
                 == SummaryOf(r.value.performance.outcomes, Sum(Returns(r.value.performance.outcomes)))
              && r.value.conclusion == GenerateConclusion(r.value.performance.summary)
  {
    var analysis := SimulateAnalysisForDate(analysisDate, None, history);
    if analysis.None? || analysis.value.selected == [] {
      return None;
    }
    var performance := CalculatePerformance(analysis.value.selected, nextDate, history);
    r := Some(Report(analysisDate, nextDate, analysis.value, performance, GenerateConclusion(performance.summary)));
  }
}
