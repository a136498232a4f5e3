/** The market analyzer (`MarketAnalyzer`): the daily analysis over the
    index constituents, fetched in batches of 100 codes; the summary it
    writes (market sentiment, one recommendation per selected stock, key
    metrics and risk warnings); and the choice of the latest saved analysis
    among the files of the log directory. The constituent list, the quote
    payloads, the histories, the index lines and the directory listing are
    inputs. */
module MarketAnalyzer {
  import opened Common
  import opened Lists
  import opened Bars
  import DataFetcher
  import StockFilter

  // ---------------------------------------------------------------------
  // Market sentiment

  /** 强势上涨, 偏强震荡, 震荡整理, 偏弱调整, 弱势下跌. */
  datatype Sentiment = StrongRise | LeaningStrong | Consolidating | LeaningWeak | WeakDecline

  function SentimentText(s: Sentiment): string {
    match s
    case StrongRise => "强势上涨"
    case LeaningStrong => "偏强震荡"
    case Consolidating => "震荡整理"
    case LeaningWeak => "偏弱调整"
    case WeakDecline => "弱势下跌"
  }

  /** How strong a sentiment is, 4 for the strongest. */
  function Strength(s: Sentiment): nat {
    match s
    case StrongRise => 4
    case LeaningStrong => 3
    case Consolidating => 2
    case LeaningWeak => 1
    case WeakDecline => 0
  }

  /** `_analyze_market_sentiment`: the first rule that holds, in order. */
  function MarketSentiment(ratio: real, avg: real): (s: Sentiment)
    ensures s == StrongRise <==> ratio > 70.0 && avg > 1.0
    ensures s == LeaningStrong <==> ratio > 60.0 && avg > 0.5 && !(ratio > 70.0 && avg > 1.0)
    ensures s == Consolidating <==> ratio > 40.0 && !(ratio > 60.0 && avg > 0.5)
    ensures s == LeaningWeak <==> 30.0 < ratio <= 40.0
    ensures s == WeakDecline <==> ratio <= 30.0
  {
    if ratio > 70.0 && avg > 1.0 then StrongRise
    else if ratio > 60.0 && avg > 0.5 then LeaningStrong
    else if ratio > 40.0 then Consolidating
    else if ratio > 30.0 then LeaningWeak
    else WeakDecline
  }

  /** A market with a higher rising ratio and a higher average change never
      reads weaker. */
  lemma SentimentMonotone(r1: real, a1: real, r2: real, a2: real)
    requires r1 <= r2 && a1 <= a2
    ensures Strength(MarketSentiment(r1, a1)) <= Strength(MarketSentiment(r2, a2))
  {
    var s1, s2 := MarketSentiment(r1, a1), MarketSentiment(r2, a2);
    if s1 == StrongRise {
      assert s2 == StrongRise;
    } else if s1 == LeaningStrong {
      assert r2 > 60.0 && a2 > 0.5;
    } else if s1 == Consolidating {
      assert r2 > 40.0;
    } else if s1 == LeaningWeak {
      assert r2 > 30.0;
    }
  }

  /** The overview of the synchronous fetcher estimates a rising ratio of
      at most 70, so the analyzer never reads 强势上涨 from it; without index
      data the fixed ratio of 45 reads 震荡整理. */
  lemma OverviewNeverStrongRise(indexLines: Option<seq<Line>>, listed: nat)
    ensures var o := DataFetcher.MarketOverview(indexLines, listed);
            MarketSentiment(o.risingRatio, o.avgChange) != StrongRise
            && (!o.estimated ==> MarketSentiment(o.risingRatio, o.avgChange) == Consolidating)
  {
  }

  // ---------------------------------------------------------------------
  // The summary

  /** One entry of `stock_recommendations`. An absent rank or score reads
      as 0; the other fields are copied as the record holds them. */
  datatype Recommendation = Recommendation(rank: nat, code: string, price: Val, changePct: Val,
                                           peRatio: Val, momentum20d: Val, strengthScore: int)

  function RecommendationOf(x: StockFilter.Stock): Recommendation {
    Recommendation(if x.rank.Some? then x.rank.value else 0, x.code, x.price, x.changePct, x.peRatio,
                   x.momentum20d, if x.strength.Some? then x.strength.value.total else 0)
  }

  /** A number read with `.get(key, 0)` from a key that does not hold
      `None`. */
  function NumOr0(v: Val): real {
    if v.Num? then v.x else 0.0
  }

  /** Reading the key metrics raises TypeError (and the summary is `{}`)
      when a price, PE or momentum holds `None`. */
  predicate MetricsRaise(x: StockFilter.Stock) {
    x.price.Null? || x.peRatio.Null? || x.momentum20d.Null?
  }

  function Prices(s: seq<StockFilter.Stock>): (r: seq<real>)
    ensures |r| == |s|
  {
    seq(|s|, i requires 0 <= i < |s| => NumOr0(s[i].price))
  }

  function Momentums(s: seq<StockFilter.Stock>): (r: seq<real>)
    ensures |r| == |s|
  {
    seq(|s|, i requires 0 <= i < |s| => NumOr0(s[i].momentum20d))
  }

  /** The positive PEs, in order. */
  function PositivePes(s: seq<StockFilter.Stock>): seq<real> {
    if s == [] then []
    else
      var pe := NumOr0(s[|s| - 1].peRatio);
      PositivePes(s[..|s| - 1]) + (if pe > 0.0 then [pe] else [])
  }

  /** The list holds exactly the positive PEs of the records, so it is empty
      exactly when no record has a positive PE. */
  lemma {:induction false} PositivePesFacts(s: seq<StockFilter.Stock>)
    ensures forall k :: 0 <= k < |PositivePes(s)| ==> PositivePes(s)[k] > 0.0
    ensures forall i :: 0 <= i < |s| && NumOr0(s[i].peRatio) > 0.0 ==> NumOr0(s[i].peRatio) in PositivePes(s)
    ensures forall v :: v in PositivePes(s) ==> exists i :: 0 <= i < |s| && NumOr0(s[i].peRatio) == v
  {
    if s != [] {
      var init := s[..|s| - 1];
      PositivePesFacts(init);
      forall v | v in PositivePes(s) ensures exists i :: 0 <= i < |s| && NumOr0(s[i].peRatio) == v {
        if v in PositivePes(init) {
          var i :| 0 <= i < |init| && NumOr0(init[i].peRatio) == v;
          assert s[i] == init[i];
        } else {
          assert NumOr0(s[|s| - 1].peRatio) == v;
        }
      }
      forall i | 0 <= i < |s| && NumOr0(s[i].peRatio) > 0.0 ensures NumOr0(s[i].peRatio) in PositivePes(s) {
        if i < |init| {
          assert s[i] == init[i];
        }
      }
    }
  }

  /** `key_metrics`: the average price, PE and momentum, and the price and
      PE ranges (`f"{min} - {max}"` as a pair); the PE figures use only the
      positive PEs, with average 0 and range "N/A" (`None`) when there are
      none. */
  datatype KeyMetrics = KeyMetrics(avgPrice: real, avgPe: real, avgMomentum: real,
                                   priceRange: (real, real), peRange: Option<(real, real)>)

  function KeyMetricsOf(s: seq<StockFilter.Stock>): KeyMetrics
    requires s != []
  {
    var prices, pes := Prices(s), PositivePes(s);
    KeyMetrics(Sum(prices) / |prices| as real,
               if pes != [] then Sum(pes) / |pes| as real else 0.0,
               Sum(Momentums(s)) / |s| as real,
               (Min(prices), Max(prices)),
               if pes != [] then Some((Min(pes), Max(pes))) else None)
  }

  /** The average price lies in the price range, which spans every price
      and is made of prices; the PE range is "N/A" exactly when no PE is
      positive (the average PE is 0 then), and otherwise it is positive,
      holds the average PE and spans every positive PE. */
  lemma KeyMetricsFacts(s: seq<StockFilter.Stock>)
    requires s != []
    ensures var m := KeyMetricsOf(s);
            m.priceRange.0 <= m.avgPrice <= m.priceRange.1
            && (forall i :: 0 <= i < |s| ==> m.priceRange.0 <= NumOr0(s[i].price) <= m.priceRange.1)
            && m.priceRange.0 in Prices(s) && m.priceRange.1 in Prices(s)
    ensures var m := KeyMetricsOf(s);
            (m.peRange.None? <==> forall i :: 0 <= i < |s| ==> NumOr0(s[i].peRatio) <= 0.0)
            && (m.peRange.None? ==> m.avgPe == 0.0)
            && (m.peRange.Some? ==> 0.0 < m.peRange.value.0 <= m.avgPe <= m.peRange.value.1)
            && (m.peRange.Some? ==>
                  forall i :: 0 <= i < |s| && NumOr0(s[i].peRatio) > 0.0 ==>
                    m.peRange.value.0 <= NumOr0(s[i].peRatio) <= m.peRange.value.1)
  {
    var prices, pes := Prices(s), PositivePes(s);
    AverageBetween(prices);
    MinIsLowerBound(prices);
    MaxIsUpperBound(prices);
    assert forall i :: 0 <= i < |s| ==> prices[i] == NumOr0(s[i].price);
    PositivePesFacts(s);
    if pes != [] {
      AverageBetween(pes);
      MinIsLowerBound(pes);
      MaxIsUpperBound(pes);
      var v := pes[0];
      assert v in pes;
      var j :| 0 <= j < |s| && NumOr0(s[j].peRatio) == v;
    }
  }

  /** 市场整体表现较弱，注意控制仓位 and 部分推荐股票PE较高，注意估值风险. */
  datatype Warning = WeakMarket | HighPe

  function WarningText(w: Warning): string {
    match w
    case WeakMarket => "市场整体表现较弱，注意控制仓位"
    case HighPe => "部分推荐股票PE较高，注意估值风险"
  }

  /** The risk warnings: the weak-market one exactly when the rising ratio
      is below 30, the valuation one exactly when some selected stock has a
      PE above 25, in that order and each at most once. */
  function RiskWarnings(s: seq<StockFilter.Stock>, ratio: real): (w: seq<Warning>)
    ensures WeakMarket in w <==> ratio < 30.0
    ensures HighPe in w <==> exists i :: 0 <= i < |s| && NumOr0(s[i].peRatio) > 25.0
    ensures |w| <= 2 && NoDup(w) && (|w| == 2 ==> w[0] == WeakMarket)
  {
    (if ratio < 30.0 then [WeakMarket] else [])
    + (if exists i :: 0 <= i < |s| && NumOr0(s[i].peRatio) > 25.0 then [HighPe] else [])
  }

  datatype Summary = Summary(sentiment: Sentiment, recommendations: seq<Recommendation>,
                             warnings: seq<Warning>, keyMetrics: Option<KeyMetrics>)

  predicate SomeMetricsRaise(s: seq<StockFilter.Stock>) {
    exists i :: 0 <= i < |s| && MetricsRaise(s[i])
  }

  /** One recommendation per selected stock, in order. */
  function Recommendations(s: seq<StockFilter.Stock>): (r: seq<Recommendation>)
    ensures |r| == |s|
    ensures forall i :: 0 <= i < |s| ==> r[i] == RecommendationOf(s[i])
  {
    seq(|s|, i requires 0 <= i < |s| => RecommendationOf(s[i]))
  }

  /** `_generate_analysis_summary`: `{}` (here `None`) when reading the
      metrics raises; otherwise the sentiment of the overview, one
      recommendation per selected stock in order, the key metrics when the
      selection is not empty, and the risk warnings. */
  function AnalysisSummary(s: seq<StockFilter.Stock>, ratio: real, avg: real): (r: Option<Summary>)
    ensures r.None? <==> SomeMetricsRaise(s)
    ensures r.Some? ==>
              var m := r.value;
              m.sentiment == MarketSentiment(ratio, avg)
              && m.recommendations == Recommendations(s)
              && (m.keyMetrics.Some? <==> s != [])
              && (m.keyMetrics.Some? ==> m.keyMetrics.value == KeyMetricsOf(s))
              && m.warnings == RiskWarnings(s, ratio)
  {
    if SomeMetricsRaise(s) then None
    else
      Some(Summary(MarketSentiment(ratio, avg), Recommendations(s), RiskWarnings(s, ratio),
                   if s != [] then Some(KeyMetricsOf(s)) else None))
  }

  /** The summary loop over the selected stocks, then the metrics and the
      warnings. */
  method GenerateAnalysisSummary(s: seq<StockFilter.Stock>, ratio: real, avg: real) returns (r: Option<Summary>)
    ensures r == AnalysisSummary(s, ratio, avg)
  {
    var recs: seq<Recommendation> := [];
    for i := 0 to |s|
      invariant |recs| == i
      invariant forall k :: 0 <= k < i ==> recs[k] == RecommendationOf(s[k])
    {
      recs := recs + [RecommendationOf(s[i])];
    }
    assert recs == Recommendations(s);
    if SomeMetricsRaise(s) {
      return None;
    }
    var metrics := if s != [] then Some(KeyMetricsOf(s)) else None;
    r := Some(Summary(MarketSentiment(ratio, avg), recs, RiskWarnings(s, ratio), metrics));
  }

  /** A valuation warning comes with a PE range whose top is above 25. */
  lemma HighPeShowsInRange(s: seq<StockFilter.Stock>, ratio: real, avg: real)
    requires AnalysisSummary(s, ratio, avg).Some?
    requires HighPe in AnalysisSummary(s, ratio, avg).value.warnings
    ensures var m := AnalysisSummary(s, ratio, avg).value.keyMetrics;
            m.Some? && m.value.peRange.Some? && m.value.peRange.value.1 > 25.0
  {
    var i :| 0 <= i < |s| && NumOr0(s[i].peRatio) > 25.0;
    KeyMetricsFacts(s);
    assert NumOr0(s[i].peRatio) > 0.0;
  }

  // ---------------------------------------------------------------------
  // The latest saved analysis

  /** Python's `<` on strings: lexicographic order by code point. */
  predicate LexLess(a: string, b: string) {
    if a == [] then b != []
    else if b == [] then false
    else if a[0] != b[0] then a[0] < b[0]
    else LexLess(a[1..], b[1..])
  }

  lemma {:induction false} LexIrreflexive(a: string)
    ensures !LexLess(a, a)
  {
    if a != [] {
      LexIrreflexive(a[1..]);
    }
  }

  lemma {:induction false} LexTransitive(a: string, b: string, c: string)
    requires LexLess(a, b) && LexLess(b, c)
    ensures LexLess(a, c)
  {
    if a != [] && b != [] && c != [] && a[0] == b[0] && b[0] == c[0] {
      LexTransitive(a[1..], b[1..], c[1..]);
    }
  }

  /** Between strings whose first parts have equal lengths, the first parts
      decide, and the second parts break a tie. */
  lemma {:induction false} LexConcat(a1: string, a2: string, b1: string, b2: string)
    requires |a1| == |b1|
    ensures LexLess(a1 + a2, b1 + b2) <==> LexLess(a1, b1) || (a1 == b1 && LexLess(a2, b2))
  {
    if a1 != [] {
      LexConcat(a1[1..], a2, b1[1..], b2);
      assert (a1 + a2)[1..] == a1[1..] + a2;
      assert (b1 + b2)[1..] == b1[1..] + b2;
      if a1[0] == b1[0] && a1[1..] == b1[1..] {
        assert a1 == b1;
      }
    } else {
      assert a1 + a2 == a2 && b1 + b2 == b2;
    }
  }

  predicate AllDigits(s: string) {
    forall i :: 0 <= i < |s| ==> '0' <= s[i] <= '9'
  }

  /** Digit strings of equal length compare as the numbers they denote. */
  lemma {:induction false} LexDigits(a: string, b: string)
    requires |a| == |b| && AllDigits(a) && AllDigits(b)
    ensures LexLess(a, b) <==> DigitsValue(a) < DigitsValue(b)
    ensures a == b <==> DigitsValue(a) == DigitsValue(b)
  {
    if a != [] {
      var a', b' := a[..|a| - 1], b[..|b| - 1];
      var x, y := a[|a| - 1], b[|b| - 1];
      LexDigits(a', b');
      assert a == a' + [x] && b == b' + [y];
      LexConcat(a', [x], b', [y]);
      assert LexLess([x], [y]) <==> x < y by {
        assert [x][1..] == [] && [y][1..] == [];
      }
    }
  }

  /** `f"analysis_{date}_{time}.json"`, the name a saved analysis gets. */
  function AnalysisFileName(date: string, time: string): string {
    "analysis_" + date + "_" + time + ".json"
  }

  /** With eight date digits and six time digits, the names order the
      analyses by when they were saved: the greatest name is the latest
      analysis. */
  lemma FileNamesChronological(d1: string, t1: string, d2: string, t2: string)
    requires |d1| == |d2| == 8 && |t1| == |t2| == 6
    requires AllDigits(d1) && AllDigits(d2) && AllDigits(t1) && AllDigits(t2)
    ensures LexLess(AnalysisFileName(d1, t1), AnalysisFileName(d2, t2)) <==>
              DigitsValue(d1) < DigitsValue(d2) || (DigitsValue(d1) == DigitsValue(d2) && DigitsValue(t1) < DigitsValue(t2))
  {
    var p := "analysis_";
    var r1, r2 := "_" + (t1 + ".json"), "_" + (t2 + ".json");
    assert AnalysisFileName(d1, t1) == p + (d1 + r1);
    assert AnalysisFileName(d2, t2) == p + (d2 + r2);
    LexIrreflexive(p);
    LexConcat(p, d1 + r1, p, d2 + r2);
    LexConcat(d1, r1, d2, r2);
    LexIrreflexive("_");
    LexConcat("_", t1 + ".json", "_", t2 + ".json");
    LexIrreflexive(".json");
    LexConcat(t1, ".json", t2, ".json");
    LexDigits(d1, d2);
    LexDigits(t1, t2);
  }

  predicate StartsWith(s: string, prefix: string) {
    |prefix| <= |s| && s[..|prefix|] == prefix
  }

  predicate EndsWith(s: string, suffix: string) {
    |suffix| <= |s| && s[|s| - |suffix|..] == suffix
  }

  predicate IsAnalysisFile(name: string) {
    StartsWith(name, "analysis_") && EndsWith(name, ".json")
  }

  function AnalysisGate(): string -> bool {
    (name: string) => IsAnalysisFile(name)
  }

  /** `max` over names: the greatest in Python's string order. */
  function Greatest(names: seq<string>): (g: string)
    requires names != []
    ensures g in names
    ensures forall i :: 0 <= i < |names| ==> !LexLess(g, names[i])
  {
    if |names| == 1 then
      LexIrreflexive(names[0]);
      names[0]
    else
      var init := names[..|names| - 1];
      var m := Greatest(init);
      var last := names[|names| - 1];
      assert forall i :: 0 <= i < |init| ==> names[i] == init[i];
      if LexLess(m, last) then
        LexIrreflexive(last);
        assert forall i :: 0 <= i < |init| ==> !LexLess(last, init[i]) by {
          forall i | 0 <= i < |init| ensures !LexLess(last, init[i]) {
            if LexLess(last, init[i]) {
              LexTransitive(m, last, init[i]);
            }
          }
        }
        last
      else
        m
  }

  /** The file `get_latest_analysis` reads: none when the log directory is
      missing or holds no `analysis_*.json` file, otherwise the greatest such
      name. */
  function LatestAnalysisFile(dirExists: bool, names: seq<string>): (f: Option<string>)
    ensures f.None? <==> !dirExists || forall i :: 0 <= i < |names| ==> !IsAnalysisFile(names[i])
    ensures f.Some? ==> f.value in names && IsAnalysisFile(f.value)
    ensures f.Some? ==> forall i :: 0 <= i < |names| && IsAnalysisFile(names[i]) ==> !LexLess(f.value, names[i])
  {
    if !dirExists then None
    else
      var files := Filter(names, AnalysisGate());
      FilterMembers(names, AnalysisGate());
      if files == [] then
        assert forall i :: 0 <= i < |names| ==> !IsAnalysisFile(names[i]) by {
          forall i | 0 <= i < |names| ensures !IsAnalysisFile(names[i]) {
            assert names[i] in names;
          }
        }
        None
      else
        var g := Greatest(files);
        assert forall i :: 0 <= i < |names| && IsAnalysisFile(names[i]) ==> !LexLess(g, names[i]) by {
          forall i | 0 <= i < |names| && IsAnalysisFile(names[i]) ensures !LexLess(g, names[i]) {
            assert names[i] in names;
            var k :| 0 <= k < |files| && files[k] == names[i];
          }
        }
        Some(g)
  }

  /** `get_latest_analysis`: the parsed content of the latest file, or
      nothing when there is none or reading it fails (`read` gives `None`
      then). */
  function GetLatestAnalysis<T>(dirExists: bool, names: seq<string>, read: string -> Option<T>): (r: Option<T>)
    ensures r.Some? ==> LatestAnalysisFile(dirExists, names).Some?
                        && r == read(LatestAnalysisFile(dirExists, names).value)
    ensures LatestAnalysisFile(dirExists, names).None? ==> r.None?
  {
    var f := LatestAnalysisFile(dirExists, names);
    if f.None? then None else read(f.value)
  }

  // ---------------------------------------------------------------------
  // The daily analysis

  const BatchSize: nat := 100

  /** Where the batch starting at `i` ends. */
  function BatchEnd(n: nat, i: nat): (e: nat)
    requires i < n
    ensures i < e <= n && e - i <= BatchSize
  {
    if i + BatchSize < n then i + BatchSize else n
  }

  /** The batches from offset `i` on: `codes[i:i+100]`, `codes[i+100:i+200]`,
      and so on. */
  function BatchesFrom(codes: seq<string>, i: nat): seq<seq<string>>
    requires i <= |codes|
    decreases |codes| - i
  {
    if i == |codes| then [] else [codes[i..BatchEnd(|codes|, i)]] + BatchesFrom(codes, BatchEnd(|codes|, i))
  }

  /** Concatenation from the front. */
  function Concat<T>(ss: seq<seq<T>>): seq<T> {
    if ss == [] then [] else ss[0] + Concat(ss[1..])
  }

  /** The batches are non-empty, hold at most 100 codes each, there are
      `ceil(n / 100)` of them, and together, in order, they are exactly the
      codes. */
  lemma {:induction false} BatchesCover(codes: seq<string>, i: nat)
    requires i <= |codes|
    decreases |codes| - i
    ensures Concat(BatchesFrom(codes, i)) == codes[i..]
    ensures |BatchesFrom(codes, i)| == (|codes| - i + BatchSize - 1) / BatchSize
    ensures forall k :: 0 <= k < |BatchesFrom(codes, i)| ==>
              0 < |BatchesFrom(codes, i)[k]| <= BatchSize
  {
    if i < |codes| {
      var e := BatchEnd(|codes|, i);
      BatchesCover(codes, e);
      var bs := BatchesFrom(codes, i);
      assert bs[1..] == BatchesFrom(codes, e);
      assert codes[i..] == codes[i..e] + codes[e..];
      forall k | 0 <= k < |bs| ensures 0 < |bs[k]| <= BatchSize {
        if k > 0 {
          assert bs[k] == BatchesFrom(codes, e)[k - 1];
        }
      }
    }
  }

  /** `batch_get_stock_data` on one batch, with momentum. */
  function BatchRecords(batch: seq<string>, payloads: nat -> Option<seq<Field>>, history: string -> seq<Close>)
    : seq<DataFetcher.SyncRecord>
  {
    DataFetcher.SyncBatch(batch, payloads, history, true, |batch|)
  }

  lemma {:induction false} SyncBatchLength(codes: seq<string>, payloads: nat -> Option<seq<Field>>,
                                           history: string -> seq<Close>, m: nat)
    requires m <= |codes|
    ensures |DataFetcher.SyncBatch(codes, payloads, history, true, m)| <= m
  {
    if m > 0 {
      SyncBatchLength(codes, payloads, history, m - 1);
    }
  }

  /** The records of the batches from offset `i` on; `payloads(i)` holds
      what the requests of the batch starting at `i` ended with. */
  function CollectedFrom(codes: seq<string>, payloads: nat -> nat -> Option<seq<Field>>,
                         history: string -> seq<Close>, i: nat): seq<DataFetcher.SyncRecord>
    requires i <= |codes|
    decreases |codes| - i
  {
    if i == |codes| then []
    else
      var e := BatchEnd(|codes|, i);
      BatchRecords(codes[i..e], payloads(i), history) + CollectedFrom(codes, payloads, history, e)
  }

  /** One step of the batch run: the records of the batch at `i`, then
      those of the batches after it. */
  lemma CollectedStep(codes: seq<string>, payloads: nat -> nat -> Option<seq<Field>>,
                      history: string -> seq<Close>, i: nat)
    requires i < |codes|
    ensures CollectedFrom(codes, payloads, history, i)
            == BatchRecords(codes[i..BatchEnd(|codes|, i)], payloads(i), history)
               + CollectedFrom(codes, payloads, history, BatchEnd(|codes|, i))
  {
  }

  /** The records of the batches from offset `i` on; none once `i` has
      passed the end, as the loop's offset may. */
  function CollectedPast(codes: seq<string>, payloads: nat -> nat -> Option<seq<Field>>,
                         history: string -> seq<Close>, i: nat): seq<DataFetcher.SyncRecord>
  {
    if i < |codes| then CollectedFrom(codes, payloads, history, i) else []
  }

  /** One pass of the batch loop: the batch at `i`, then everything from
      the next offset, 100 further on. */
  lemma CollectedPastStep(codes: seq<string>, payloads: nat -> nat -> Option<seq<Field>>,
                          history: string -> seq<Close>, i: nat)
    requires i < |codes|
    ensures CollectedPast(codes, payloads, history, i)
            == BatchRecords(codes[i..BatchEnd(|codes|, i)], payloads(i), history)
               + CollectedPast(codes, payloads, history, i + BatchSize)
  {
    CollectedStep(codes, payloads, history, i);
    if i + BatchSize >= |codes| {
      assert BatchEnd(|codes|, i) == |codes|;
    }
  }

  /** A batch yields at most one record per code, so the whole run yields
      at most one per constituent. */
  lemma {:induction false} CollectedAtMostCodes(codes: seq<string>, payloads: nat -> nat -> Option<seq<Field>>,
                                                history: string -> seq<Close>, i: nat)
    requires i <= |codes|
    decreases |codes| - i
    ensures |CollectedFrom(codes, payloads, history, i)| <= |codes| - i
  {
    if i < |codes| {
      var e := BatchEnd(|codes|, i);
      CollectedStep(codes, payloads, history, i);
      CollectedAtMostCodes(codes, payloads, history, e);
      SyncBatchLength(codes[i..e], payloads(i), history, e - i);
    }
  }

  function ToStock(r: DataFetcher.SyncRecord): StockFilter.Stock {
    StockFilter.Stock(r.quote.code, Num(r.quote.price), Num(r.quote.turnover as real), Num(r.quote.changePct),
                      Num(r.momentum20d), if r.quote.peRatio.Some? then Num(r.quote.peRatio.value) else Null,
                      Missing, Missing, Missing, Missing, Missing, Missing, None, None)
  }

  function ToStocks(rs: seq<DataFetcher.SyncRecord>): (r: seq<StockFilter.Stock>)
    ensures |r| == |rs|
    ensures forall i :: 0 <= i < |rs| ==> r[i] == ToStock(rs[i])
  {
    seq(|rs|, i requires 0 <= i < |rs| => ToStock(rs[i]))
  }

  /** What `run_daily_analysis` returns, apart from the date and time
      stamps and the configuration it copies. */
  datatype AnalysisResult = AnalysisResult(overview: DataFetcher.MarketEstimate, selected: seq<StockFilter.Stock>,
                                           totalAnalyzed: nat, summary: Option<Summary>)

  /** `run_daily_analysis`: `{}` (here `None`) when the constituent list
      cannot be fetched or is empty; otherwise the selection over the
      records of all batches, the market overview and the summary.
      `listed` is the count of listed stocks the overview reads. */
  function DailyAnalysis(constituents: Option<seq<string>>, payloads: nat -> nat -> Option<seq<Field>>,
                         history: string -> seq<Close>, indexLines: Option<seq<Line>>, listed: nat)
    : Option<AnalysisResult>
  {
    if constituents.None? || constituents.value == [] then None
    else
      var all := CollectedFrom(constituents.value, payloads, history, 0);
      var selected := StockFilter.SelectTop(StockFilter.DefaultConfig, ToStocks(all));
      var o := DataFetcher.MarketOverview(indexLines, listed);
      Some(AnalysisResult(o, selected, |all|, AnalysisSummary(selected, o.risingRatio, o.avgChange)))
  }

  /** The batch loop: `for i in range(0, len(codes), 100)`. */
  method CollectAll(codes: seq<string>, payloads: nat -> nat -> Option<seq<Field>>, history: string -> seq<Close>)
    returns (all: seq<DataFetcher.SyncRecord>)
    ensures all == CollectedFrom(codes, payloads, history, 0)
  {
    all := [];
    var i := 0;
    while i < |codes|
      invariant all + CollectedPast(codes, payloads, history, i) == CollectedFrom(codes, payloads, history, 0)
      decreases |codes| - i
    {
      var e := BatchEnd(|codes|, i);
      var data := DataFetcher.BatchGetStockData(codes[i..e], payloads(i), history, true);
      CollectedPastStep(codes, payloads, history, i);
      assert all + data + CollectedPast(codes, payloads, history, i + BatchSize)
             == all + CollectedPast(codes, payloads, history, i);
      all := all + data;
      i := i + BatchSize;
    }
    assert all + [] == all;
  }

  method RunDailyAnalysis(constituents: Option<seq<string>>, payloads: nat -> nat -> Option<seq<Field>>,
                          history: string -> seq<Close>, indexLines: Option<seq<Line>>, listed: nat)
    returns (r: Option<AnalysisResult>)
    ensures r == DailyAnalysis(constituents, payloads, history, indexLines, listed)
  {
    if constituents.None? || constituents.value == [] {
      return None;
    }
    var all := CollectAll(constituents.value, payloads, history);
    var selected := StockFilter.SelectTopStocks(StockFilter.DefaultConfig, ToStocks(all));
    var o := DataFetcher.MarketOverview(indexLines, listed);
    var summary := GenerateAnalysisSummary(selected, o.risingRatio, o.avgChange);
    r := Some(AnalysisResult(o, selected, |all|, summary));
  }

  /** The selection holds only records that passed the filters, whose
      price, PE and momentum are numbers: the summary of a daily analysis
      never fails, recommends each selected stock once, and never reads
      强势上涨. At most `max_stocks` stocks are selected out of at most one
      record per constituent. */
  lemma DailyAnalysisFacts(constituents: Option<seq<string>>, payloads: nat -> nat -> Option<seq<Field>>,
                           history: string -> seq<Close>, indexLines: Option<seq<Line>>, listed: nat)
    ensures var r := DailyAnalysis(constituents, payloads, history, indexLines, listed);
            r.None? <==> constituents.None? || constituents.value == []
    ensures var r := DailyAnalysis(constituents, payloads, history, indexLines, listed);
            r.Some? ==>
              |r.value.selected| <= StockFilter.DefaultConfig.maxStocks
              && r.value.totalAnalyzed <= |constituents.value|
              && r.value.summary.Some?
              && |r.value.summary.value.recommendations| == |r.value.selected|
              && r.value.summary.value.sentiment != StrongRise
  {
    if constituents.Some? && constituents.value != [] {
      var all := CollectedFrom(constituents.value, payloads, history, 0);
      var s := ToStocks(all);
      var selected := StockFilter.SelectTop(StockFilter.DefaultConfig, s);
      CollectedAtMostCodes(constituents.value, payloads, history, 0);
      StockFilter.SelectTopProperties(StockFilter.DefaultConfig, s);
      forall i | 0 <= i < |selected| ensures !MetricsRaise(selected[i]) {
        assert StockFilter.Selected(StockFilter.DefaultConfig, selected[i], i);
        assert StockFilter.Plain(selected[i]) in StockFilter.Plains(s);
        var j :| 0 <= j < |s| && StockFilter.Plains(s)[j] == StockFilter.Plain(selected[i]);
        assert selected[i].momentum20d == s[j].momentum20d;
      }
      OverviewNeverStrongRise(indexLines, listed);
    }
  }
}
