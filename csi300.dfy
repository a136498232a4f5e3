/** The full CSI 300 analysis: every constituent's quote is fetched, the
    stocks whose trailing PE lies in (0, 30] are scored on four factors
    (day change, PE, volume, price), the three best are selected and the
    market is summarised. Quote payloads and the order in which the
    parallel fetches complete are inputs. */
module Csi300 {
  import opened Common
  import opened Lists

  /** The record `get_single_stock_data` returns. */
  datatype CsiStock = CsiStock(
    code: string,
    name: string,
    price: real,
    changePct: real,
    peTtm: Option<real>,
    volume: int)

  // ---------------------------------------------------------------------
  // Constituents

  /** The fallback constituent list used when the index service fails:
      thirty entries, in which China Merchants Bank appears twice. */
  const BackupCodes: seq<string> := [
    "600036", "000001", "601398", "601318", "000002", "600519",
    "000858", "002415", "300059", "300750", "002594", "600887",
    "000725", "600028", "600104", "601012", "000063", "002230",
    "600000", "002142", "002736", "600009", "600050", "600570",
    "601688", "002352", "601166", "600015", "600036", "601988"]

  /** The constituents: the index service's list when it answers (which
      may be empty), the fallback list when it raises. */
  function Constituents(listed: Option<seq<string>>): (codes: seq<string>)
    ensures listed.Some? ==> codes == listed.value
    ensures listed.None? ==> |codes| == 30 && !NoDup(codes)
  {
    BackupRepeats600036();
    if listed.Some? then listed.value else BackupCodes[..30]
  }

  /** The fallback list holds 30 codes and names code 600036 at positions
      0 and 28, so the analysis fetches that stock twice. */
  lemma BackupRepeats600036()
    ensures |BackupCodes| == 30
    ensures BackupCodes[0] == BackupCodes[28] == "600036"
    ensures !NoDup(BackupCodes[..30])
  {
    assert BackupCodes[..30][0] == BackupCodes[..30][28];
  }

  // ---------------------------------------------------------------------
  // Quotes

  /** The quote parse: more than 39 fields, price, change and volume empty
      or parseable; the PE is field 39 when it parses and is positive. A
      field that does not parse raises, and the stock is dropped. */
  function ParseCsi(code: string, content: Option<seq<Field>>): (r: Option<CsiStock>)
    ensures r.Some? <==> content.Some? && |content.value| > 39
                          && FloatOrZero(content.value[3]).Some? && FloatOrZero(content.value[32]).Some?
                          && FloatOrZero(content.value[6]).Some?
    ensures r.Some? ==> r.value.code == code && r.value.name == content.value[1].text
    ensures r.Some? ==> (r.value.peTtm.Some? <==> OptFloat(content.value[39]).Some? && content.value[39].asFloat.value > 0.0)
    ensures r.Some? && r.value.peTtm.Some? ==> r.value.peTtm == content.value[39].asFloat && r.value.peTtm.value > 0.0
    ensures r.Some? && content.value[6].text == [] ==> r.value.volume == 0
    ensures r.Some? ==> r.value.price == FloatOrZero(content.value[3]).value
                        && r.value.changePct == FloatOrZero(content.value[32]).value
                        && r.value.volume == TruncToInt(FloatOrZero(content.value[6]).value)
  {
    match content
    case None => None
    case Some(parts) =>
      if |parts| <= 39 then None
      else
        var price := FloatOrZero(parts[3]);
        var change := FloatOrZero(parts[32]);
        var volume := FloatOrZero(parts[6]);
        if price.None? || change.None? || volume.None? then None
        else
          var pe := OptFloat(parts[39]);
          Some(CsiStock(code, parts[1].text, price.value, change.value,
                        if pe.Some? && pe.value > 0.0 then pe else None,
                        TruncToInt(volume.value)))
  }

  /** The values of the present entries, in order. */
  function Somes<T>(s: seq<Option<T>>): (r: seq<T>)
    ensures |r| <= |s|
  {
    if s == [] then []
    else Somes(s[..|s| - 1]) + (if s[|s| - 1].Some? then [s[|s| - 1].value] else [])
  }

  lemma {:induction false} SomesMembers<T>(s: seq<Option<T>>)
    ensures forall x :: x in Somes(s) <==> Some(x) in s
  {
    if s != [] {
      SomesMembers(s[..|s| - 1]);
      assert s == s[..|s| - 1] + [s[|s| - 1]];
    }
  }

  /** The parse results in completion order: `order[j]` is the position in
      the constituent list of the `j`-th fetch to complete, and
      `payloads(i)` what the fetch of position `i` read. */
  function Completed(codes: seq<string>, payloads: nat -> Option<seq<Field>>, order: seq<nat>): seq<Option<CsiStock>>
    requires forall j :: 0 <= j < |order| ==> order[j] < |codes|
  {
    seq(|order|, j requires 0 <= j < |order| => ParseCsi(codes[order[j]], payloads(order[j])))
  }

  /** Whatever the completion order, a record is among the completed
      results exactly when some constituent's payload parses to it. */
  lemma CompletedMembers(codes: seq<string>, payloads: nat -> Option<seq<Field>>, order: seq<nat>)
    requires forall j :: 0 <= j < |order| ==> order[j] < |codes|
    requires forall i :: 0 <= i < |codes| ==> i in order
    ensures forall x :: x in Somes(Completed(codes, payloads, order)) <==>
              exists i :: 0 <= i < |codes| && ParseCsi(codes[i], payloads(i)) == Some(x)
  {
    var done := Completed(codes, payloads, order);
    SomesMembers(done);
    forall x ensures x in Somes(done) <==> exists i :: 0 <= i < |codes| && ParseCsi(codes[i], payloads(i)) == Some(x) {
      if x in Somes(done) {
        var k :| 0 <= k < |done| && done[k] == Some(x);
        assert ParseCsi(codes[order[k]], payloads(order[k])) == Some(x);
      }
      if exists i :: 0 <= i < |codes| && ParseCsi(codes[i], payloads(i)) == Some(x) {
        var i :| 0 <= i < |codes| && ParseCsi(codes[i], payloads(i)) == Some(x);
        assert i in order;
        var k :| 0 <= k < |order| && order[k] == i;
        assert done[k] == Some(x);
      }
    }
  }

  /** `get_stocks_data_parallel`: collects the fetched records as the
      fetches complete, dropping the failed ones. */
  method GetStocksDataParallel(codes: seq<string>, payloads: nat -> Option<seq<Field>>, order: seq<nat>)
    returns (results: seq<CsiStock>)
    requires forall j :: 0 <= j < |order| ==> order[j] < |codes|
    requires forall i :: 0 <= i < |codes| ==> i in order
    ensures results == Somes(Completed(codes, payloads, order))
    ensures forall x :: x in results <==>
              exists i :: 0 <= i < |codes| && ParseCsi(codes[i], payloads(i)) == Some(x)
  {
    var done := Completed(codes, payloads, order);
    results := [];
    var j := 0;
    while j < |order|
      invariant j <= |order|
      invariant results == Somes(done[..j])
    {
      var r := ParseCsi(codes[order[j]], payloads(order[j]));
      assert done[..j + 1][..j] == done[..j];
      if r.Some? {
        results := results + [r.value];
      }
      j := j + 1;
    }
    assert done[..j] == done;
    CompletedMembers(codes, payloads, order);
  }

  // ---------------------------------------------------------------------
  // PE screen

  /** `pe and pe > 0 and pe <= 30`. */
  predicate PePassed(x: CsiStock) {
    x.peTtm.Some? && x.peTtm.value != 0.0 && 0.0 < x.peTtm.value <= 30.0
  }

  /** Not passed, and `pe is None or pe <= 0`. */
  predicate LossMaking(x: CsiStock) {
    !PePassed(x) && (x.peTtm.None? || x.peTtm.value <= 0.0)
  }

  /** Not passed, not loss-making, and `pe > 30`. */
  predicate HighPe(x: CsiStock) {
    !PePassed(x) && !LossMaking(x) && x.peTtm.value > 30.0
  }

  function PassGate(): CsiStock -> bool { (x: CsiStock) => PePassed(x) }
  function LossGate(): CsiStock -> bool { (x: CsiStock) => LossMaking(x) }
  function HighGate(): CsiStock -> bool { (x: CsiStock) => HighPe(x) }

  /** The screen loop: each stock goes to the passed, the loss-making or
      the high-PE list, in input order. */
  method PartitionByPe(all: seq<CsiStock>) returns (passed: seq<CsiStock>, loss: seq<CsiStock>, high: seq<CsiStock>)
    ensures passed == Filter(all, PassGate())
    ensures loss == Filter(all, LossGate())
    ensures high == Filter(all, HighGate())
  {
    passed, loss, high := [], [], [];
    for i := 0 to |all|
      invariant passed == Filter(all[..i], PassGate())
      invariant loss == Filter(all[..i], LossGate())
      invariant high == Filter(all[..i], HighGate())
    {
      var x := all[i];
      assert all[..i + 1][..i] == all[..i];
      if PePassed(x) {
        passed := passed + [x];
      } else {
        if x.peTtm.None? || x.peTtm.value <= 0.0 {
          loss := loss + [x];
        } else if x.peTtm.value > 30.0 {
          high := high + [x];
        }
      }
    }
    assert all[..|all|] == all;
  }

  /** The three lists partition the fetched stocks: a stock passes when its
      PE is in (0, 30], is loss-making when it has no PE or a PE of at most
      0, and is high-PE when its PE is above 30; the three lists together
      are as long as the input. */
  lemma {:induction false} PartitionSizes(all: seq<CsiStock>)
    ensures |Filter(all, PassGate())| + |Filter(all, LossGate())| + |Filter(all, HighGate())| == |all|
    ensures forall x :: PePassed(x) <==> x.peTtm.Some? && 0.0 < x.peTtm.value <= 30.0
    ensures forall x :: LossMaking(x) <==> x.peTtm.None? || x.peTtm.value <= 0.0
    ensures forall x :: HighPe(x) <==> x.peTtm.Some? && x.peTtm.value > 30.0
  {
    if all != [] {
      PartitionSizes(all[..|all| - 1]);
    }
  }

  // ---------------------------------------------------------------------
  // Four-factor score

  /** Day-change points: 35 above 3 %, down in steps to 5 above -3 %. */
  function ChangePoints(c: real): (p: nat)
    ensures p <= 35
    ensures p == 0 <==> c <= -3.0
    ensures p == 35 <==> c > 3.0
  {
    if c > 3.0 then 35
    else if c > 2.0 then 30
    else if c > 1.0 then 25
    else if c > 0.0 then 20
    else if c > -1.0 then 15
    else if c > -2.0 then 10
    else if c > -3.0 then 5
    else 0
  }

  /** PE points: 30 at a PE of at most 8, down in steps to 5 at most 30. */
  function PePoints(pe: real): (p: nat)
    ensures p <= 30
    ensures p == 0 <==> pe > 30.0
    ensures p == 30 <==> pe <= 8.0
  {
    if pe <= 8.0 then 30
    else if pe <= 12.0 then 25
    else if pe <= 15.0 then 20
    else if pe <= 20.0 then 15
    else if pe <= 25.0 then 10
    else if pe <= 30.0 then 5
    else 0
  }

  /** Liquidity points: 25 above 100 million shares, down in steps to 5
      above one million. */
  function VolumePoints(v: int): (p: nat)
    ensures p <= 25
    ensures p == 0 <==> v <= 1000000
    ensures p == 25 <==> v > 100000000
  {
    if v > 100000000 then 25
    else if v > 50000000 then 20
    else if v > 20000000 then 15
    else if v > 10000000 then 12
    else if v > 5000000 then 8
    else if v > 1000000 then 5
    else 0
  }

  /** Price points: 10 strictly between 5 and 100, 8 between 3 and 150, 5
      between 1 and 200. */
  function PricePoints(x: real): (p: nat)
    ensures p <= 10
    ensures p == 0 <==> x <= 1.0 || x >= 200.0
    ensures p == 10 <==> 5.0 < x < 100.0
  {
    if 5.0 < x < 100.0 then 10
    else if 3.0 < x < 150.0 then 8
    else if 1.0 < x < 200.0 then 5
    else 0
  }

  /** The score of a screened stock, out of 100; its PE earns it at least 5
      points. */
  function Score(x: CsiStock): (s: int)
    requires PePassed(x)
    ensures 5 <= s <= 100
    ensures s == 100 <==> x.changePct > 3.0 && x.peTtm.value <= 8.0 && x.volume > 100000000 && 5.0 < x.price < 100.0
  {
    ChangePoints(x.changePct) + PePoints(x.peTtm.value) + VolumePoints(x.volume) + PricePoints(x.price)
  }

  /** A larger day change, a larger volume or a smaller PE never lowers a
      stock's score. */
  lemma ScoreMonotone(x: CsiStock, y: CsiStock)
    requires PePassed(x) && PePassed(y) && x.price == y.price
    requires x.changePct <= y.changePct && x.volume <= y.volume && x.peTtm.value >= y.peTtm.value
    ensures Score(x) <= Score(y)
  {
    assert ChangePoints(x.changePct) <= ChangePoints(y.changePct);
    assert PePoints(x.peTtm.value) <= PePoints(y.peTtm.value);
    assert VolumePoints(x.volume) <= VolumePoints(y.volume);
  }

  /** A stock with its score and, for the three selected, its rank. */
  datatype ScoredStock = ScoredStock(stock: CsiStock, score: int, rank: Option<nat>)

  function ScoreKey(): ScoredStock -> int { (s: ScoredStock) => s.score }

  function Scored(passed: seq<CsiStock>): (r: seq<ScoredStock>)
    requires forall i :: 0 <= i < |passed| ==> PePassed(passed[i])
    ensures |r| == |passed|
  {
    seq(|passed|, i requires 0 <= i < |passed| => ScoredStock(passed[i], Score(passed[i]), None))
  }

  /** The scoring loop: every screened stock with its score, in order. */
  method ScoreAll(passed: seq<CsiStock>) returns (scored: seq<ScoredStock>)
    requires forall i :: 0 <= i < |passed| ==> PePassed(passed[i])
    ensures scored == Scored(passed)
  {
    scored := [];
    for i := 0 to |passed|
      invariant scored == Scored(passed[..i])
    {
      scored := scored + [ScoredStock(passed[i], Score(passed[i]), None)];
    }
    assert passed[..|passed|] == passed;
  }

  /** The first three entries of the sorted list get ranks 1, 2 and 3. The
      selected entries are the same records as the first entries of the
      qualified and top-10 lists, so those carry the ranks as well. */
  function Ranked(q: seq<ScoredStock>): (r: seq<ScoredStock>)
    ensures |r| == |q|
  {
    seq(|q|, i requires 0 <= i < |q| => if i < 3 then q[i].(rank := Some(i + 1)) else q[i])
  }

  // ---------------------------------------------------------------------
  // Statistics

  function ChangesOf(s: seq<CsiStock>): (r: seq<real>)
    ensures |r| == |s|
  {
    seq(|s|, i requires 0 <= i < |s| => s[i].changePct)
  }

  /** The positive PEs of the fetched stocks, in order. */
  function PositivePes(s: seq<CsiStock>): seq<real> {
    if s == [] then []
    else
      var x := s[|s| - 1];
      PositivePes(s[..|s| - 1]) + (if x.peTtm.Some? && x.peTtm.value > 0.0 then [x.peTtm.value] else [])
  }

  lemma {:induction false} PositivePesPositive(s: seq<CsiStock>)
    ensures forall i :: 0 <= i < |PositivePes(s)| ==> PositivePes(s)[i] > 0.0
  {
    if s != [] {
      PositivePesPositive(s[..|s| - 1]);
    }
  }

  lemma PositivePesSum(s: seq<CsiStock>)
    ensures Sum(PositivePes(s)) >= 0.0
  {
    var pes := PositivePes(s);
    PositivePesPositive(s);
    if pes != [] {
      MaxIsUpperBound(pes);
      SumBetween(pes, 0.0, Max(pes));
    }
  }

  datatype MarketStats = MarketStats(
    total: nat,
    rising: nat,
    falling: int,
    risingRatio: real,
    avgChange: real,
    avgPe: real)

  lemma RatioBound(part: nat, whole: nat)
    requires part <= whole && whole > 0
    ensures 0.0 <= part as real / whole as real * 100.0 <= 100.0
  {
    assert part as real / whole as real <= 1.0;
  }

  /** Market statistics over the fetched stocks: rising and falling stocks
      add up to the total, the rising ratio is a percentage, the average
      change lies within the range of the changes, and the average PE is that
      of the positive PEs (0 when there are none), so it is not
      negative. */
  function StatsOf(all: seq<CsiStock>): (m: MarketStats)
    requires all != []
    ensures m.total == |all| && m.rising + m.falling == m.total && m.falling >= 0
    ensures m.rising == CountPositive(ChangesOf(all))
    ensures 0.0 <= m.risingRatio <= 100.0
    ensures m.avgPe >= 0.0
    ensures (forall i :: 0 <= i < |all| ==> all[i].changePct > 0.0) ==> m.falling == 0
    ensures Min(ChangesOf(all)) <= m.avgChange <= Max(ChangesOf(all))
  {
    var changes := ChangesOf(all);
    var pos := CountPositive(changes);
    RatioBound(pos, |all|);
    var pes := PositivePes(all);
    PositivePesSum(all);
    AllPositiveCounted(changes);
    AverageBetween(changes);
    MarketStats(|all|, pos, |all| - pos, pos as real / |all| as real * 100.0,
                Sum(changes) / |all| as real,
                if pes != [] then Sum(pes) / |pes| as real else 0.0)
  }

  lemma {:induction false} AllPositiveCounted(s: seq<real>)
    ensures (forall i :: 0 <= i < |s| ==> s[i] > 0.0) ==> CountPositive(s) == |s|
  {
    if s != [] {
      AllPositiveCounted(s[..|s| - 1]);
    }
  }

  datatype Performance = Performance(avgReturn: real, successRate: real, relativeReturn: real)

  /** The strategy's performance on the day: the selected stocks' average
      change, the share of them that rose, and the average change above the
      market's. */
  function PerformanceOf(selected: seq<CsiStock>, marketAvg: real): (p: Performance)
    requires selected != []
    ensures 0.0 <= p.successRate <= 100.0
    ensures p.relativeReturn == p.avgReturn - marketAvg
    ensures p.avgReturn == Sum(ChangesOf(selected)) / |selected| as real
  {
    var changes := ChangesOf(selected);
    RatioBound(CountPositive(changes), |changes|);
    var avg := Sum(changes) / |changes| as real;
    Performance(avg, CountPositive(changes) as real / |changes| as real * 100.0, avg - marketAvg)
  }

  // ---------------------------------------------------------------------
  // The analysis

  datatype Analysis = Analysis(
    totalConstituents: nat,
    successfulFetch: nat,
    peFilteredCount: nat,
    lossCount: nat,
    highPeCount: nat,
    selected: seq<ScoredStock>,
    top10: seq<ScoredStock>,
    qualified: seq<ScoredStock>,
    lossExamples: seq<CsiStock>,
    highPeExamples: seq<CsiStock>,
    stats: MarketStats,
    performance: Performance)

  function Take<T>(s: seq<T>, n: nat): (r: seq<T>)
    ensures |r| == if |s| < n then |s| else n
    ensures r == s[..|r|]
  {
    if |s| < n then s else s[..n]
  }

  function StocksOf(q: seq<ScoredStock>): seq<CsiStock> {
    seq(|q|, i requires 0 <= i < |q| => q[i].stock)
  }

  /** The screened stocks with their scores, sorted best first (stably),
      the first three ranked. */
  function Qualified(passed: seq<CsiStock>): (q: seq<ScoredStock>)
    requires forall i :: 0 <= i < |passed| ==> PePassed(passed[i])
    ensures |q| == |passed|
  {
    SortDescSortedPermutation(Scored(passed), ScoreKey());
    Ranked(SortDesc(Scored(passed), ScoreKey()))
  }

  /** `analyze_csi300_full` after the fetch: nothing when there are no
      constituents, no fetched stock or fewer than three screened stocks;
      otherwise the screened stocks sorted by score (stably, best first),
      the first three selected and ranked, the first ten, examples of the
      rejected stocks and the statistics. */
  function AnalysisOf(constituents: nat, all: seq<CsiStock>): (r: Option<Analysis>)
    ensures r.None? <==> constituents == 0 || all == [] || |Filter(all, PassGate())| < 3
    ensures r.Some? ==> |r.value.selected| == 3
  {
    if constituents == 0 || all == [] then None
    else
      var passed := Filter(all, PassGate());
      if |passed| < 3 then None
      else
        FilterMembers(all, PassGate());
        var qualified := Qualified(passed);
        var selected := qualified[..3];
        var stats := StatsOf(all);
        Some(Analysis(constituents, |all|, |passed|,
                      |Filter(all, LossGate())|, |Filter(all, HighGate())|,
                      selected, Take(qualified, 10), qualified,
                      Take(Filter(all, LossGate()), 10), Take(Filter(all, HighGate()), 10),
                      stats, PerformanceOf(StocksOf(selected), stats.avgChange)))
  }

  /** The analysis as the source runs it: the screen loop, the scoring
      loop, the sort, and the ranking loop over the three selected
      records. */
  method AnalyzeCsi300Full(constituents: nat, all: seq<CsiStock>) returns (r: Option<Analysis>)
    ensures r == AnalysisOf(constituents, all)
  {
    if constituents == 0 || all == [] {
      return None;
    }
    var passed, loss, high := PartitionByPe(all);
    if |passed| < 3 {
      return None;
    }
    FilterMembers(all, PassGate());
    var scored := ScoreAll(passed);
    var qualified := SortDesc(scored, ScoreKey());
    SortDescSortedPermutation(scored, ScoreKey());
    var sorted := qualified;
    for i := 0 to 3
      invariant |qualified| == |sorted|
      invariant forall k :: 0 <= k < |sorted| ==>
                  qualified[k] == if k < i then sorted[k].(rank := Some(k + 1)) else sorted[k]
    {
      qualified := qualified[i := qualified[i].(rank := Some(i + 1))];
    }
    assert qualified == Qualified(passed);
    var selected := qualified[..3];
    var stats := StatsOf(all);
    r := Some(Analysis(constituents, |all|, |passed|, |loss|, |high|,
                       selected, Take(qualified, 10), qualified,
                       Take(loss, 10), Take(high, 10),
                       stats, PerformanceOf(StocksOf(selected), stats.avgChange)));
  }

  /** Every qualified entry is a screened stock with its own score; only
      the first three carry a rank, 1 to 3. */
  lemma QualifiedEntries(passed: seq<CsiStock>)
    requires forall i :: 0 <= i < |passed| ==> PePassed(passed[i])
    ensures forall i :: 0 <= i < |Qualified(passed)| ==>
              var e := Qualified(passed)[i];
              e.stock in passed && e.score == Score(e.stock)
              && e.rank == (if i < 3 then Some(i + 1) else None)
  {
    var scored := Scored(passed);
    var sorted := SortDesc(scored, ScoreKey());
    SortDescSortedPermutation(scored, ScoreKey());
    forall i | 0 <= i < |sorted|
      ensures sorted[i].stock in passed && sorted[i].score == Score(sorted[i].stock) && sorted[i].rank == None
    {
      assert sorted[i] in scored;
      var k :| 0 <= k < |scored| && scored[k] == sorted[i];
    }
  }

  /** The qualified list holds every screened stock, in non-increasing
      score order. */
  lemma QualifiedOrder(passed: seq<CsiStock>)
    requires forall i :: 0 <= i < |passed| ==> PePassed(passed[i])
    ensures forall x :: x in passed ==> x in StocksOf(Qualified(passed))
    ensures NonIncreasing(Qualified(passed), ScoreKey())
  {
    var scored := Scored(passed);
    var sorted := SortDesc(scored, ScoreKey());
    SortDescSortedPermutation(scored, ScoreKey());
    var q := Qualified(passed);
    forall x | x in passed ensures x in StocksOf(q) {
      var k :| 0 <= k < |passed| && passed[k] == x;
      assert scored[k] in sorted;
      var i :| 0 <= i < |sorted| && sorted[i] == scored[k];
      assert StocksOf(q)[i] == x;
    }
    assert forall i :: 0 <= i < |q| ==> q[i].score == sorted[i].score;
  }

  /** What an analysis holds: the screened, loss-making and high-PE counts
      add up to the fetched stocks; the qualified list holds exactly the
      screened stocks with their scores, best first; the selection is its
      first three entries, ranked 1 to 3, and scores at least as much as
      every other qualified stock; the top-10 list is its first ten
      entries. */
  lemma AnalysisFacts(constituents: nat, all: seq<CsiStock>)
    requires AnalysisOf(constituents, all).Some?
    ensures var a := AnalysisOf(constituents, all).value;
            && a.peFilteredCount + a.lossCount + a.highPeCount == a.successfulFetch == |all|
            && a.totalConstituents == constituents
            && |a.qualified| == a.peFilteredCount >= 3
            && a.selected == a.qualified[..3]
            && a.top10 == Take(a.qualified, 10)
            && (forall i :: 0 <= i < |a.qualified| ==>
                  var e := a.qualified[i];
                  PePassed(e.stock) && e.score == Score(e.stock) && e.rank == (if i < 3 then Some(i + 1) else None))
            && (forall x :: x in all && PePassed(x) <==> x in StocksOf(a.qualified))
            && NonIncreasing(a.qualified, ScoreKey())
            && (forall i, j :: 0 <= i < 3 <= j < |a.qualified| ==> a.selected[i].score >= a.qualified[j].score)
  {
    PartitionSizes(all);
    var passed := Filter(all, PassGate());
    FilterMembers(all, PassGate());
    QualifiedEntries(passed);
    QualifiedOrder(passed);
    var q := Qualified(passed);
    forall x | x in StocksOf(q) ensures x in all && PePassed(x) {
      var i :| 0 <= i < |q| && StocksOf(q)[i] == x;
    }
  }

  /** Nothing removes duplicates: a screened stock fetched three times (as
      the fallback list fetches code 600036 twice) fills all three places of
      the selection. */
  lemma DuplicateFillsSelection(x: CsiStock)
    requires PePassed(x)
    ensures AnalysisOf(1, [x, x, x]).Some?
    ensures forall i :: 0 <= i < 3 ==> AnalysisOf(1, [x, x, x]).value.selected[i].stock == x
  {
    var all := [x, x, x];
    FilterAllPass(all, PassGate());
    QualifiedEntries(all);
  }
}
