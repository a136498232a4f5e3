/** The stock scoring and selection engine (`StockFilter`): a table-driven
    strength score with five bounded components and a letter grade, three
    order-preserving filters, and the pipeline that deduplicates, filters,
    scores, sorts, truncates and ranks the candidates.

    A stock record (a Python `dict`) is a `Stock` value; each numeric key is
    a `Val`, so that an absent key, a key holding `None` and a key holding a
    number are told apart exactly as `dict.get(key, 0)` tells them apart. */
module StockFilter {
  import opened Common
  import opened Lists

  /** The filter's configuration; `DefaultConfig` holds the values the
      application ships with (`STOCK_FILTER_CONFIG`). */
  datatype Config = Config(
    maxPeRatio: real,
    minTurnover: real,
    momentumDays: nat,
    minPrice: real,
    maxStocks: nat,
    minStrengthScore: real)

  const DefaultConfig := Config(30.0, 5000.0, 20, 1.0, 5, 40.0)

  /** Points per dimension: technical (30), valuation (25), profitability
      (30), safety (10) and dividend (5). */
  datatype Breakdown = Breakdown(technical: nat, valuation: nat, profitability: nat, safety: nat, dividend: nat)

  datatype Grade = APlus | A | BPlus | B | C | D

  datatype ScoreResult = ScoreResult(total: int, breakdown: Breakdown, grade: Grade)

  /** A stock record. `code` is "" when the key is absent, `None` or empty
      (all three are false in the deduplication test). `strength` stands for
      the three keys `strength_score_detail`, `strength_score` and
      `strength_grade` that scoring writes; `rank` for the key `rank`. */
  datatype Stock = Stock(
    code: string,
    price: Val,
    turnover: Val,
    changePct: Val,
    momentum20d: Val,
    peRatio: Val,
    pbRatio: Val,
    peg: Val,
    roe: Val,
    profitGrowth: Val,
    debtRatio: Val,
    dividendYield: Val,
    strength: Option<ScoreResult>,
    rank: Option<nat>)

  function Code(x: Stock): string { x.code }

  // ---------------------------------------------------------------------
  // Grades

  /** The least total that earns a grade other than D. */
  function MinScore(g: Grade): int
    requires g != D
  {
    match g
    case APlus => 85
    case A => 75
    case BPlus => 65
    case B => 55
    case C => 45
  }

  /** Position of a grade in the order D < C < B < B+ < A < A+. */
  function GradeRank(g: Grade): nat {
    match g
    case D => 0
    case C => 1
    case B => 2
    case BPlus => 3
    case A => 4
    case APlus => 5
  }

  /** `_get_grade`: the grade is the highest one whose threshold the score
      reaches, and D when it reaches none. */
  function GradeOf(score: int): (g: Grade)
    ensures forall h :: h != D ==> (GradeRank(h) <= GradeRank(g) <==> MinScore(h) <= score)
  {
    if score >= 85 then APlus
    else if score >= 75 then A
    else if score >= 65 then BPlus
    else if score >= 55 then B
    else if score >= 45 then C
    else D
  }

  /** A higher score never earns a lower grade. */
  lemma GradeMonotone(s1: int, s2: int)
    requires s1 <= s2
    ensures GradeRank(GradeOf(s1)) <= GradeRank(GradeOf(s2))
  {
  }

  // ---------------------------------------------------------------------
  // Component step functions

  /** Daily change: 10 / 7 / 4 / 2 points above 5, 2, 0 and -2 percent. */
  function ChangePoints(c: real): (p: nat)
    ensures p <= 10
    ensures p > 0 <==> c > -2.0
  {
    if c > 5.0 then 10 else if c > 2.0 then 7 else if c > 0.0 then 4 else if c > -2.0 then 2 else 0
  }

  /** Twenty-day momentum: 15 / 12 / 8 / 4 points above 15, 10, 5 and 0. */
  function MomentumPoints(m: real): (p: nat)
    ensures p <= 15
    ensures p > 0 <==> m > 0.0
  {
    if m > 15.0 then 15 else if m > 10.0 then 12 else if m > 5.0 then 8 else if m > 0.0 then 4 else 0
  }

  /** Liquidity: 5 / 3 / 1 points above three, two and one times the
      configured minimum turnover. */
  function TurnoverPoints(t: real, minTurnover: real): (p: nat)
    ensures p <= 5
    ensures minTurnover >= 0.0 ==> (p > 0 <==> t > minTurnover)
  {
    if t > minTurnover * 3.0 then 5 else if t > minTurnover * 2.0 then 3 else if t > minTurnover then 1 else 0
  }

  /** PE: 10 / 7 / 4 points in (0,15), [15,25), [25,35); an absent, `None`
      or zero PE is false and scores nothing. */
  function PePoints(v: Val): (p: nat)
    ensures p <= 10
    ensures p > 0 <==> v.Num? && 0.0 < v.x < 35.0
  {
    if Truthy(v) && 0.0 < v.x < 15.0 then 10
    else if Truthy(v) && 15.0 <= v.x < 25.0 then 7
    else if Truthy(v) && 25.0 <= v.x < 35.0 then 4
    else 0
  }

  /** PB: 8 / 5 / 2 points in (0,2), [2,3), [3,5). */
  function PbPoints(v: Val): (p: nat)
    ensures p <= 8
    ensures p > 0 <==> v.Num? && 0.0 < v.x < 5.0
  {
    if Truthy(v) && 0.0 < v.x < 2.0 then 8
    else if Truthy(v) && 2.0 <= v.x < 3.0 then 5
    else if Truthy(v) && 3.0 <= v.x < 5.0 then 2
    else 0
  }

  /** PEG: 7 / 4 / 2 points in (0,1), [1,1.5), [1.5,2). */
  function PegPoints(v: Val): (p: nat)
    ensures p <= 7
    ensures p > 0 <==> v.Num? && 0.0 < v.x < 2.0
  {
    if Truthy(v) && 0.0 < v.x < 1.0 then 7
    else if Truthy(v) && 1.0 <= v.x < 1.5 then 4
    else if Truthy(v) && 1.5 <= v.x < 2.0 then 2
    else 0
  }

  /** ROE: 15 / 12 / 8 / 4 points above 20, 15, 10 and 5 percent. */
  function RoePoints(v: Val): (p: nat)
    ensures p <= 15
    ensures p > 0 <==> v.Num? && v.x > 5.0
  {
    if Truthy(v) && v.x > 20.0 then 15
    else if Truthy(v) && v.x > 15.0 then 12
    else if Truthy(v) && v.x > 10.0 then 8
    else if Truthy(v) && v.x > 5.0 then 4
    else 0
  }

  /** Profit growth: 15 / 12 / 8 / 4 points above 30, 20, 10 and 0 percent. */
  function GrowthPoints(v: Val): (p: nat)
    ensures p <= 15
    ensures p > 0 <==> v.Num? && v.x > 0.0
  {
    if Truthy(v) && v.x > 30.0 then 15
    else if Truthy(v) && v.x > 20.0 then 12
    else if Truthy(v) && v.x > 10.0 then 8
    else if Truthy(v) && v.x > 0.0 then 4
    else 0
  }

  /** Debt ratio: 10 / 7 / 4 / 2 points below 30, 50, 70 and 80 percent. A
      ratio of exactly 0 is false and scores nothing, while a negative one
      scores 10. */
  function DebtPoints(v: Val): (p: nat)
    ensures p <= 10
    ensures p > 0 <==> v.Num? && v.x != 0.0 && v.x < 80.0
  {
    if Truthy(v) && v.x < 30.0 then 10
    else if Truthy(v) && v.x < 50.0 then 7
    else if Truthy(v) && v.x < 70.0 then 4
    else if Truthy(v) && v.x < 80.0 then 2
    else 0
  }

  /** Dividend yield: 5 / 4 / 2 / 1 points above 5, 3, 2 and 0 percent. */
  function DividendPoints(v: Val): (p: nat)
    ensures p <= 5
    ensures p > 0 <==> v.Num? && v.x > 0.0
  {
    if Truthy(v) && v.x > 5.0 then 5
    else if Truthy(v) && v.x > 3.0 then 4
    else if Truthy(v) && v.x > 2.0 then 2
    else if Truthy(v) && v.x > 0.0 then 1
    else 0
  }

  lemma ChangePointsMonotone(c1: real, c2: real)
    requires c1 <= c2
    ensures ChangePoints(c1) <= ChangePoints(c2)
  {
  }

  lemma MomentumPointsMonotone(m1: real, m2: real)
    requires m1 <= m2
    ensures MomentumPoints(m1) <= MomentumPoints(m2)
  {
  }

  /** A cheaper positive PE never scores fewer valuation points. */
  lemma PePointsAntitone(x1: real, x2: real)
    requires 0.0 < x1 <= x2
    ensures PePoints(Num(x1)) >= PePoints(Num(x2))
  {
  }

  /** A lower non-zero debt ratio never scores fewer safety points. */
  lemma DebtPointsAntitone(x1: real, x2: real)
    requires x1 <= x2 && x1 != 0.0
    ensures DebtPoints(Num(x1)) >= DebtPoints(Num(x2))
  {
  }

  // ---------------------------------------------------------------------
  // The strength score

  function Total(b: Breakdown): int {
    b.technical + b.valuation + b.profitability + b.safety + b.dividend
  }

  /** Scoring raises TypeError, and the caught exception yields total 0 and
      grade D, exactly when one of the three keys read by an unguarded
      comparison holds `None`. */
  predicate Raises(x: Stock) {
    x.changePct.Null? || x.momentum20d.Null? || x.turnover.Null?
  }

  /** `calculate_strength_score`. The breakdown returned on the exception
      path holds what had been added before the raising comparison. */
  function StrengthScore(cfg: Config, x: Stock): (r: ScoreResult)
    ensures 0 <= r.total <= 100
    ensures r.grade == GradeOf(r.total)
    ensures r.breakdown.technical <= 30 && r.breakdown.valuation <= 25
    ensures r.breakdown.profitability <= 30 && r.breakdown.safety <= 10 && r.breakdown.dividend <= 5
    ensures Raises(x) ==> r.total == 0 && r.grade == D
    ensures !Raises(x) ==> r.total == Total(r.breakdown)
  {
    match (GetOr0(x.changePct), GetOr0(x.momentum20d), GetOr0(x.turnover))
    case (None, _, _) =>
      ScoreResult(0, Breakdown(0, 0, 0, 0, 0), D)
    case (Some(c), None, _) =>
      ScoreResult(0, Breakdown(ChangePoints(c), 0, 0, 0, 0), D)
    case (Some(c), Some(m), None) =>
      ScoreResult(0, Breakdown(ChangePoints(c) + MomentumPoints(m), 0, 0, 0, 0), D)
    case (Some(c), Some(m), Some(t)) =>
      var b := Breakdown(
        ChangePoints(c) + MomentumPoints(m) + TurnoverPoints(t, cfg.minTurnover),
        PePoints(x.peRatio) + PbPoints(x.pbRatio) + PegPoints(x.peg),
        RoePoints(x.roe) + GrowthPoints(x.profitGrowth),
        DebtPoints(x.debtRatio),
        DividendPoints(x.dividendYield));
      ScoreResult(Total(b), b, GradeOf(Total(b)))
  }

  /** The safety component reads nothing but the debt ratio: two records
      that agree on it get the same safety points, whatever else differs. */
  lemma SafetyOnlyFromDebt(cfg: Config, x: Stock, y: Stock)
    requires !Raises(x) && !Raises(y)
    requires x.debtRatio == y.debtRatio
    ensures StrengthScore(cfg, x).breakdown.safety == StrengthScore(cfg, y).breakdown.safety
  {
  }

  /** A record without a debt ratio (absent or `None`, as the fetchers
      always produce) scores at most 90. */
  lemma NoDebtAtMost90(cfg: Config, x: Stock)
    requires !x.debtRatio.Num?
    ensures StrengthScore(cfg, x).total <= 90
    ensures StrengthScore(cfg, x).breakdown.safety == 0
  {
  }

  /** The low-valuation example of the scoring test script: 13 + 25 + 12 +
      0 + 5 = 55, grade B. */
  lemma ValueStockScores55(code: string)
    ensures StrengthScore(DefaultConfig, Stock(code, Num(8.5), Num(50000.0), Num(1.2), Num(3.5),
              Num(5.5), Num(0.6), Num(0.8), Num(10.9), Num(8.5), Missing, Num(5.2), None, None))
            == ScoreResult(55, Breakdown(13, 25, 12, 0, 5), B)
  {
  }

  /** The 601288 example of the safety test script: 27 + 25 + 12 + 0 + 5 =
      69, with safety 0 because the record has no debt ratio. */
  lemma Bank601288Scores69()
    ensures StrengthScore(DefaultConfig, Stock("601288", Num(8.09), Num(394956.0), Num(2.66),
              Num(16.235632183908045), Num(9.91), Num(1.06), Num(0.6606666666666666),
              Num(10.696266397578205), Num(1.0696266397578202), Missing, Num(10.15), None, None))
            == ScoreResult(69, Breakdown(27, 25, 12, 0, 5), BPlus)
  {
  }

  // ---------------------------------------------------------------------
  // The three filters

  /** `filter_by_pe_ratio`'s test: `None` and absent read as 0, and the PE
      must lie in (0, max_pe_ratio]. */
  predicate PePasses(cfg: Config, x: Stock) {
    x.peRatio.Num? && 0.0 < x.peRatio.x <= cfg.maxPeRatio
  }

  function PeGate(cfg: Config): Stock -> bool {
    x => PePasses(cfg, x)
  }

  /** `apply_additional_filters`'s test, stated as one condition: a price of
      at least `min_price`, a turnover of at least `min_turnover`, a change
      above -9.8 percent, and not a halt (change 0 with turnover below 100).
      A `None` among the three raises inside the loop and drops the record. */
  predicate ExtraPasses(cfg: Config, x: Stock) {
    var p, t, c := GetOr0(x.price), GetOr0(x.turnover), GetOr0(x.changePct);
    p.Some? && p.value >= cfg.minPrice
    && t.Some? && t.value >= cfg.minTurnover
    && c.Some? && c.value > -9.8
    && !(c.value == 0.0 && t.value < 100.0)
  }

  function ExtraGate(cfg: Config): Stock -> bool {
    x => ExtraPasses(cfg, x)
  }

  /** `filter_by_pe_ratio`: keeps, in order, exactly the records whose PE
      lies in (0, max_pe_ratio]. */
  method FilterByPeRatio(cfg: Config, stocks: seq<Stock>) returns (r: seq<Stock>)
    ensures r == Filter(stocks, PeGate(cfg))
  {
    r := [];
    var i := 0;
    while i < |stocks|
      invariant 0 <= i <= |stocks|
      invariant r == Filter(stocks[..i], PeGate(cfg))
    {
      var pe := match stocks[i].peRatio case Num(v) => v case _ => 0.0;
      if 0.0 < pe <= cfg.maxPeRatio {
        r := r + [stocks[i]];
      }
      assert stocks[..i + 1][..i] == stocks[..i];
      i := i + 1;
    }
    assert stocks[..|stocks|] == stocks;
  }

  /** Whether one record survives the checks of `apply_additional_filters`,
      taken in the source's order; `None` marks the comparison that raises. */
  function ExtraVerdict(cfg: Config, x: Stock): Option<bool> {
    var p, t, c := GetOr0(x.price), GetOr0(x.turnover), GetOr0(x.changePct);
    if c == Some(0.0) && t.None? then None
    else if c == Some(0.0) && t.value < 100.0 then Some(false)
    else if p.None? then None
    else if p.value < cfg.minPrice then Some(false)
    else if t.None? then None
    else if t.value < cfg.minTurnover then Some(false)
    else if c.None? then None
    else if c.value <= -9.8 then Some(false)
    else Some(true)
  }

  /** `apply_additional_filters`: keeps, in order, the records that pass
      every check; a record whose check raises is skipped. */
  method ApplyAdditionalFilters(cfg: Config, stocks: seq<Stock>) returns (r: seq<Stock>)
    ensures r == Filter(stocks, ExtraGate(cfg))
  {
    r := [];
    var i := 0;
    while i < |stocks|
      invariant 0 <= i <= |stocks|
      invariant r == Filter(stocks[..i], ExtraGate(cfg))
    {
      var verdict := ExtraVerdict(cfg, stocks[i]);
      assert verdict == Some(true) <==> ExtraPasses(cfg, stocks[i]);
      if verdict == Some(true) {
        r := r + [stocks[i]];
      }
      assert stocks[..i + 1][..i] == stocks[..i];
      i := i + 1;
    }
    assert stocks[..|stocks|] == stocks;
  }

  // ---------------------------------------------------------------------
  // Scoring, sorting and thresholding

  /** The score a record is sorted by (`strength_score`). */
  function ScoreKey(x: Stock): int {
    if x.strength.Some? then x.strength.value.total else 0
  }

  /** Every record with its score written onto it. */
  function Annotate(cfg: Config, s: seq<Stock>): (r: seq<Stock>)
    ensures |r| == |s|
  {
    seq(|s|, i requires 0 <= i < |s| => s[i].(strength := Some(StrengthScore(cfg, s[i]))))
  }

  function ScoreGate(cfg: Config): Stock -> bool {
    x => ScoreKey(x) as real >= cfg.minStrengthScore
  }

  /** What `filter_by_strength` returns: the scored records in stable
      descending score order, keeping those at or above the threshold. */
  function StrengthFiltered(cfg: Config, s: seq<Stock>): seq<Stock> {
    Filter(SortDesc(Annotate(cfg, s), ScoreKey), ScoreGate(cfg))
  }

  /** `filter_by_strength`: writes its score onto every input record in
      place, then returns the sorted, thresholded list. */
  method FilterByStrength(cfg: Config, stocks: array<Stock>) returns (r: seq<Stock>)
    modifies stocks
    ensures stocks[..] == Annotate(cfg, old(stocks[..]))
    ensures r == StrengthFiltered(cfg, old(stocks[..]))
  {
    ghost var before := stocks[..];
    for i := 0 to stocks.Length
      invariant forall k :: 0 <= k < i ==> stocks[k] == Annotate(cfg, before)[k]
      invariant forall k :: i <= k < stocks.Length ==> stocks[k] == before[k]
    {
      var scored := StrengthScore(cfg, stocks[i]);
      stocks[i] := stocks[i].(strength := Some(scored));
    }
    assert stocks[..] == Annotate(cfg, before);
    var sorted := SortDesc(stocks[..], ScoreKey);
    r := Filter(sorted, ScoreGate(cfg));
  }

  /** The scored list is sorted by score and holds exactly the scored
      records that reach the threshold. */
  lemma {:induction false} StrengthFilteredSorted(cfg: Config, s: seq<Stock>)
    ensures NonIncreasing(StrengthFiltered(cfg, s), ScoreKey)
    ensures forall y :: y in StrengthFiltered(cfg, s)
              <==> y in Annotate(cfg, s) && ScoreKey(y) as real >= cfg.minStrengthScore
  {
    var sorted := SortDesc(Annotate(cfg, s), ScoreKey);
    SortDescSortedPermutation(Annotate(cfg, s), ScoreKey);
    FilterSorted(sorted, ScoreGate(cfg), ScoreKey);
    FilterMembers(sorted, ScoreGate(cfg));
  }

  /** Ties keep their input order: among records of any one score that
      reaches the threshold, the result lists them as the input did. */
  lemma {:induction false} StrengthFilteredStable(cfg: Config, s: seq<Stock>, v: int)
    requires v as real >= cfg.minStrengthScore
    ensures WithKey(StrengthFiltered(cfg, s), ScoreKey, v) == WithKey(Annotate(cfg, s), ScoreKey, v)
  {
    var sorted := SortDesc(Annotate(cfg, s), ScoreKey);
    FilterWithKey(sorted, ScoreGate(cfg), ScoreKey, v);
    SortDescStable(Annotate(cfg, s), ScoreKey, v);
  }

  // ---------------------------------------------------------------------
  // Deduplication, truncation, ranks and the whole selection

  function CodeSet(s: seq<Stock>): set<string> {
    set i | 0 <= i < |s| :: s[i].code
  }

  /** `unique_stocks`: the first record of each non-empty code, in order of
      first appearance. */
  function Dedup(s: seq<Stock>): seq<Stock> {
    if s == [] then []
    else
      var d := Dedup(s[..|s| - 1]);
      var x := s[|s| - 1];
      if x.code != "" && x.code !in CodeSet(d) then d + [x] else d
  }

  /** `s[:n]`. */
  function Take<T>(s: seq<T>, n: nat): (r: seq<T>)
    ensures |r| <= n && |r| <= |s|
    ensures r == s[..|r|]
    ensures |s| <= n ==> r == s
    ensures |s| > n ==> |r| == n
  {
    if |s| <= n then s else s[..n]
  }

  /** Each record gets `rank` = its 1-based position. */
  function Ranked(s: seq<Stock>): (r: seq<Stock>)
    ensures |r| == |s|
    ensures forall i :: 0 <= i < |s| ==>
              r[i].rank == Some(i + 1) && r[i].strength == s[i].strength && Plain(r[i]) == Plain(s[i])
  {
    seq(|s|, i requires 0 <= i < |s| => s[i].(rank := Some(i + 1)))
  }

  /** The records that survive deduplication and the two gates. */
  function Candidates(cfg: Config, s: seq<Stock>): seq<Stock> {
    Filter(Filter(Dedup(s), PeGate(cfg)), ExtraGate(cfg))
  }

  /** `_generate_selection_reason` orders `change_pct` against 3 and
      `momentum_20d` against 10, both read with a default of 0: a `None`
      under either key raises TypeError. */
  predicate ReasonRaises(x: Stock) {
    x.changePct.Null? || x.momentum20d.Null?
  }

  predicate AnyReasonRaises(s: seq<Stock>) {
    exists i :: 0 <= i < |s| && ReasonRaises(s[i])
  }

  /** The first `max_stocks` scored candidates. */
  function TopScored(cfg: Config, s: seq<Stock>): seq<Stock> {
    Take(StrengthFiltered(cfg, Candidates(cfg, s)), cfg.maxStocks)
  }

  /** What `select_top_stocks` returns: the top records numbered 1, 2, ...,
      or nothing when writing a selection reason raises, since its `except`
      returns an empty list. */
  function SelectTop(cfg: Config, s: seq<Stock>): seq<Stock> {
    var top := TopScored(cfg, s);
    if AnyReasonRaises(top) then [] else Ranked(top)
  }

  /** The deduplication loop of `select_top_stocks`: a dict from code to
      the first record seen with it, read back in insertion order. */
  method UniqueByCode(stocks: seq<Stock>) returns (unique: seq<Stock>)
    ensures unique == Dedup(stocks)
  {
    unique := [];
    var seen: set<string> := {};
    var i := 0;
    while i < |stocks|
      invariant 0 <= i <= |stocks|
      invariant unique == Dedup(stocks[..i])
      invariant seen == CodeSet(unique)
    {
      var code := stocks[i].code;
      assert stocks[..i + 1][..i] == stocks[..i];
      if code != "" && code !in seen {
        CodeSetAppend(unique, stocks[i]);
        unique := unique + [stocks[i]];
        seen := seen + {code};
      }
      i := i + 1;
    }
    assert stocks[..|stocks|] == stocks;
  }

  lemma CodeSetAppend(s: seq<Stock>, x: Stock)
    ensures CodeSet(s + [x]) == CodeSet(s) + {x.code}
  {
    assert forall i :: 0 <= i < |s| ==> (s + [x])[i] == s[i];
    assert (s + [x])[|s|] == x;
  }

  /** The numbering loop of `select_top_stocks`: each record gets `rank`
      = its 1-based position. */
  method AssignRanks(chosen: seq<Stock>) returns (r: seq<Stock>)
    ensures r == Ranked(chosen)
  {
    r := chosen;
    for i := 0 to |r|
      invariant |r| == |chosen|
      invariant forall k :: 0 <= k < i ==> r[k] == chosen[k].(rank := Some(k + 1))
      invariant forall k :: i <= k < |r| ==> r[k] == chosen[k]
    {
      r := r[i := r[i].(rank := Some(i + 1))];
    }
  }

  /** `select_top_stocks`: deduplicate, apply the PE gate and the additional
      gate, score and sort, keep the first `max_stocks`, number them and
      write each its reason, returning nothing when a reason raises. */
  method SelectTopStocks(cfg: Config, stocks: seq<Stock>) returns (r: seq<Stock>)
    ensures r == SelectTop(cfg, stocks)
  {
    var unique := UniqueByCode(stocks);
    var peFiltered := FilterByPeRatio(cfg, unique);
    var additional := ApplyAdditionalFilters(cfg, peFiltered);
    assert additional == Candidates(cfg, stocks);
    var scored := new Stock[|additional|](i requires 0 <= i < |additional| => additional[i]);
    assert scored[..] == additional;
    var strong := FilterByStrength(cfg, scored);
    var chosen := if |strong| <= cfg.maxStocks then strong else strong[..cfg.maxStocks];
    assert chosen == Take(strong, cfg.maxStocks);
    r := AssignRanks(chosen);
    var raised := WriteReasons(r);
    RankingKeepsReasons(chosen);
    if raised {
      r := [];
    }
  }

  /** The reason loop of `select_top_stocks`: reports whether writing the
      reason of some record raised. */
  method WriteReasons(s: seq<Stock>) returns (raised: bool)
    ensures raised <==> AnyReasonRaises(s)
  {
    for i := 0 to |s|
      invariant forall k :: 0 <= k < i ==> !ReasonRaises(s[k])
    {
      if ReasonRaises(s[i]) {
        return true;
      }
    }
    return false;
  }

  /** Numbering the records changes none of the fields a reason reads. */
  lemma RankingKeepsReasons(s: seq<Stock>)
    ensures AnyReasonRaises(Ranked(s)) <==> AnyReasonRaises(s)
  {
    var r := Ranked(s);
    forall i | 0 <= i < |s|
      ensures ReasonRaises(r[i]) <==> ReasonRaises(s[i])
    {
      assert Plain(r[i]) == Plain(s[i]);
    }
  }

  // ---------------------------------------------------------------------
  // Properties of the selection

  /** Deduplication keeps only records with a code, never two records with
      the same code, every code of the input, and only input records. */
  lemma {:induction false} DedupCodes(s: seq<Stock>)
    ensures DistinctBy(Dedup(s), Code)
    ensures forall i :: 0 <= i < |Dedup(s)| ==> Dedup(s)[i].code != ""
    ensures CodeSet(Dedup(s)) == CodeSet(s) - {""}
    ensures forall y :: y in Dedup(s) ==> y in s
  {
    if s != [] {
      var init, x := s[..|s| - 1], s[|s| - 1];
      DedupCodes(init);
      var d := Dedup(init);
      assert s == init + [x];
      CodeSetAppend(init, x);
      if x.code != "" && x.code !in CodeSet(d) {
        CodeSetAppend(d, x);
        assert forall i :: 0 <= i < |d| ==> d[i].code in CodeSet(d);
      }
    }
  }

  /** The record kept for a code is its first occurrence: a record with a
      code that no earlier record has is kept. */
  lemma {:induction false} DedupKeepsFirst(s: seq<Stock>, i: nat)
    requires i < |s| && s[i].code != ""
    requires forall j :: 0 <= j < i ==> s[j].code != s[i].code
    ensures s[i] in Dedup(s)
  {
    var init := s[..|s| - 1];
    if i == |s| - 1 {
      DedupCodes(init);
      assert s[i].code !in CodeSet(init);
    } else {
      assert init[i] == s[i];
      DedupKeepsFirst(init, i);
    }
  }

  /** A list with distinct, non-empty codes is its own deduplication. */
  lemma {:induction false} DedupOfDistinct(s: seq<Stock>)
    requires DistinctBy(s, Code)
    requires forall i :: 0 <= i < |s| ==> s[i].code != ""
    ensures Dedup(s) == s
  {
    if s != [] {
      var init := s[..|s| - 1];
      assert DistinctBy(init, Code);
      DedupOfDistinct(init);
      assert s[|s| - 1].code !in CodeSet(init);
    }
  }

  /** A record as it was before scoring and ranking wrote onto it. */
  function Plain(x: Stock): Stock {
    x.(strength := None, rank := None)
  }

  function Plains(s: seq<Stock>): (r: seq<Stock>)
    ensures |r| == |s|
  {
    seq(|s|, i requires 0 <= i < |s| => Plain(s[i]))
  }

  /** What holds of the record at position `i` of the selection. */
  predicate Selected(cfg: Config, x: Stock, i: nat) {
    x.code != ""
    && PePasses(cfg, x) && ExtraPasses(cfg, x)
    && x.strength == Some(StrengthScore(cfg, x))
    && ScoreKey(x) as real >= cfg.minStrengthScore
    && x.rank == Some(i + 1)
  }

  lemma {:induction false} CandidatesFacts(cfg: Config, s: seq<Stock>)
    ensures DistinctBy(Candidates(cfg, s), Code)
    ensures forall i :: 0 <= i < |Candidates(cfg, s)| ==>
              var x := Candidates(cfg, s)[i];
              x.code != "" && PePasses(cfg, x) && ExtraPasses(cfg, x) && x in s
  {
    var d := Dedup(s);
    var f := Filter(d, PeGate(cfg));
    var e := Filter(f, ExtraGate(cfg));
    DedupCodes(s);
    FilterDistinctBy(d, PeGate(cfg), Code);
    FilterDistinctBy(f, ExtraGate(cfg), Code);
    FilterMembers(d, PeGate(cfg));
    FilterMembers(f, ExtraGate(cfg));
    forall i | 0 <= i < |e|
      ensures e[i].code != "" && PePasses(cfg, e[i]) && ExtraPasses(cfg, e[i]) && e[i] in s
    {
      assert e[i] in e;
      assert e[i] in f;
      assert e[i] in d;
      var k :| 0 <= k < |d| && d[k] == e[i];
    }
  }

  /** A record of the scored list is a scored input record that reaches
      the threshold. */
  lemma ScoredMember(cfg: Config, e: seq<Stock>, y: Stock)
    requires y in StrengthFiltered(cfg, e)
    ensures ScoreKey(y) as real >= cfg.minStrengthScore
    ensures exists k :: 0 <= k < |e| && y == e[k].(strength := Some(StrengthScore(cfg, e[k])))
  {
    StrengthFilteredSorted(cfg, e);
    var a := Annotate(cfg, e);
    var k :| 0 <= k < |a| && a[k] == y;
  }

  /** The scored, sorted, thresholded candidates carry distinct codes and
      are in non-increasing score order. */
  lemma StrongOrdered(cfg: Config, s: seq<Stock>)
    ensures DistinctBy(StrengthFiltered(cfg, Candidates(cfg, s)), Code)
    ensures NonIncreasing(StrengthFiltered(cfg, Candidates(cfg, s)), ScoreKey)
  {
    var e := Candidates(cfg, s);
    var a := Annotate(cfg, e);
    CandidatesFacts(cfg, s);
    assert DistinctBy(a, Code);
    SortDescDistinctBy(a, ScoreKey, Code);
    FilterDistinctBy(SortDesc(a, ScoreKey), ScoreGate(cfg), Code);
    StrengthFilteredSorted(cfg, e);
  }

  /** The score reads none of the keys that scoring and ranking write. */
  lemma ScoreIgnoresAnnotations(cfg: Config, x: Stock, y: Stock)
    requires Plain(x) == Plain(y)
    ensures StrengthScore(cfg, x) == StrengthScore(cfg, y)
  {
    assert x.changePct == y.changePct && x.momentum20d == y.momentum20d && x.turnover == y.turnover;
    assert x.peRatio == y.peRatio && x.pbRatio == y.pbRatio && x.peg == y.peg;
    assert x.roe == y.roe && x.profitGrowth == y.profitGrowth;
    assert x.debtRatio == y.debtRatio && x.dividendYield == y.dividendYield;
  }

  /** Each scored, thresholded candidate has a non-empty code, passes both
      gates, carries its own score and comes from the input. */
  lemma StrongElement(cfg: Config, s: seq<Stock>, y: Stock)
    requires y in StrengthFiltered(cfg, Candidates(cfg, s))
    ensures y.code != "" && PePasses(cfg, y) && ExtraPasses(cfg, y)
    ensures y.strength == Some(StrengthScore(cfg, y))
    ensures ScoreKey(y) as real >= cfg.minStrengthScore
    ensures Plain(y) in Plains(s)
  {
    var e := Candidates(cfg, s);
    CandidatesFacts(cfg, s);
    ScoredMember(cfg, e, y);
    var k :| 0 <= k < |e| && y == e[k].(strength := Some(StrengthScore(cfg, e[k])));
    assert Plain(y) == Plain(e[k]);
    ScoreIgnoresAnnotations(cfg, y, e[k]);
    assert e[k] in s;
    var j :| 0 <= j < |s| && s[j] == e[k];
    assert Plains(s)[j] == Plain(y);
  }

  /** The record at position `i` of the selection is the `i`-th scored
      candidate, numbered `i + 1`. */
  lemma SelectedAt(cfg: Config, s: seq<Stock>, i: nat)
    requires i < |SelectTop(cfg, s)|
    ensures Selected(cfg, SelectTop(cfg, s)[i], i) && Plain(SelectTop(cfg, s)[i]) in Plains(s)
  {
    var t := StrengthFiltered(cfg, Candidates(cfg, s));
    var y := SelectTop(cfg, s)[i];
    assert !AnyReasonRaises(TopScored(cfg, s));
    assert y == t[i].(rank := Some(i + 1));
    assert t[i] in t;
    StrongElement(cfg, s, t[i]);
    assert Plain(y) == Plain(t[i]);
    ScoreIgnoresAnnotations(cfg, y, t[i]);
  }

  /** `select_top_stocks` returns at most `max_stocks` records, with
      distinct non-empty codes, in non-increasing score order, numbered 1, 2,
      ... in list order; each passes both gates, carries its own score at or
      above the threshold, and is an input record apart from what scoring and
      ranking wrote onto it. */
  lemma SelectTopProperties(cfg: Config, s: seq<Stock>)
    ensures |SelectTop(cfg, s)| <= cfg.maxStocks
    ensures DistinctBy(SelectTop(cfg, s), Code)
    ensures NonIncreasing(SelectTop(cfg, s), ScoreKey)
    ensures forall i :: 0 <= i < |SelectTop(cfg, s)| ==> Selected(cfg, SelectTop(cfg, s)[i], i)
    ensures forall i :: 0 <= i < |SelectTop(cfg, s)| ==> Plain(SelectTop(cfg, s)[i]) in Plains(s)
  {
    var r := SelectTop(cfg, s);
    StrongOrdered(cfg, s);
    forall i | 0 <= i < |r|
      ensures Selected(cfg, r[i], i) && Plain(r[i]) in Plains(s)
    {
      SelectedAt(cfg, s, i);
    }
  }

  /** No candidate left out scores above a selected record, and the
      selection is cut short only by `max_stocks`. */
  lemma SelectTopIsTop(cfg: Config, s: seq<Stock>)
    ensures var t := StrengthFiltered(cfg, Candidates(cfg, s));
      |SelectTop(cfg, s)| == (if AnyReasonRaises(TopScored(cfg, s)) then 0
                              else if |t| <= cfg.maxStocks then |t| else cfg.maxStocks)
      && forall i, j :: 0 <= i < |SelectTop(cfg, s)| <= j < |t| ==>
           ScoreKey(t[j]) <= ScoreKey(SelectTop(cfg, s)[i])
  {
    StrongOrdered(cfg, s);
  }

  /** Under the shipped configuration the selection is always the ranked
      top records. */
  lemma DefaultSelectionRanked(s: seq<Stock>)
    ensures SelectTop(DefaultConfig, s) == Ranked(TopScored(DefaultConfig, s))
  {
    if AnyReasonRaises(TopScored(DefaultConfig, s)) {
      ReasonRaisesOnlyWithoutThreshold(DefaultConfig, s);
    }
  }

  /** The reason can raise only on a record scored 0, which reaches the
      selection only when the threshold is at most 0: under any positive
      `min_strength_score` (40 as shipped) the selection is never emptied
      this way. */
  lemma ReasonRaisesOnlyWithoutThreshold(cfg: Config, s: seq<Stock>)
    requires AnyReasonRaises(TopScored(cfg, s))
    ensures cfg.minStrengthScore <= 0.0
  {
    var top := TopScored(cfg, s);
    var i :| 0 <= i < |top| && ReasonRaises(top[i]);
    assert top[i] in StrengthFiltered(cfg, Candidates(cfg, s));
    StrongElement(cfg, s, top[i]);
  }

  /** Re-running the selection on its own output with the same
      configuration returns that output unchanged. */
  lemma SelectTopIdempotent(cfg: Config, s: seq<Stock>)
    ensures SelectTop(cfg, SelectTop(cfg, s)) == SelectTop(cfg, s)
  {
    var r := SelectTop(cfg, s);
    SelectTopProperties(cfg, s);
    SelectedAreCandidates(cfg, r);
    SelectedPassStrength(cfg, r);
    assert Ranked(r) == r;
    if AnyReasonRaises(TopScored(cfg, s)) {
      assert TopScored(cfg, r) == [];
    } else {
      var top := TopScored(cfg, s);
      forall i | 0 <= i < |r|
        ensures !ReasonRaises(r[i])
      {
        assert Plain(r[i]) == Plain(top[i]);
      }
    }
  }

  /** A selection passes deduplication and both gates unchanged. */
  lemma SelectedAreCandidates(cfg: Config, r: seq<Stock>)
    requires DistinctBy(r, Code)
    requires forall i :: 0 <= i < |r| ==> Selected(cfg, r[i], i)
    ensures Candidates(cfg, r) == r
  {
    DedupOfDistinct(r);
    FilterAllPass(r, PeGate(cfg));
    FilterAllPass(r, ExtraGate(cfg));
  }

  /** A selection keeps its scores, order and members under scoring,
      sorting and the threshold. */
  lemma SelectedPassStrength(cfg: Config, r: seq<Stock>)
    requires NonIncreasing(r, ScoreKey)
    requires forall i :: 0 <= i < |r| ==> Selected(cfg, r[i], i)
    ensures StrengthFiltered(cfg, r) == r
  {
    assert Annotate(cfg, r) == r;
    SortDescOfSorted(r, ScoreKey);
    FilterAllPass(r, ScoreGate(cfg));
  }
}
