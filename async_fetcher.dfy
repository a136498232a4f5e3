/** The pure core of the asynchronous data fetcher: the market prefix of a
    quote symbol, the retry loop over a sequence of attempt outcomes, the
    realtime and fundamental quote parses with their derived metrics, the
    financial-health score, the assembly of the batch result and the
    market-overview tally.

    Responses are inputs. A quote response is `Option<seq<Field>>`: `None`
    stands for every way the text yields no quoted payload (no content, no
    `v_` marker, no `"`), `Some(parts)` for the `~`-separated fields inside
    the quotes. The set and concurrency of the batch are modelled by an
    explicit iteration order of the distinct codes, and the stages run one
    after another. */
module AsyncFetcher {
  import opened Common
  import opened Lists
  import opened Retry
  import opened Bars
  import StockFilter

  // ---------------------------------------------------------------------
  // Market prefix

  predicate StartsWith(s: string, p: string) {
    |p| <= |s| && s[..|p|] == p
  }

  /** The prefix of a realtime quote symbol: Shanghai for codes starting
      with '6', Shenzhen otherwise. */
  function MarketPrefix(code: string): (m: string)
    ensures m == "sh" <==> StartsWith(code, "6")
    ensures m == "sh" || m == "sz"
  {
    if StartsWith(code, "6") then "sh" else "sz"
  }

  /** The prefix the fundamental and history requests use, which also tests
      for '688'. */
  function FundamentalPrefix(code: string): string {
    if StartsWith(code, "6") || StartsWith(code, "688") then "sh" else "sz"
  }

  /** Every code starting with '688' starts with '6', so both prefix rules
      agree on every code. */
  lemma PrefixRulesAgree(code: string)
    ensures FundamentalPrefix(code) == MarketPrefix(code)
  {
    if StartsWith(code, "688") {
      assert code[..1] == code[..3][..1];
    }
  }

  // ---------------------------------------------------------------------
  // Retry

  /** `_fetch_with_retry`: attempts `0 .. maxRetries - 1` in order; the body
      of the first status-200 response is returned; after every other
      attempt except the last it sleeps `0.5 * 2^attempt` seconds. `sleeps`
      lists the sleeps made. */
  method FetchWithRetry(outcome: nat -> Attempt, maxRetries: int) returns (content: Option<string>, sleeps: seq<real>)
    ensures match FirstSuccess(SucceededAt(outcome), maxRetries, 0)
            case Some(k) => content == Some(outcome(k).body) && sleeps == Backoff(k, 0.5)
            case None => content == None && sleeps == Backoff(if maxRetries > 0 then maxRetries - 1 else 0, 0.5)
  {
    content := None;
    sleeps := [];
    var attempt: nat := 0;
    while attempt < maxRetries
      invariant attempt <= if maxRetries > 0 then maxRetries else 0
      invariant FirstSuccess(SucceededAt(outcome), maxRetries, 0) == FirstSuccess(SucceededAt(outcome), maxRetries, attempt)
      invariant sleeps == Backoff(if attempt > 0 && attempt == maxRetries then attempt - 1 else attempt, 0.5)
    {
      var o := outcome(attempt);
      if Succeeded(o) {
        content := Some(o.body);
        return;
      }
      if attempt < maxRetries - 1 {
        sleeps := sleeps + [0.5 * Pow2(attempt) as real];
      }
      attempt := attempt + 1;
    }
    assert FirstSuccess(SucceededAt(outcome), maxRetries, attempt) == None;
  }

  /** The retry loop never sleeps after its last attempt: with no success it
      sleeps `maxRetries - 1` times, for 0.5, 1, 2, ... seconds. */
  lemma ThreeFailuresSleepTwice(outcome: nat -> Attempt)
    requires forall j :: !Succeeded(outcome(j))
    ensures FirstSuccess(SucceededAt(outcome), 3, 0) == None
    ensures Backoff(2, 0.5) == [0.5, 1.0]
  {
    assert FirstSuccess(SucceededAt(outcome), 3, 3) == None;
    assert Pow2(1) == 2;
  }

  // ---------------------------------------------------------------------
  // Realtime quote

  /** The record `get_stock_realtime_data` returns when it returns one. */
  datatype Quote = Quote(
    code: string,
    name: string,
    price: real,
    prevClose: real,
    changePct: real,
    peRatio: Option<real>,
    pbRatio: Option<real>,
    marketCap: Option<real>,
    totalShares: Option<real>,
    volume: int,
    turnover: int,
    turnoverRate: Option<real>)

  /** A PE field is usable when it is non-empty, parses and lies in
      (0, 1000). */
  function PeCandidate(f: Field): Option<real> {
    if f.text != [] && f.asFloat.Some? && 0.0 < f.asFloat.value < 1000.0 then f.asFloat else None
  }

  /** The PE fields in priority order: 39 (when present), 22, 15, 14. */
  function PeFields(parts: seq<Field>): seq<Field>
    requires |parts| > 35
  {
    (if |parts| > 39 then [parts[39]] else []) + [parts[22], parts[15], parts[14]]
  }

  /** The first usable PE value among `fs`. */
  function FirstValidPe(fs: seq<Field>): (r: Option<real>)
    ensures r.Some? ==> 0.0 < r.value < 1000.0
    ensures r.None? <==> forall i :: 0 <= i < |fs| ==> PeCandidate(fs[i]).None?
    ensures r.Some? ==> exists i :: 0 <= i < |fs| && r == PeCandidate(fs[i])
                                     && forall j :: 0 <= j < i ==> PeCandidate(fs[j]).None?
  {
    if fs == [] then None
    else if PeCandidate(fs[0]).Some? then PeCandidate(fs[0])
    else
      var r := FirstValidPe(fs[1..]);
      assert forall i :: 1 <= i < |fs| ==> fs[i] == fs[1..][i - 1];
      if r.Some? then
        var i :| 0 <= i < |fs[1..]| && r == PeCandidate(fs[1..][i])
                 && forall j :: 0 <= j < i ==> PeCandidate(fs[1..][j]).None?;
        assert r == PeCandidate(fs[i + 1]);
        r
      else r
  }

  /** The PE priority loop: scans the fields in order and stops at the
      first usable one. */
  method ResolvePe(fs: seq<Field>) returns (pe: Option<real>)
    ensures pe == FirstValidPe(fs)
  {
    pe := None;
    var i := 0;
    while i < |fs|
      invariant 0 <= i <= |fs|
      invariant FirstValidPe(fs) == FirstValidPe(fs[i..])
    {
      var f := fs[i];
      if f.text != [] && f.asFloat.Some? {
        var v := f.asFloat.value;
        if 0.0 < v < 1000.0 {
          pe := Some(v);
          return;
        }
      }
      assert fs[i..][1..] == fs[i + 1..];
      i := i + 1;
    }
  }

  /** PB from field 16 when it parses into (0, 100). */
  function RealtimePb(parts: seq<Field>): (pb: Option<real>)
    requires |parts| > 35
    ensures pb.Some? <==> OptFloat(parts[16]).Some? && 0.0 < OptFloat(parts[16]).value < 100.0
    ensures pb.Some? ==> pb == OptFloat(parts[16])
  {
    var v := OptFloat(parts[16]);
    if v.Some? && 0.0 < v.value < 100.0 then v else None
  }

  /** The realtime parse. It gives a quote only when the payload has more
      than 35 fields and the price, previous close, change, volume and
      turnover fields are empty or parse (a field that does not parse makes
      `float` raise, and the handler returns an empty record). */
  function ParseRealtime(code: string, content: Option<seq<Field>>): (r: Option<Quote>)
    ensures r.Some? <==> content.Some? && |content.value| > 35
                          && FloatOrZero(content.value[3]).Some? && FloatOrZero(content.value[4]).Some?
                          && FloatOrZero(content.value[32]).Some? && FloatOrZero(content.value[6]).Some?
                          && FloatOrZero(content.value[7]).Some?
    ensures r.Some? ==> r.value.code == code
    ensures r.Some? && r.value.peRatio.Some? ==> 0.0 < r.value.peRatio.value < 1000.0
    ensures r.Some? && r.value.pbRatio.Some? ==> 0.0 < r.value.pbRatio.value < 100.0
    ensures r.Some? ==> r.value.peRatio == FirstValidPe(PeFields(content.value))
    ensures r.Some? ==> r.value.pbRatio == RealtimePb(content.value)
    ensures r.Some? ==> r.value.name == content.value[1].text
                        && r.value.price == FloatOrZero(content.value[3]).value
                        && r.value.prevClose == FloatOrZero(content.value[4]).value
                        && r.value.changePct == FloatOrZero(content.value[32]).value
                        && r.value.volume == TruncToInt(FloatOrZero(content.value[6]).value)
                        && r.value.turnover == TruncToInt(FloatOrZero(content.value[7]).value)
    ensures r.Some? ==> r.value.marketCap == OptFloat(content.value[23])
                        && r.value.totalShares == OptFloat(content.value[25])
                        && r.value.turnoverRate == OptFloat(content.value[27])
  {
    match content
    case None => None
    case Some(parts) =>
      if |parts| <= 35 then None
      else
        var price := FloatOrZero(parts[3]);
        var prev := FloatOrZero(parts[4]);
        var change := FloatOrZero(parts[32]);
        var volume := FloatOrZero(parts[6]);
        var turnover := FloatOrZero(parts[7]);
        if price.None? || prev.None? || change.None? || volume.None? || turnover.None? then None
        else
          Some(Quote(code, parts[1].text, price.value, prev.value, change.value,
                     FirstValidPe(PeFields(parts)), RealtimePb(parts),
                     OptFloat(parts[23]), OptFloat(parts[25]),
                     TruncToInt(volume.value), TruncToInt(turnover.value), OptFloat(parts[27])))
  }

  /** When field 39 holds a usable PE, the lower-priority fields are not
      consulted. */
  lemma Field39First(parts: seq<Field>)
    requires |parts| > 39 && PeCandidate(parts[39]).Some?
    ensures FirstValidPe(PeFields(parts)) == parts[39].asFloat
  {
    assert PeFields(parts)[0] == parts[39];
  }

  // ---------------------------------------------------------------------
  // Fundamental quote

  /** The record `get_stock_fundamental_data` returns. The keys it always
      sets to `None` (debt ratio, current ratio, gross margin, market
      capitalisation, total shares) are not fields here: `Update` writes
      them. */
  datatype Fundamental = Fundamental(
    pbRatio: Option<real>,
    dividendYield: Option<real>,
    peg: Option<real>,
    turnoverRate: Option<real>,
    financialHealth: int,
    roe: Option<real>,
    profitGrowth: Option<real>)

  /** The record returned when the request or the parse fails. */
  const NoFundamental := Fundamental(None, None, None, None, 0, None, None)

  /** Python truthiness of an optional number. */
  predicate Present(v: Option<real>) {
    v.Some? && v.value != 0.0
  }

  /** The growth rate assumed for the PEG ratio: 20 for PB below 1, 10 for
      PB above 5, 15 otherwise and when PB is absent. */
  function AssumedGrowth(pb: Option<real>): (g: real)
    ensures g == 10.0 || g == 15.0 || g == 20.0
    ensures !Present(pb) ==> g == 15.0
    ensures Present(pb) && pb.value < 1.0 ==> g == 20.0
    ensures Present(pb) && pb.value > 5.0 ==> g == 10.0
  {
    if Present(pb) then
      if pb.value < 1.0 then 20.0 else if pb.value > 5.0 then 10.0 else 15.0
    else 15.0
  }

  /** The dividend yield: the manual override when there is one; otherwise
      the per-share dividend (field 53 divided by 10) over the price, in
      percent, kept only within (0, 20]. */
  function DividendYieldOf(manual: Option<real>, price: Option<real>, paid: Option<real>): (d: Option<real>)
    ensures manual.Some? ==> d == manual
    ensures manual.None? && d.Some? ==> 0.0 < d.value <= 20.0
    ensures manual.None? && d.Some? ==> price.Some? && price.value > 0.0 && paid.Some? && paid.value > 0.0
    ensures manual.None? && d.Some? ==> d.value * price.value == paid.value * 10.0
    ensures manual.None? ==>
              (d.Some? <==> price.Some? && price.value > 0.0 && paid.Some? && paid.value > 0.0
                            && paid.value * 10.0 <= 20.0 * price.value)
  {
    if manual.Some? then manual
    else if price.Some? && price.value > 0.0 && paid.Some? && paid.value > 0.0 then
      var y := (paid.value / 10.0) / price.value * 100.0;
      if 0.0 < y <= 20.0 then Some(y) else None
    else None
  }

  /** ROE estimated as PB / PE in percent, kept only within [-50, 50]. */
  function RoeOf(pb: Option<real>, pe: Option<real>): (r: Option<real>)
    ensures r.Some? ==> -50.0 <= r.value <= 50.0
    ensures r.Some? ==> Present(pb) && Present(pe) && pe.value > 0.0
    ensures r.Some? ==> r.value * pe.value == pb.value * 100.0
    ensures r.Some? && pb.value > 0.0 ==> r.value > 0.0
    ensures r.Some? <==> Present(pb) && Present(pe) && pe.value > 0.0
                         && -50.0 * pe.value <= pb.value * 100.0 <= 50.0 * pe.value
  {
    if Present(pb) && Present(pe) && pe.value > 0.0 then
      var roe := pb.value / pe.value * 100.0;
      assert roe == pb.value * 100.0 / pe.value;
      QuotientWithin(pb.value * 100.0, pe.value, -50.0, 50.0);
      if roe < -50.0 || roe > 50.0 then None else Some(roe)
    else None
  }

  /** Profit growth estimated from ROE and the payout ratio implied by the
      dividend yield, capped at 0.9 (0.5 when ROE is negative). */
  function ProfitGrowthOf(roe: Option<real>, dy: Option<real>): (g: Option<real>)
    ensures g.Some? <==> Present(roe) && Present(dy)
    ensures g.Some? && roe.value > 0.0 && dy.value > 0.0 ==>
              roe.value / 10.0 <= g.value < roe.value
    ensures g.Some? && roe.value < 0.0 ==> g.value == roe.value / 2.0
  {
    if Present(roe) && Present(dy) then
      var payout := if roe.value > 0.0 then
                      (if dy.value / roe.value < 0.9 then dy.value / roe.value else 0.9)
                    else 0.5;
      Some(roe.value * (1.0 - payout))
    else None
  }

  function PbAdjust(pb: Option<real>): int {
    if !Present(pb) then 0
    else if pb.value < 1.0 then 20
    else if pb.value < 2.0 then 10
    else if pb.value > 10.0 then -20
    else if pb.value > 5.0 then -10
    else 0
  }

  function DividendAdjust(dy: Option<real>): int {
    if !Present(dy) then 0
    else if dy.value > 5.0 then 15
    else if dy.value > 3.0 then 10
    else if dy.value > 2.0 then 5
    else if dy.value < 1.0 then -5
    else 0
  }

  function PeAdjust(pe: Option<real>): int {
    if !Present(pe) then 0
    else if 10.0 < pe.value < 20.0 then 10
    else if 20.0 <= pe.value < 30.0 then 5
    else if pe.value >= 50.0 then -10
    else 0
  }

  function TurnoverAdjust(t: Option<real>): int {
    if !Present(t) then 0
    else if 1.0 < t.value < 5.0 then 5
    else if t.value > 20.0 then -5
    else 0
  }

  /** The score before clamping: 50 plus the four bucket adjustments. */
  function RawHealth(pb: Option<real>, dy: Option<real>, pe: Option<real>, t: Option<real>): int {
    50 + PbAdjust(pb) + DividendAdjust(dy) + PeAdjust(pe) + TurnoverAdjust(t)
  }

  /** `_calculate_financial_health`: the raw score clamped to [0, 100]. The
      clamp never acts, since the raw score already lies in [10, 100]. */
  function FinancialHealth(pb: Option<real>, dy: Option<real>, pe: Option<real>, t: Option<real>): (s: int)
    ensures 10 <= s <= 100
    ensures s == RawHealth(pb, dy, pe, t)
  {
    var raw := RawHealth(pb, dy, pe, t);
    if raw > 100 then 100 else if raw < 0 then 0 else raw
  }

  /** Both ends of the range are reached. */
  lemma HealthExtremes()
    ensures FinancialHealth(Some(0.5), Some(6.0), Some(15.0), Some(2.0)) == 100
    ensures FinancialHealth(Some(20.0), Some(0.5), Some(60.0), Some(30.0)) == 10
  {
  }

  /** PB from field 46, kept only when positive. */
  function FundamentalPb(parts: seq<Field>): (pb: Option<real>)
    requires |parts| > 52
    ensures pb.Some? <==> OptFloat(parts[46]).Some? && OptFloat(parts[46]).value > 0.0
    ensures pb.Some? ==> pb == OptFloat(parts[46]) && pb.value > 0.0
  {
    var v := OptFloat(parts[46]);
    if v.Some? && v.value > 0.0 then v else None
  }

  /** PE from field 39, kept only within (0, 200). */
  function FundamentalPe(parts: seq<Field>): (pe: Option<real>)
    requires |parts| > 52
    ensures pe.Some? <==> OptFloat(parts[39]).Some? && 0.0 < OptFloat(parts[39]).value < 200.0
    ensures pe.Some? ==> pe == OptFloat(parts[39]) && 0.0 < pe.value < 200.0
  {
    var v := OptFloat(parts[39]);
    if v.Some? && 0.0 < v.value < 200.0 then v else None
  }

  /** The dividend paid per ten shares, from field 53, dropped when
      negative. */
  function PaidDividend(parts: seq<Field>): (d: Option<real>)
    ensures d.Some? <==> |parts| > 53 && OptFloat(parts[53]).Some? && OptFloat(parts[53]).value >= 0.0
    ensures d.Some? ==> d == OptFloat(parts[53]) && d.value >= 0.0
  {
    var v := if |parts| > 53 then OptFloat(parts[53]) else None;
    if v.Some? && v.value < 0.0 then None else v
  }

  /** PEG: PE over the assumed growth rate. */
  function PegOf(pe: Option<real>, pb: Option<real>): (peg: Option<real>)
    ensures peg.Some? <==> pe.Some?
    ensures pe.Some? && 0.0 < pe.value < 200.0 ==> 0.0 < peg.value < 20.0
    ensures pe.Some? ==> peg.value * AssumedGrowth(pb) == pe.value
  {
    if pe.Some? then Some(pe.value / AssumedGrowth(pb)) else None
  }

  /** A payload the fundamental parse accepts: more than 52 fields, and a
      price field that is empty or parses whenever the price is read (no
      manual dividend); otherwise `float` raises and the handler returns
      `NoFundamental`. */
  predicate FundamentalReadable(content: Option<seq<Field>>, manual: Option<real>) {
    content.Some? && |content.value| > 52
    && !(manual.None? && content.value[3].text != [] && content.value[3].asFloat.None?)
  }

  /** The fundamental parse. */
  function ParseFundamental(content: Option<seq<Field>>, manual: Option<real>): (r: Fundamental)
    ensures r.financialHealth == 0 <==> !FundamentalReadable(content, manual)
    ensures r.financialHealth == 0 ==> r == NoFundamental
    ensures r.financialHealth != 0 ==> 10 <= r.financialHealth <= 100
    ensures r.pbRatio.Some? ==> r.pbRatio.value > 0.0
    ensures r.peg.Some? ==> 0.0 < r.peg.value < 20.0
    ensures r.roe.Some? ==> 0.0 < r.roe.value <= 50.0
    ensures r.profitGrowth.Some? ==> r.roe.Some? && Present(r.dividendYield)
    ensures r.profitGrowth.Some? && r.dividendYield.value > 0.0 ==>
              r.roe.value / 10.0 <= r.profitGrowth.value < r.roe.value
    ensures r.financialHealth != 0 && manual.Some? ==> r.dividendYield == manual
    ensures manual.None? && r.dividendYield.Some? ==> 0.0 < r.dividendYield.value <= 20.0
    ensures FundamentalReadable(content, manual) ==>
              var parts := content.value;
              r.pbRatio == FundamentalPb(parts)
              && r.dividendYield == DividendYieldOf(manual, if manual.None? then OptFloat(parts[3]) else None,
                                                    PaidDividend(parts))
              && r.peg == PegOf(FundamentalPe(parts), FundamentalPb(parts))
              && r.turnoverRate == (if |parts| > 56 then OptFloat(parts[56]) else None)
              && r.roe == RoeOf(FundamentalPb(parts), FundamentalPe(parts))
              && r.profitGrowth == ProfitGrowthOf(r.roe, r.dividendYield)
              && r.financialHealth == FinancialHealth(r.pbRatio, r.dividendYield, FundamentalPe(parts), r.turnoverRate)
  {
    if !FundamentalReadable(content, manual) then NoFundamental
    else
      var parts := content.value;
      var pb := FundamentalPb(parts);
      var price := if manual.None? then OptFloat(parts[3]) else None;
      var dy := DividendYieldOf(manual, price, PaidDividend(parts));
      var turnoverRate := if |parts| > 56 then OptFloat(parts[56]) else None;
      var pe := FundamentalPe(parts);
      var roe := RoeOf(pb, pe);
      Fundamental(pb, dy, PegOf(pe, pb), turnoverRate, FinancialHealth(pb, dy, pe, turnoverRate),
                  roe, ProfitGrowthOf(roe, dy))
  }

  /** PEG is PE over the assumed growth: a PE of 12 with PB 0.8 gives 0.6,
      with PB 8 gives 1.2, and with no PB gives 0.8. */
  lemma PegExamples()
    ensures 12.0 / AssumedGrowth(Some(0.8)) == 0.6
    ensures 12.0 / AssumedGrowth(Some(8.0)) == 1.2
    ensures 12.0 / AssumedGrowth(None) == 0.8
  {
  }

  // ---------------------------------------------------------------------
  // Batch assembly

  /** One record of the batch result: the realtime keys, overwritten in
      part by the fundamental keys (`fundamental` holds the rest of them
      when they were merged), plus the momentum and industry keys, which are
      absent (`None`) until their stage writes them. */
  datatype Record = Record(
    code: string,
    name: string,
    price: real,
    prevClose: real,
    changePct: real,
    peRatio: Option<real>,
    pbRatio: Option<real>,
    marketCap: Option<real>,
    totalShares: Option<real>,
    volume: int,
    turnover: int,
    turnoverRate: Option<real>,
    fundamental: Option<Fundamental>,
    momentum20d: Option<real>,
    industry: Option<string>)

  const UnknownIndustry := "未知行业"

  function RecordOf(q: Quote): Record {
    Record(q.code, q.name, q.price, q.prevClose, q.changePct, q.peRatio, q.pbRatio, q.marketCap,
           q.totalShares, q.volume, q.turnover, q.turnoverRate, None, None, None)
  }

  /** `stock.update(fundamental)`: the fundamental record's PB and turnover
      rate replace the realtime ones, its `None` market capitalisation and
      total shares replace the realtime ones, and PE is left alone. */
  function Update(r: Record, f: Fundamental): Record {
    r.(pbRatio := f.pbRatio, turnoverRate := f.turnoverRate, marketCap := None, totalShares := None,
       fundamental := Some(f))
  }

  /** Everything the network returns for a batch: the realtime and
      fundamental payloads, the manual dividend override and the closes of
      the history request (empty when it fails), per code. */
  datatype Sources = Sources(
    realtime: string -> Option<seq<Field>>,
    fundamental: string -> Option<seq<Field>>,
    manualDividend: string -> Option<real>,
    history: string -> seq<Close>)

  /** The realtime quotes that parsed and carry a non-empty code, in
      iteration order. */
  function ValidQuotes(order: seq<string>, src: Sources): seq<Quote> {
    if order == [] then []
    else
      var c := order[|order| - 1];
      var q := ParseRealtime(c, src.realtime(c));
      ValidQuotes(order[..|order| - 1], src) + (if q.Some? && q.value.code != [] then [q.value] else [])
  }

  function FundamentalOf(q: Quote, src: Sources): Fundamental {
    ParseFundamental(src.fundamental(q.code), src.manualDividend(q.code))
  }

  /** The batch result: each valid quote, merged with its fundamental
      record when fundamentals are requested, with momentum and industry. */
  function BatchResult(order: seq<string>, src: Sources, calculateMomentum: bool, includeFundamental: bool): (r: seq<Record>)
    ensures |r| == |ValidQuotes(order, src)|
  {
    var v := ValidQuotes(order, src);
    seq(|v|, i requires 0 <= i < |v| =>
      var base := RecordOf(v[i]);
      var merged := if includeFundamental then Update(base, FundamentalOf(v[i], src)) else base;
      merged.(momentum20d := Some(BatchMomentum(src.history(v[i].code), calculateMomentum)),
              industry := Some(UnknownIndustry)))
  }

  /** Step 1: the realtime quotes that parsed, with empty results dropped. */
  method CollectValid(order: seq<string>, src: Sources) returns (valid: seq<Quote>)
    ensures valid == ValidQuotes(order, src)
  {
    valid := [];
    for i := 0 to |order|
      invariant valid == ValidQuotes(order[..i], src)
    {
      assert order[..i + 1][..i] == order[..i];
      var q := ParseRealtime(order[i], src.realtime(order[i]));
      if q.Some? && q.value.code != [] {
        valid := valid + [q.value];
      }
    }
    assert order[..|order|] == order;
  }

  /** Step 2: each record updated with its fundamental record. */
  method MergeFundamentals(stocks: seq<Record>, src: Sources) returns (out: seq<Record>)
    ensures |out| == |stocks|
    ensures forall j :: 0 <= j < |out| ==>
              out[j] == Update(stocks[j], ParseFundamental(src.fundamental(stocks[j].code), src.manualDividend(stocks[j].code)))
  {
    out := stocks;
    for i := 0 to |out|
      invariant |out| == |stocks|
      invariant forall j :: 0 <= j < i ==>
                  out[j] == Update(stocks[j], ParseFundamental(src.fundamental(stocks[j].code), src.manualDividend(stocks[j].code)))
      invariant forall j :: i <= j < |out| ==> out[j] == stocks[j]
    {
      var f := ParseFundamental(src.fundamental(out[i].code), src.manualDividend(out[i].code));
      out := out[i := Update(out[i], f)];
    }
  }

  /** Step 3: the momentum key of each record. */
  method SetMomentum(stocks: seq<Record>, src: Sources, calculateMomentum: bool) returns (out: seq<Record>)
    ensures |out| == |stocks|
    ensures forall j :: 0 <= j < |out| ==>
              out[j] == stocks[j].(momentum20d := Some(BatchMomentum(src.history(stocks[j].code), calculateMomentum)))
  {
    out := stocks;
    for i := 0 to |out|
      invariant |out| == |stocks|
      invariant forall j :: 0 <= j < i ==>
                  out[j] == stocks[j].(momentum20d := Some(BatchMomentum(src.history(stocks[j].code), calculateMomentum)))
      invariant forall j :: i <= j < |out| ==> out[j] == stocks[j]
    {
      var m := 0.0;
      if calculateMomentum {
        var closes := src.history(out[i].code);
        if closes != [] && |closes| >= 20 {
          m := CalculateMomentum(closes, 20);
        }
      }
      out := out[i := out[i].(momentum20d := Some(m))];
    }
  }

  /** Step 4: the industry key of each record. */
  method SetIndustry(stocks: seq<Record>) returns (out: seq<Record>)
    ensures |out| == |stocks|
    ensures forall j :: 0 <= j < |out| ==> out[j] == stocks[j].(industry := Some(UnknownIndustry))
  {
    out := stocks;
    for i := 0 to |out|
      invariant |out| == |stocks|
      invariant forall j :: 0 <= j < i ==> out[j] == stocks[j].(industry := Some(UnknownIndustry))
      invariant forall j :: i <= j < |out| ==> out[j] == stocks[j]
    {
      out := out[i := out[i].(industry := Some(UnknownIndustry))];
    }
  }

  /** `batch_get_stock_data`. `order` is the iteration order of
      `list(set(codes))`: the distinct codes, each once. The four stages run
      one after another over the list of records. */
  method BatchGetStockData(codes: seq<string>, order: seq<string>, src: Sources,
                           calculateMomentum: bool, includeFundamental: bool) returns (stocks: seq<Record>)
    requires NoDup(order) && Elems(order) == Elems(codes)
    ensures stocks == BatchResult(order, src, calculateMomentum, includeFundamental)
  {
    var valid := CollectValid(order, src);
    if valid == [] {
      return [];
    }
    stocks := seq(|valid|, i requires 0 <= i < |valid| => RecordOf(valid[i]));
    if includeFundamental {
      stocks := MergeFundamentals(stocks, src);
    }
    stocks := SetMomentum(stocks, src, calculateMomentum);
    stocks := SetIndustry(stocks);
    assert forall j :: 0 <= j < |stocks| ==> stocks[j].code == valid[j].code;
  }

  /** Every valid quote is the parse of a non-empty code of `order`. */
  lemma {:induction false} ValidQuotesSound(order: seq<string>, src: Sources)
    ensures forall i :: 0 <= i < |ValidQuotes(order, src)| ==>
              var q := ValidQuotes(order, src)[i];
              q.code != [] && q.code in order && ParseRealtime(q.code, src.realtime(q.code)) == Some(q)
  {
    if order != [] {
      var init := order[..|order| - 1];
      ValidQuotesSound(init, src);
      var v := ValidQuotes(init, src);
      var w := ValidQuotes(order, src);
      assert w[..|v|] == v;
      assert forall x :: x in init ==> x in order;
    }
  }

  /** Some quote of `qs` has the code. */
  predicate HasQuote(qs: seq<Quote>, c: string) {
    exists i :: 0 <= i < |qs| && qs[i].code == c
  }

  /** A non-empty code of `order` whose quote parses has a valid quote, at
      index `i`. */
  lemma {:induction false} ValidQuoteOf(order: seq<string>, src: Sources, c: string) returns (i: nat)
    requires c in order && c != [] && ParseRealtime(c, src.realtime(c)).Some?
    ensures i < |ValidQuotes(order, src)| && ValidQuotes(order, src)[i].code == c
  {
    var init := order[..|order| - 1];
    var v := ValidQuotes(init, src);
    var w := ValidQuotes(order, src);
    assert w[..|v|] == v;
    if c == order[|order| - 1] {
      i := |w| - 1;
    } else {
      var k :| 0 <= k < |order| && order[k] == c;
      assert init[k] == c;
      i := ValidQuoteOf(init, src, c);
      assert w[i] == v[i];
    }
  }

  /** Every non-empty code of `order` whose quote parses has a valid quote. */
  lemma ValidQuotesComplete(order: seq<string>, src: Sources)
    ensures forall c :: c in order && c != [] && ParseRealtime(c, src.realtime(c)).Some? ==>
              HasQuote(ValidQuotes(order, src), c)
  {
    forall c | c in order && c != [] && ParseRealtime(c, src.realtime(c)).Some?
      ensures HasQuote(ValidQuotes(order, src), c)
    {
      var i := ValidQuoteOf(order, src, c);
    }
  }

  /** Distinct codes in `order` give valid quotes with distinct codes. */
  lemma {:induction false} ValidQuotesDistinct(order: seq<string>, src: Sources)
    requires NoDup(order)
    ensures forall i, j :: 0 <= i < j < |ValidQuotes(order, src)| ==>
              ValidQuotes(order, src)[i].code != ValidQuotes(order, src)[j].code
  {
    if order != [] {
      var init := order[..|order| - 1];
      var c := order[|order| - 1];
      assert NoDup(init);
      ValidQuotesDistinct(init, src);
      ValidQuotesSound(init, src);
      var v := ValidQuotes(init, src);
      var w := ValidQuotes(order, src);
      assert w[..|v|] == v;
      assert c !in init;
      forall i, j | 0 <= i < j < |w| ensures w[i].code != w[j].code {
        if j == |v| {
          assert w[i] == v[i] && v[i].code in init;
        } else {
          assert w[i] == v[i] && w[j] == v[j];
        }
      }
    }
  }

  /** The valid quotes are exactly the parsing quotes of the non-empty codes
      of `order`, in order, and carry distinct codes when `order` does. */
  lemma ValidQuotesFacts(order: seq<string>, src: Sources)
    ensures forall i :: 0 <= i < |ValidQuotes(order, src)| ==>
              var q := ValidQuotes(order, src)[i];
              q.code != [] && q.code in order && ParseRealtime(q.code, src.realtime(q.code)) == Some(q)
    ensures forall c :: c in order && c != [] && ParseRealtime(c, src.realtime(c)).Some? ==>
              exists i :: 0 <= i < |ValidQuotes(order, src)| && ValidQuotes(order, src)[i].code == c
    ensures NoDup(order) ==> forall i, j :: 0 <= i < j < |ValidQuotes(order, src)| ==>
              ValidQuotes(order, src)[i].code != ValidQuotes(order, src)[j].code
  {
    ValidQuotesSound(order, src);
    ValidQuotesComplete(order, src);
    if NoDup(order) {
      ValidQuotesDistinct(order, src);
    }
  }

  /** The batch result has one record per non-empty code of the input whose
      realtime quote parses, and no two records share a code. */
  lemma BatchCodes(codes: seq<string>, order: seq<string>, src: Sources, calculateMomentum: bool, includeFundamental: bool)
    requires NoDup(order) && Elems(order) == Elems(codes)
    ensures var r := BatchResult(order, src, calculateMomentum, includeFundamental);
            (forall i :: 0 <= i < |r| ==> r[i].code != [] && r[i].code in codes)
            && (forall i, j :: 0 <= i < j < |r| ==> r[i].code != r[j].code)
            && (forall c :: c in codes && c != [] && ParseRealtime(c, src.realtime(c)).Some? ==>
                  exists i :: 0 <= i < |r| && r[i].code == c)
  {
    ValidQuotesFacts(order, src);
    var r := BatchResult(order, src, calculateMomentum, includeFundamental);
    var v := ValidQuotes(order, src);
    assert forall i :: 0 <= i < |r| ==> r[i].code == v[i].code;
    forall c | c in codes ensures c in order {
      assert c in Elems(codes);
    }
    forall i | 0 <= i < |r| ensures r[i].code in codes {
      assert v[i].code in Elems(order);
    }
  }

  /** The merge keeps the realtime PE, takes PB and turnover rate from the
      fundamental record, and blanks market capitalisation and total shares;
      every record carries momentum, which is 0 below 20 bars. */
  lemma BatchRecordFacts(order: seq<string>, src: Sources, calculateMomentum: bool, includeFundamental: bool, i: nat)
    requires i < |BatchResult(order, src, calculateMomentum, includeFundamental)|
    ensures var rec := BatchResult(order, src, calculateMomentum, includeFundamental)[i];
            var q := ParseRealtime(rec.code, src.realtime(rec.code));
            var f := ParseFundamental(src.fundamental(rec.code), src.manualDividend(rec.code));
            q.Some?
            && rec.peRatio == q.value.peRatio
            && (includeFundamental ==>
                  rec.pbRatio == f.pbRatio && rec.turnoverRate == f.turnoverRate
                  && rec.marketCap.None? && rec.totalShares.None? && rec.fundamental == Some(f))
            && (!includeFundamental ==>
                  rec.pbRatio == q.value.pbRatio && rec.marketCap == q.value.marketCap && rec.fundamental.None?)
            && rec.momentum20d.Some?
            && (|src.history(rec.code)| < 20 || !calculateMomentum ==> rec.momentum20d == Some(0.0))
            && rec.industry == Some(UnknownIndustry)
  {
    ValidQuotesFacts(order, src);
  }

  /** A batch record as the stock filter sees it: keys the batch does not
      write are absent, keys holding `None` are `Null`. The fundamental
      record always holds a `None` debt ratio. */
  function ToStock(rec: Record): (x: StockFilter.Stock)
    ensures !x.debtRatio.Num?
  {
    var opt := (v: Option<real>) => if v.Some? then Num(v.value) else Null;
    var fund := (v: Option<real>) => if rec.fundamental.Some? then opt(v) else Missing;
    var f := if rec.fundamental.Some? then rec.fundamental.value else NoFundamental;
    StockFilter.Stock(
      rec.code, Num(rec.price), Num(rec.turnover as real), Num(rec.changePct),
      if rec.momentum20d.Some? then Num(rec.momentum20d.value) else Missing,
      opt(rec.peRatio), opt(rec.pbRatio), fund(f.peg), fund(f.roe), fund(f.profitGrowth),
      if rec.fundamental.Some? then Null else Missing,
      fund(f.dividendYield), None, None)
  }

  /** Since the fetcher never fills the debt ratio, the safety component of
      every fetched stock is 0 and no fetched stock scores above 90. */
  lemma FetchedSafetyZero(cfg: StockFilter.Config, order: seq<string>, src: Sources,
                          calculateMomentum: bool, includeFundamental: bool, i: nat)
    requires i < |BatchResult(order, src, calculateMomentum, includeFundamental)|
    ensures var x := ToStock(BatchResult(order, src, calculateMomentum, includeFundamental)[i]);
            StockFilter.StrengthScore(cfg, x).breakdown.safety == 0 && StockFilter.StrengthScore(cfg, x).total <= 90
  {
    var x := ToStock(BatchResult(order, src, calculateMomentum, includeFundamental)[i]);
    StockFilter.NoDebtAtMost90(cfg, x);
  }

  // ---------------------------------------------------------------------
  // Market overview

  /** The change of one line of a batch response, or `None` when the line
      is skipped (not a quote, too short, or a field that raises). */
  function LineChange(l: Line): Option<real> {
    if l.QuoteLine? && |l.parts| > 32 then FloatOrZero(l.parts[32]) else None
  }

  /** The changes of the counted lines, in order. */
  function Changes(lines: seq<Line>): seq<real> {
    if lines == [] then []
    else
      var c := LineChange(lines[|lines| - 1]);
      Changes(lines[..|lines| - 1]) + (if c.Some? then [c.value] else [])
  }

  datatype Tally = Tally(rising: nat, falling: nat, flat: nat)

  function Count(t: Tally): nat {
    t.rising + t.falling + t.flat
  }

  /** The rising, falling and flat counts over the lines. */
  function TallyOf(lines: seq<Line>): Tally {
    if lines == [] then Tally(0, 0, 0)
    else
      var t := TallyOf(lines[..|lines| - 1]);
      match LineChange(lines[|lines| - 1])
      case None => t
      case Some(c) =>
        if c > 0.0 then t.(rising := t.rising + 1)
        else if c < 0.0 then t.(falling := t.falling + 1)
        else t.(flat := t.flat + 1)
  }

  /** The tally loop over the lines of the batch responses. */
  method CountMovers(lines: seq<Line>) returns (t: Tally)
    ensures t == TallyOf(lines)
  {
    t := Tally(0, 0, 0);
    for i := 0 to |lines|
      invariant t == TallyOf(lines[..i])
    {
      assert lines[..i + 1][..i] == lines[..i];
      var l := lines[i];
      if l.QuoteLine? && |l.parts| > 32 {
        var c := FloatOrZero(l.parts[32]);
        if c.Some? {
          if c.value > 0.0 {
            t := t.(rising := t.rising + 1);
          } else if c.value < 0.0 {
            t := t.(falling := t.falling + 1);
          } else {
            t := t.(flat := t.flat + 1);
          }
        }
      }
    }
    assert lines[..|lines|] == lines;
  }

  /** Rising, falling and flat partition the counted lines, and rising
      counts the positive changes. */
  lemma {:induction false} TallyPartition(lines: seq<Line>)
    ensures Count(TallyOf(lines)) == |Changes(lines)|
    ensures TallyOf(lines).rising == CountPositive(Changes(lines))
  {
    if lines != [] {
      var init := lines[..|lines| - 1];
      TallyPartition(init);
      var c := LineChange(lines[|lines| - 1]);
      if c.Some? {
        var cs := Changes(lines);
        assert cs[..|cs| - 1] == Changes(init) && cs[|cs| - 1] == c.value;
        assert CountPositive(cs) == CountPositive(Changes(init)) + (if c.value > 0.0 then 1 else 0);
      } else {
        assert Changes(lines) == Changes(init) + [] == Changes(init);
        assert TallyOf(lines) == TallyOf(init);
      }
    }
  }

  /** The share of rising stocks in percent; 50 when nothing was counted. */
  function RisingRatio(t: Tally): (r: real)
    ensures 0.0 <= r <= 100.0
    ensures Count(t) == 0 ==> r == 50.0
    ensures Count(t) > 0 ==> r * Count(t) as real == t.rising as real * 100.0
  {
    if Count(t) > 0 then
      var n := Count(t) as real;
      QuotientBetween(t.rising as real, n, 0.0, 1.0);
      assert t.rising as real / n * n == t.rising as real;
      t.rising as real / n * 100.0
    else 50.0
  }

  /** The index changes the index request yields: lines are read in order,
      and the first line that raises (no `"`, or a change or price field
      that does not parse) ends the reading, keeping what was read. */
  function IndexChanges(lines: seq<Line>): seq<real> {
    if lines == [] then []
    else
      match lines[0]
      case Other => IndexChanges(lines[1..])
      case Malformed => []
      case QuoteLine(parts) =>
        if |parts| <= 32 then IndexChanges(lines[1..])
        else
          var change := FloatOrZero(parts[32]);
          var price := FloatOrZero(parts[3]);
          if change.None? || price.None? then [] else [change.value] + IndexChanges(lines[1..])
  }

  /** The index loop. */
  method ParseIndices(lines: seq<Line>) returns (changes: seq<real>)
    ensures changes == IndexChanges(lines)
  {
    changes := [];
    var i := 0;
    while i < |lines|
      invariant 0 <= i <= |lines|
      invariant changes + IndexChanges(lines[i..]) == IndexChanges(lines)
    {
      assert lines[i..][1..] == lines[i + 1..];
      match lines[i] {
        case Other =>
        case Malformed =>
          assert changes == IndexChanges(lines);
          return;
        case QuoteLine(parts) =>
          if |parts| > 32 {
            var change := FloatOrZero(parts[32]);
            var price := FloatOrZero(parts[3]);
            if change.None? || price.None? {
              assert changes == IndexChanges(lines);
              return;
            }
            changes := changes + [change.value];
          }
      }
      i := i + 1;
    }
  }

  /** `timedelta.seconds` of an elapsed time in seconds: the seconds part
      after whole days, which drops the days. */
  function TimedeltaSeconds(elapsed: real): (s: int)
    ensures 0 <= s < 86400
  {
    elapsed.Floor % 86400
  }

  /** The cache test of the market overview. */
  predicate CacheFresh(now: real, cacheTime: real) {
    TimedeltaSeconds(now - cacheTime) < 300
  }

  /** A cache is fresh exactly when its age falls less than five minutes
      after a whole number of days, so a cache one day and two minutes old
      counts as fresh, and one ten seconds in the future does not. */
  lemma CacheFreshness(now: real, cacheTime: real)
    ensures CacheFresh(now, cacheTime) <==>
              exists d: int :: 86400 * d <= (now - cacheTime).Floor < 86400 * d + 300
    ensures CacheFresh(cacheTime + 86520.0, cacheTime)
    ensures !CacheFresh(cacheTime - 10.0, cacheTime)
  {
    var e := (now - cacheTime).Floor;
    var d := e / 86400;
    assert e == 86400 * d + e % 86400;
    if exists d': int :: 86400 * d' <= e < 86400 * d' + 300 {
      var d' :| 86400 * d' <= e < 86400 * d' + 300;
      if d' < d {
        assert 86400 * d' + 86400 <= 86400 * d;
      } else if d' > d {
        assert 86400 * d + 86400 <= 86400 * d';
      }
    }
    assert (cacheTime + 86520.0 - cacheTime).Floor == 86520;
    assert (cacheTime - 10.0 - cacheTime).Floor == -10;
  }

  /** Where an overview's figures come from, as its `data_source` says:
      live quotes, the fixed figures used without a constituent list, or
      the same figures returned by the handler of any exception. */
  datatype OverviewSource = Live | Fallback | ErrorFallback

  /** The market overview. */
  datatype Overview = Overview(
    totalStocks: int,
    rising: nat,
    falling: nat,
    flat: nat,
    risingRatio: real,
    avgChange: real,
    successCount: nat,
    source: OverviewSource)

  const FallbackOverview := Overview(300, 135, 105, 60, 45.0, 0.2, 0, Fallback)

  const ErrorOverview := Overview(300, 135, 105, 60, 45.0, 0.2, 0, ErrorFallback)

  /** The overview from fresh data: the index lines (`None` when the index
      request fails) and the lines of the constituent batches that
      answered. */
  function LiveOverview(indexLines: Option<seq<Line>>, batchLines: seq<Line>): (o: Overview)
    ensures o.rising + o.falling + o.flat == o.successCount
    ensures 0.0 <= o.risingRatio <= 100.0
    ensures o.successCount == 0 ==> o.risingRatio == 50.0
    ensures indexLines.None? ==> o.avgChange == 0.0
    ensures indexLines.Some? ==> o.avgChange == AvgIndexChange(IndexChanges(indexLines.value))
    ensures o.rising == TallyOf(batchLines).rising && o.falling == TallyOf(batchLines).falling
    ensures o.flat == TallyOf(batchLines).flat && o.successCount == Count(TallyOf(batchLines))
    ensures o.risingRatio == RisingRatio(TallyOf(batchLines))
    ensures o.totalStocks == 300 && o.source == Live
  {
    TallyPartition(batchLines);
    var t := TallyOf(batchLines);
    var avg := if indexLines.Some? then AvgIndexChange(IndexChanges(indexLines.value)) else 0.0;
    Overview(300, t.rising, t.falling, t.flat, RisingRatio(t), avg, Count(t), Live)
  }

  /** `get_market_overview_async`: a fresh cached overview is returned as
      is; without the list of index constituents the fallback figures are
      returned. `cacheUnreadable` says that the cache file exists but
      reading it raises (bad JSON, a bad `cache_time`, a fresh entry without
      `data`); `liveRaises` that reading the constituent file or writing the
      new cache raises. Either exception reaches the outer handler, which
      returns the error figures, discarding any live counts. */
  method GetMarketOverview(cacheUnreadable: bool, cache: Option<(real, Overview)>, now: real,
                           indexLines: Option<seq<Line>>, constituentsListed: bool, liveRaises: bool,
                           batchLines: seq<Line>) returns (o: Overview)
    ensures cacheUnreadable ==> o == ErrorOverview
    ensures !cacheUnreadable && cache.Some? && CacheFresh(now, cache.value.0) ==> o == cache.value.1
    ensures !cacheUnreadable && !(cache.Some? && CacheFresh(now, cache.value.0)) ==>
              o == if !constituentsListed then FallbackOverview
                   else if liveRaises then ErrorOverview
                   else LiveOverview(indexLines, batchLines)
  {
    if cacheUnreadable {
      return ErrorOverview;
    }
    if cache.Some? && CacheFresh(now, cache.value.0) {
      return cache.value.1;
    }
    var changes: seq<real> := [];
    if indexLines.Some? {
      changes := ParseIndices(indexLines.value);
    }
    var avg := AvgIndexChange(changes);
    if !constituentsListed {
      return FallbackOverview;
    }
    var t := CountMovers(batchLines);
    o := Overview(300, t.rising, t.falling, t.flat, RisingRatio(t), avg, Count(t), Live);
    if liveRaises {
      return ErrorOverview;
    }
  }
}
