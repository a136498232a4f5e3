/** The optimized backtest: a file cache of per-day stock records with an
    expiry, the record of a stock on a date (the last bar on or before it,
    and the momentum of the bars up to it), the next-trading-day search, the
    single-day backtest with its return statistics, and the multi-day loop
    over the weekdays of a range. Dates are day numbers (see `Calendar`);
    a record's cache key is built from the date's text, which the caller
    supplies. Histories, name lookups, clock readings and the random sample
    are inputs. */
module OptimizedBacktest {
  import opened Common
  import opened Lists
  import opened Bars
  import opened Calendar
  import StockFilter

  // ---------------------------------------------------------------------
  // Cache

  /** `cache_expire_days` when the configuration does not set it. */
  const DefaultExpireDays: nat := 7

  function ExpireSeconds(expireDays: nat): real {
    (expireDays * 86400) as real
  }

  /** The record `get_stock_data_for_date` returns: the PE is the fixed
      default 20 and the strength score starts at 0. */
  datatype DayRecord = DayRecord(
    code: string,
    name: string,
    price: Close,
    changePct: real,
    volume: int,
    turnover: real,
    peRatio: real,
    momentum20d: real,
    strengthScore: int)

  /** `f"stock_{code}_{date}"`. */
  function DayKey(code: string, date: string): string {
    Join("stock_" + code, date)
  }

  /** Dates written `YYYY-MM-DD` hold no underscore, so a key names one
      stock and one date, also for codes that hold underscores. */
  lemma DayKeyInjective(code1: string, date1: string, code2: string, date2: string)
    requires NoUnderscore(date1) && NoUnderscore(date2)
    requires DayKey(code1, date1) == DayKey(code2, date2)
    ensures code1 == code2 && date1 == date2
  {
    JoinInjective("stock_" + code1, date1, "stock_" + code2, date2);
    assert code1 == ("stock_" + code1)[6..] == ("stock_" + code2)[6..] == code2;
  }

  /** `load_from_cache` over the cache files (key to stored record and
      modification time): the record when the file exists and is younger
      than the expiry. */
  function LoadOf(files: map<string, (DayRecord, real)>, key: string, now: real, expireDays: nat): (r: Option<DayRecord>)
    ensures r.Some? ==> key in files && r.value == files[key].0
  {
    if key in files && now - files[key].1 < ExpireSeconds(expireDays) then Some(files[key].0) else None
  }

  /** A record saved at `saved` is loaded back, unchanged, exactly while
      it is younger than the expiry; with the default of 7 days it is
      still there after 6 days and gone after exactly 7. */
  lemma SavedRecordExpires(files: map<string, (DayRecord, real)>, key: string, d: DayRecord, saved: real, now: real, expireDays: nat)
    ensures LoadOf(files[key := (d, saved)], key, now, expireDays).Some? <==> now - saved < (expireDays * 86400) as real
    ensures LoadOf(files[key := (d, saved)], key, now, expireDays).Some? ==>
              LoadOf(files[key := (d, saved)], key, now, expireDays) == Some(d)
    ensures LoadOf(files[key := (d, saved)], key, saved + 518400.0, DefaultExpireDays) == Some(d)
    ensures LoadOf(files[key := (d, saved)], key, saved + 604800.0, DefaultExpireDays) == None
  {
  }

  /** The name shown for a stock: the cached name, else the looked-up name,
      else "股票" followed by the code. */
  function NameFor(names: map<string, string>, code: string, lookup: Option<string>): (n: string)
    ensures code in names ==> n == names[code]
    ensures code !in names && lookup.Some? ==> n == lookup.value
    ensures code !in names && lookup.None? ==> n == "股票" + code
  {
    if code in names then names[code] else if lookup.Some? then lookup.value else "股票" + code
  }

  /** The record of a stock on a date: its last bar dated on or before the
      date, with the momentum of the bars up to that day. */
  function DayRecordOf(code: string, name: string, bars: seq<Bar>, date: int): (r: Option<DayRecord>)
    ensures r.Some? <==> LastOnOrBefore(bars, date).Some?
    ensures r.Some? ==> r.value.code == code && r.value.name == name
                        && r.value.peRatio == 20.0 && r.value.strengthScore == 0
  {
    var w := OnOrBefore(bars, date);
    if w == [] then None
    else
      var row := w[|w| - 1];
      Some(DayRecord(code, name, row.close, row.changePct, row.volume, row.turnover, 20.0,
                     OptimizedMomentum(Closes(w)), 0))
  }

  /** For bars in date order, the record is the latest bar dated on or
      before the date, and its momentum is `calculate_momentum` over 20 days
      when at least 20 such bars exist, over all of them with 2 to 19, and 0
      with one. */
  lemma DayRecordIsLatestBar(code: string, name: string, bars: seq<Bar>, date: int)
    requires Ascending(bars)
    ensures DayRecordOf(code, name, bars, date).Some? <==> exists i :: 0 <= i < |bars| && bars[i].date <= date
    ensures DayRecordOf(code, name, bars, date).Some? ==>
              var d := DayRecordOf(code, name, bars, date).value;
              var row := LastOnOrBefore(bars, date).value;
              var w := Closes(OnOrBefore(bars, date));
              row in bars && row.date <= date
              && (forall i :: 0 <= i < |bars| && bars[i].date <= date ==> bars[i].date <= row.date)
              && d.price == row.close && d.changePct == row.changePct
              && (|w| >= 20 ==> d.momentum20d == CalculateMomentum(w, 20))
              && (2 <= |w| < 20 ==> d.momentum20d == CalculateMomentum(w, |w|))
              && (|w| < 2 ==> d.momentum20d == 0.0)
  {
    LastOnOrBeforeIsLatest(bars, date);
    OptimizedAgreement(Closes(OnOrBefore(bars, date)));
  }

  /** The cache directory and the name cache of the backtest. */
  class BacktestCache {
    var files: map<string, (DayRecord, real)>
    var names: map<string, string>
    const expireDays: nat

    constructor(expireDays: nat)
      ensures files == map[] && names == map[] && this.expireDays == expireDays
    {
      files := map[];
      names := map[];
      this.expireDays := expireDays;
    }

    function Load(key: string, now: real): (r: Option<DayRecord>)
      reads this
      ensures r == LoadOf(files, key, now, expireDays)
      ensures r.Some? <==> key in files && now - files[key].1 < ExpireSeconds(expireDays)
    {
      LoadOf(files, key, now, expireDays)
    }

    /** `save_to_cache`: the file for the key now holds the record, with
      the current time as its modification time. */
    method Save(key: string, data: DayRecord, now: real)
      modifies this
      ensures files == old(files)[key := (data, now)] && names == old(names)
    {
      files := files[key := (data, now)];
    }

    /** `get_stock_name`: a cached name; else a looked-up name, which is
        cached; else the placeholder, which is not. */
    method GetStockName(code: string, lookup: Option<string>) returns (name: string)
      modifies this
      ensures name == NameFor(old(names), code, lookup)
      ensures names == if code !in old(names) && lookup.Some? then old(names)[code := lookup.value] else old(names)
      ensures files == old(files)
    {
      if code in names {
        return names[code];
      }
      if lookup.Some? {
        names := names[code := lookup.value];
        return lookup.value;
      }
      return "股票" + code;
    }

    /** `get_stock_data_for_date`: a fresh cached record is returned as it
        is; otherwise the record is built from the fetched bars (`None` when
        the fetch is empty or raises), and saved when there is one. The name
        is looked up only when a bar was found. */
    method GetStockDataForDate(code: string, dateText: string, date: int, now: real,
                               history: Option<seq<Bar>>, lookup: Option<string>)
      returns (data: Option<DayRecord>)
      modifies this
      ensures old(Load(DayKey(code, dateText), now)).Some? ==>
                data == old(Load(DayKey(code, dateText), now)) && files == old(files) && names == old(names)
      ensures old(Load(DayKey(code, dateText), now)).None? ==>
                var found := history.Some? && LastOnOrBefore(history.value, date).Some?;
                data == (if found then DayRecordOf(code, NameFor(old(names), code, lookup), history.value, date) else None)
                && files == (if found then old(files)[DayKey(code, dateText) := (data.value, now)] else old(files))
                && names == (if found && code !in old(names) && lookup.Some? then old(names)[code := lookup.value] else old(names))
    {
      var key := DayKey(code, dateText);
      var cached := Load(key, now);
      if cached.Some? {
        return cached;
      }
      if history.None? || OnOrBefore(history.value, date) == [] {
        return None;
      }
      var name := GetStockName(code, lookup);
      data := DayRecordOf(code, name, history.value, date);
      Save(key, data.value, now);
    }
  }

  // ---------------------------------------------------------------------
  // Next trading day

  function Step(date: int, days: int, i: int): int {
    date + i * days
  }

  /** The first of `date + i * days`, for `i` from `from` to 14, that is a
      weekday. */
  function FirstWeekdayStep(date: int, days: int, from: nat): Option<int>
    decreases 15 - from
  {
    if from > 14 then None
    else if IsWeekday(Step(date, days, from)) then Some(Step(date, days, from))
    else FirstWeekdayStep(date, days, from + 1)
  }

  /** `get_next_trading_day(date, days)` on a well-formed date. */
  function NextTradingDay(date: int, days: int): int {
    var f := FirstWeekdayStep(date, days, 1);
    if f.Some? then f.value else date + days
  }

  lemma {:induction false} FirstWeekdayStepFacts(date: int, days: int, from: nat)
    requires from >= 1
    ensures var f := FirstWeekdayStep(date, days, from);
            (f.Some? <==> exists i :: from <= i <= 14 && IsWeekday(Step(date, days, i)))
            && (f.Some? ==> exists i :: from <= i <= 14 && f.value == Step(date, days, i) && IsWeekday(f.value)
                                        && forall j :: from <= j < i ==> !IsWeekday(Step(date, days, j)))
    decreases 15 - from
  {
    if from <= 14 && !IsWeekday(Step(date, days, from)) {
      FirstWeekdayStepFacts(date, days, from + 1);
      var f := FirstWeekdayStep(date, days, from);
      if f.Some? {
        var i :| from + 1 <= i <= 14 && f.value == Step(date, days, i) && IsWeekday(f.value)
                 && forall j :: from + 1 <= j < i ==> !IsWeekday(Step(date, days, j));
        assert forall j :: from <= j < i ==> !IsWeekday(Step(date, days, j));
      }
    } else if from <= 14 {
      assert IsWeekday(Step(date, days, from));
    }
  }

  /** The next trading day is the first weekday among `date + i * days`
      for `i` from 1 to 14; when none is a weekday it is `date + days`,
      even on a weekend. */
  lemma NextTradingDayFacts(date: int, days: int)
    ensures (exists i :: 1 <= i <= 14 && IsWeekday(Step(date, days, i))) ==>
              exists i :: 1 <= i <= 14 && NextTradingDay(date, days) == Step(date, days, i)
                          && IsWeekday(NextTradingDay(date, days))
                          && forall j :: 1 <= j < i ==> !IsWeekday(Step(date, days, j))
    ensures (forall i :: 1 <= i <= 14 ==> !IsWeekday(Step(date, days, i))) ==> NextTradingDay(date, days) == date + days
  {
    FirstWeekdayStepFacts(date, days, 1);
  }

  /** Moving on by `days` moves the weekday on by `days % 7`. */
  lemma WeekdayAfter(day: int, days: int)
    ensures Weekday(day + days) == (Weekday(day) + days % 7) % 7
  {
    var u, v := day + 3, days;
    assert u == 7 * (u / 7) + u % 7;
    assert v == 7 * (v / 7) + v % 7;
    assert u + v == 7 * (u / 7 + v / 7) + (u % 7 + v % 7);
  }

  /** Three steps of one to six days from any weekday number meet a
      weekday (Monday to Friday): at most two of the three steps can land
      on the two weekend days. */
  lemma ThreeStepsMeetWeekday(w: int, r: int)
    requires 0 <= w < 7 && 1 <= r < 7
    ensures (w + r) % 7 < 5 || ((w + r) % 7 + r) % 7 < 5 || (((w + r) % 7 + r) % 7 + r) % 7 < 5
  {
  }

  /** Whenever `days` is not a whole number of weeks, one of the first three
      steps lands on a weekday, so the result is a weekday. */
  lemma NextTradingDayIsWeekday(date: int, days: int)
    requires days % 7 != 0
    ensures IsWeekday(NextTradingDay(date, days))
  {
    WeekdayAfter(date, days);
    WeekdayAfter(date + days, days);
    WeekdayAfter(date + 2 * days, days);
    assert Step(date, days, 1) == date + days;
    assert Step(date, days, 2) == date + days + days;
    assert Step(date, days, 3) == date + 2 * days + days;
    ThreeStepsMeetWeekday(Weekday(date), days % 7);
    assert IsWeekday(Step(date, days, 1)) || IsWeekday(Step(date, days, 2)) || IsWeekday(Step(date, days, 3));
    NextTradingDayFacts(date, days);
  }

  /** A Saturday with a holding period of 7 days: every step is a Saturday,
      and the fallback returns the next Saturday. */
  lemma SaturdayWeekLaterStaysWeekend(date: int)
    requires Weekday(date) == 5
    ensures NextTradingDay(date, 7) == date + 7 && !IsWeekday(date + 7)
  {
    forall i | 1 <= i <= 14 ensures !IsWeekday(Step(date, 7, i)) {
      WeekdayShift(date, i);
    }
    NextTradingDayFacts(date, 7);
    WeekdayShift(date, 1);
  }

  /** The search loop of `get_next_trading_day`. */
  method GetNextTradingDay(date: int, days: int) returns (next: int)
    ensures next == NextTradingDay(date, days)
  {
    for i := 1 to 15
      invariant FirstWeekdayStep(date, days, 1) == FirstWeekdayStep(date, days, i)
    {
      if IsWeekday(Step(date, days, i)) {
        return Step(date, days, i);
      }
    }
    return date + days;
  }

  // ---------------------------------------------------------------------
  // Trading days of a range

  /** The loop of `backtest_multi_days` that lists the trading days: the
      weekdays from `start` to `end`, both included, in ascending order. */
  method TradingDays(start: int, end: int) returns (days: seq<int>)
    ensures forall i, j :: 0 <= i < j < |days| ==> days[i] < days[j]
    ensures forall i :: 0 <= i < |days| ==> start <= days[i] <= end && IsWeekday(days[i])
    ensures forall d :: start <= d <= end && IsWeekday(d) ==> d in days
  {
    days := [];
    var current := start;
    while current <= end
      invariant start <= current <= if end + 1 > start then end + 1 else start
      invariant forall i, j :: 0 <= i < j < |days| ==> days[i] < days[j]
      invariant forall i :: 0 <= i < |days| ==> start <= days[i] < current && IsWeekday(days[i])
      invariant forall d :: start <= d < current && IsWeekday(d) ==> d in days
      decreases end - current
    {
      if IsWeekday(current) {
        days := days + [current];
      }
      current := current + 1;
    }
  }

  // ---------------------------------------------------------------------
  // Single-day backtest

  /** One closed trade of the backtest. */
  datatype Trade = Trade(code: string, buyPrice: real, sellPrice: real, returnPct: real)

  datatype Summary = Summary(
    avgReturn: real,
    maxReturn: real,
    minReturn: real,
    winRate: real,
    winCount: nat,
    totalCount: nat)

  /** The summary of a day's returns: with no trade every field is 0;
      otherwise the wins are at most the trades, the average lies between
      the worst and the best return, and the win rate is a percentage. */
  function SummaryOf(rets: seq<real>): (m: Summary)
    ensures m.totalCount == |rets|
    ensures rets == [] ==> m == Summary(0.0, 0.0, 0.0, 0.0, 0, 0)
    ensures rets != [] ==>
              m.winCount == CountPositive(rets) <= m.totalCount
              && m.minReturn <= m.avgReturn <= m.maxReturn
              && m.minReturn in rets && m.maxReturn in rets
              && (forall i :: 0 <= i < |rets| ==> m.minReturn <= rets[i] <= m.maxReturn)
              && 0.0 <= m.winRate <= 100.0
  {
    if rets == [] then Summary(0.0, 0.0, 0.0, 0.0, 0, 0)
    else
      AverageBetween(rets);
      MinIsLowerBound(rets);
      MaxIsUpperBound(rets);
      var wins := CountPositive(rets);
      assert wins as real / |rets| as real <= 1.0;
      Summary(Sum(rets) / |rets| as real, Max(rets), Min(rets),
              wins as real / |rets| as real * 100.0, wins, |rets|)
  }

  /** The outcome of one backtest day that reached the selection. */
  datatype DayResult =
    | NoneSelected(analysisDate: int)
    | Traded(analysisDate: int, sellDate: int, holdDays: int, selectedCount: nat,
             sampleSize: nat, performance: seq<Trade>, summary: Summary)

  function SelectedCount(r: DayResult): nat {
    if r.NoneSelected? then 0 else r.selectedCount
  }

  /** A day record as the stock filter sees it; the keys the record does
      not have read as absent. */
  function ToStock(d: DayRecord): StockFilter.Stock {
    StockFilter.Stock(d.code, Num(d.price as real), Num(d.turnover), Num(d.changePct), Num(d.momentum20d),
                      Num(d.peRatio), Missing, Missing, Missing, Missing, Missing, Missing, None, None)
  }

  function ToStocks(ds: seq<DayRecord>): (r: seq<StockFilter.Stock>)
    ensures |r| == |ds|
  {
    seq(|ds|, i requires 0 <= i < |ds| => ToStock(ds[i]))
  }

  predicate PricePositive(x: StockFilter.Stock) {
    x.price.Num? && x.price.x > 0.0
  }

  /** The day records gathered for the sampled codes, in sample order. */
  function Gathered(pool: seq<string>, date: int, dayData: (string, int) -> Option<DayRecord>): seq<DayRecord> {
    if pool == [] then []
    else
      var d := dayData(pool[|pool| - 1], date);
      Gathered(pool[..|pool| - 1], date, dayData) + (if d.Some? then [d.value] else [])
  }

  /** The trades of the selected stocks whose sell-day record exists, in
      selection order, each with its percentage return. */
  function Trades(selected: seq<StockFilter.Stock>, sellDate: int, dayData: (string, int) -> Option<DayRecord>): (t: seq<Trade>)
    requires forall i :: 0 <= i < |selected| ==> PricePositive(selected[i])
    ensures |t| <= |selected|
  {
    if selected == [] then []
    else
      var x := selected[|selected| - 1];
      assert PricePositive(x);
      var d := dayData(x.code, sellDate);
      Trades(selected[..|selected| - 1], sellDate, dayData)
      + (if d.Some? then [Trade(x.code, x.price.x, d.value.price as real, (d.value.price as real / x.price.x - 1.0) * 100.0)] else [])
  }

  function Returns(t: seq<Trade>): (r: seq<real>)
    ensures |r| == |t|
  {
    seq(|t|, i requires 0 <= i < |t| => t[i].returnPct)
  }

  /** Every selected record comes from a day record, whose price is a
      positive close. */
  lemma SelectionPricesPositive(cfg: StockFilter.Config, ds: seq<DayRecord>)
    ensures forall i :: 0 <= i < |StockFilter.SelectTop(cfg, ToStocks(ds))| ==>
              PricePositive(StockFilter.SelectTop(cfg, ToStocks(ds))[i])
  {
    var s := ToStocks(ds);
    var r := StockFilter.SelectTop(cfg, s);
    StockFilter.SelectTopProperties(cfg, s);
    forall i | 0 <= i < |r| ensures PricePositive(r[i]) {
      assert StockFilter.Plain(r[i]) in StockFilter.Plains(s);
      var j :| 0 <= j < |s| && StockFilter.Plains(s)[j] == StockFilter.Plain(r[i]);
      assert r[i].price == s[j].price;
    }
  }

  /** `backtest_single_day`: nothing without constituents or with fewer than
      ten records gathered; a day without selection when the filter selects
      nothing; otherwise the trades at the next trading day and their
      summary. `sample` is what `random.sample` drew, used when the sample
      size is below the number of constituents. */
  function SingleDay(cfg: StockFilter.Config, stockList: seq<string>, sampleSize: nat, sample: seq<string>,
                     date: int, holdDays: int, dayData: (string, int) -> Option<DayRecord>): (r: Option<DayResult>)
    ensures r.None? <==> (stockList == [] ||
                          |Gathered(if sampleSize >= |stockList| then stockList else sample, date, dayData)| < 10)
  {
    if stockList == [] then None
    else
      var pool := if sampleSize >= |stockList| then stockList else sample;
      var data := Gathered(pool, date, dayData);
      if |data| < 10 then None
      else
        var selected := StockFilter.SelectTop(cfg, ToStocks(data));
        if selected == [] then Some(NoneSelected(date))
        else
          SelectionPricesPositive(cfg, data);
          var sellDate := NextTradingDay(date, holdDays);
          var trades := Trades(selected, sellDate, dayData);
          Some(Traded(date, sellDate, holdDays, |selected|, |data|, trades, SummaryOf(Returns(trades))))
  }

  /** The gathering loop of `backtest_single_day`. */
  method GatherDayData(pool: seq<string>, date: int, dayData: (string, int) -> Option<DayRecord>)
    returns (data: seq<DayRecord>)
    ensures data == Gathered(pool, date, dayData)
  {
    data := [];
    for i := 0 to |pool|
      invariant data == Gathered(pool[..i], date, dayData)
    {
      var d := dayData(pool[i], date);
      assert pool[..i + 1][..i] == pool[..i];
      if d.Some? {
        data := data + [d.value];
      }
    }
    assert pool[..|pool|] == pool;
  }

  /** The trade loop of `backtest_single_day`. */
  method CollectTrades(selected: seq<StockFilter.Stock>, sellDate: int, dayData: (string, int) -> Option<DayRecord>)
    returns (performance: seq<Trade>)
    requires forall i :: 0 <= i < |selected| ==> PricePositive(selected[i])
    ensures performance == Trades(selected, sellDate, dayData)
  {
    performance := [];
    for i := 0 to |selected|
      invariant performance == Trades(selected[..i], sellDate, dayData)
    {
      var x := selected[i];
      assert PricePositive(x);
      var sell := dayData(x.code, sellDate);
      assert selected[..i + 1][..i] == selected[..i];
      if sell.Some? {
        var buy := x.price.x;
        performance := performance + [Trade(x.code, buy, sell.value.price as real, (sell.value.price as real / buy - 1.0) * 100.0)];
      }
    }
    assert selected[..|selected|] == selected;
  }

  /** The single-day backtest as the source runs it: the gathering loop,
      the selection, the sell-day search and the trade loop. */
  method BacktestSingleDay(cfg: StockFilter.Config, stockList: seq<string>, sampleSize: nat, sample: seq<string>,
                           date: int, holdDays: int, dayData: (string, int) -> Option<DayRecord>)
    returns (r: Option<DayResult>)
    ensures r == SingleDay(cfg, stockList, sampleSize, sample, date, holdDays, dayData)
  {
    if stockList == [] {
      return None;
    }
    var pool := if sampleSize >= |stockList| then stockList else sample;
    var data := GatherDayData(pool, date, dayData);
    if |data| < 10 {
      return None;
    }
    var selected := StockFilter.SelectTopStocks(cfg, ToStocks(data));
    if selected == [] {
      return Some(NoneSelected(date));
    }
    SelectionPricesPositive(cfg, data);
    var sellDate := GetNextTradingDay(date, holdDays);
    var performance := CollectTrades(selected, sellDate, dayData);
    r := Some(Traded(date, sellDate, holdDays, |selected|, |data|, performance, SummaryOf(Returns(performance))));
  }

  lemma {:induction false} TradesFacts(selected: seq<StockFilter.Stock>, sellDate: int, dayData: (string, int) -> Option<DayRecord>)
    requires forall i :: 0 <= i < |selected| ==> PricePositive(selected[i])
    ensures forall k :: 0 <= k < |Trades(selected, sellDate, dayData)| ==>
              var t := Trades(selected, sellDate, dayData)[k];
              t.buyPrice > 0.0 && t.sellPrice > 0.0
              && t.returnPct == (t.sellPrice / t.buyPrice - 1.0) * 100.0
              && (t.returnPct > 0.0 <==> t.sellPrice > t.buyPrice)
              && exists i :: 0 <= i < |selected| && selected[i].code == t.code && selected[i].price == Num(t.buyPrice)
  {
    if selected != [] {
      var init := selected[..|selected| - 1];
      TradesFacts(init, sellDate, dayData);
      var t := Trades(selected, sellDate, dayData);
      forall k | 0 <= k < |Trades(init, sellDate, dayData)|
        ensures exists i :: 0 <= i < |selected| && selected[i].code == t[k].code && selected[i].price == Num(t[k].buyPrice)
      {
        var i :| 0 <= i < |init| && init[i].code == t[k].code && init[i].price == Num(t[k].buyPrice);
        assert selected[i] == init[i];
      }
      var x := selected[|selected| - 1];
      if |t| > |Trades(init, sellDate, dayData)| {
        var last := t[|t| - 1];
        GainIffHigher(last.buyPrice, last.sellPrice);
      }
    }
  }

  /** A traded day: the trades belong to selected stocks, bought at the
      analysis day's price, and each win is a sale above the buy price; no
      more stocks are selected than the configuration allows, and the
      summary counts every trade. */
  lemma SingleDayFacts(cfg: StockFilter.Config, stockList: seq<string>, sampleSize: nat, sample: seq<string>,
                       date: int, holdDays: int, dayData: (string, int) -> Option<DayRecord>)
    requires SingleDay(cfg, stockList, sampleSize, sample, date, holdDays, dayData).Some?
    ensures var r := SingleDay(cfg, stockList, sampleSize, sample, date, holdDays, dayData).value;
            r.Traded? ==>
              && 0 < r.selectedCount <= cfg.maxStocks
              && r.sampleSize >= 10
              && r.sellDate == NextTradingDay(date, holdDays)
              && |r.performance| <= r.selectedCount
              && r.summary.totalCount == |r.performance|
              && forall k :: 0 <= k < |r.performance| ==>
                   r.performance[k].buyPrice > 0.0
                   && (r.performance[k].returnPct > 0.0 <==> r.performance[k].sellPrice > r.performance[k].buyPrice)
  {
    var pool := if sampleSize >= |stockList| then stockList else sample;
    var data := Gathered(pool, date, dayData);
    var selected := StockFilter.SelectTop(cfg, ToStocks(data));
    StockFilter.SelectTopProperties(cfg, ToStocks(data));
    if selected != [] {
      SelectionPricesPositive(cfg, data);
      TradesFacts(selected, NextTradingDay(date, holdDays), dayData);
    }
  }

  /** What a day result holds: the analysis date, the filter's selection
      over the records found (none exactly when it is empty), its size, the
      number of records, the trades of the selection at the sell date and
      their summary. */
  lemma SingleDayContent(cfg: StockFilter.Config, stockList: seq<string>, sampleSize: nat, sample: seq<string>,
                         date: int, holdDays: int, dayData: (string, int) -> Option<DayRecord>)
    requires SingleDay(cfg, stockList, sampleSize, sample, date, holdDays, dayData).Some?
    ensures var r := SingleDay(cfg, stockList, sampleSize, sample, date, holdDays, dayData).value;
            var data := Gathered(if sampleSize >= |stockList| then stockList else sample, date, dayData);
            var sel := StockFilter.SelectTop(cfg, ToStocks(data));
            r.analysisDate == date
            && (r.NoneSelected? <==> sel == [])
            && (r.Traded? ==>
                  r.selectedCount == |sel| && r.sampleSize == |data| && r.holdDays == holdDays
                  && (forall i :: 0 <= i < |sel| ==> PricePositive(sel[i]))
                  && r.performance == Trades(sel, r.sellDate, dayData)
                  && r.summary == SummaryOf(Returns(r.performance)))
  {
    var data := Gathered(if sampleSize >= |stockList| then stockList else sample, date, dayData);
    SelectionPricesPositive(cfg, data);
  }

  // ---------------------------------------------------------------------
  // Multi-day backtest

  /** `result and result['selected_count'] > 0`. */
  function HasSelection(): Option<DayResult> -> bool {
    (r: Option<DayResult>) => r.Some? && SelectedCount(r.value) > 0
  }

  /** The results kept by `backtest_multi_days`, in day order. */
  function KeptResults(days: seq<int>, dayResult: int -> Option<DayResult>): seq<DayResult> {
    if days == [] then []
    else
      var r := dayResult(days[|days| - 1]);
      KeptResults(days[..|days| - 1], dayResult) + (if HasSelection()(r) then [r.value] else [])
  }

  /** `backtest_multi_days`: runs every trading day of the range
      (`dayResult` gives each day's single-day outcome) and keeps the days
      that selected stocks. */
  method BacktestMultiDays(start: int, end: int, dayResult: int -> Option<DayResult>)
    returns (days: seq<int>, allResults: seq<DayResult>)
    ensures forall i, j :: 0 <= i < j < |days| ==> days[i] < days[j]
    ensures forall d :: start <= d <= end && IsWeekday(d) <==> d in days
    ensures allResults == KeptResults(days, dayResult)
  {
    days := TradingDays(start, end);
    allResults := [];
    for i := 0 to |days|
      invariant allResults == KeptResults(days[..i], dayResult)
    {
      var r := dayResult(days[i]);
      assert days[..i + 1][..i] == days[..i];
      if r.Some? && SelectedCount(r.value) > 0 {
        allResults := allResults + [r.value];
      }
    }
    assert days[..|days|] == days;
  }

  /** Every kept day selected at least one stock and is one of the days,
      and a day is kept exactly when its outcome selected stocks. */
  lemma {:induction false} KeptResultsFacts(days: seq<int>, dayResult: int -> Option<DayResult>)
    ensures |KeptResults(days, dayResult)| <= |days|
    ensures forall k :: 0 <= k < |KeptResults(days, dayResult)| ==>
              SelectedCount(KeptResults(days, dayResult)[k]) > 0
              && exists i :: 0 <= i < |days| && dayResult(days[i]) == Some(KeptResults(days, dayResult)[k])
    ensures forall i :: 0 <= i < |days| && HasSelection()(dayResult(days[i])) ==>
              dayResult(days[i]).value in KeptResults(days, dayResult)
  {
    if days != [] {
      var init := days[..|days| - 1];
      KeptResultsFacts(init, dayResult);
      var kept := KeptResults(days, dayResult);
      forall k | 0 <= k < |KeptResults(init, dayResult)|
        ensures exists i :: 0 <= i < |days| && dayResult(days[i]) == Some(kept[k])
      {
        var i :| 0 <= i < |init| && dayResult(init[i]) == Some(KeptResults(init, dayResult)[k]);
        assert days[i] == init[i];
      }
      forall i | 0 <= i < |days| && HasSelection()(dayResult(days[i]))
        ensures dayResult(days[i]).value in kept
      {
        if i < |init| {
          assert days[i] == init[i];
        }
      }
    }
  }
}
