/** The smart analysis script: it tells trading hours from other times,
    picks the trading day to analyse, and runs the selection over the
    constituents' bars of that day. The clock is an input (a day number,
    an hour and a minute); the constituent list and each stock's bar window
    are inputs too. */
module SmartAnalysis {
  import opened Common
  import opened Lists
  import opened Bars
  import opened Calendar
  import StockFilter

  // ---------------------------------------------------------------------
  // Clock rules

  /** `get_last_trading_day`: a Saturday goes back one day and a Sunday
      two; a weekday before 16:00 goes back to the previous weekday (three
      days from a Monday, one otherwise), and from 16:00 on it is today.
      The day returned is always a weekday; it is today exactly on a
      weekday from 16:00, and otherwise it is the latest weekday before
      today. */
  function LastTradingDay(day: int, hour: int): (d: int)
    ensures IsWeekday(d)
    ensures d == day <==> IsWeekday(day) && hour >= 16
    ensures d != day ==> day - 3 <= d < day && forall k :: d < k < day ==> !IsWeekday(k)
  {
    NextWeekday(day - 1);
    NextWeekday(day - 2);
    NextWeekday(day - 3);
    var w := Weekday(day);
    if w == 5 then day - 1
    else if w == 6 then day - 2
    else if hour < 16 then (if w == 0 then day - 3 else day - 1)
    else day
  }

  /** `is_trading_time`: a weekday between 9:30 inclusive and 15:00
      exclusive. */
  function IsTradingTime(day: int, hour: int, minute: int): (b: bool)
    requires 0 <= minute < 60
    ensures b <==> IsWeekday(day) && 9 * 60 + 30 <= hour * 60 + minute < 15 * 60
  {
    if Weekday(day) >= 5 then false
    else (hour == 9 && minute >= 30) || (10 <= hour < 15)
  }

  /** What the script does at a given time: nothing during trading hours
      (it only advises to wait for the close), otherwise the analysis of
      the last trading day. */
  function ScriptDay(day: int, hour: int, minute: int): Option<int>
    requires 0 <= minute < 60
  {
    if IsTradingTime(day, hour, minute) then None else Some(LastTradingDay(day, hour))
  }

  /** Outside trading hours the script analyses a weekday no later than
      today; between the 15:00 close and 16:00 on a weekday it still
      analyses the previous trading day, not today. */
  lemma ScriptDayFacts(day: int, hour: int, minute: int)
    requires 0 <= minute < 60
    ensures ScriptDay(day, hour, minute).Some? <==> !(IsWeekday(day) && 9 * 60 + 30 <= hour * 60 + minute < 15 * 60)
    ensures ScriptDay(day, hour, minute).Some? ==>
              var d := ScriptDay(day, hour, minute).value;
              IsWeekday(d) && d <= day && (d == day <==> IsWeekday(day) && hour >= 16)
    ensures IsWeekday(day) && hour == 15 ==> ScriptDay(day, hour, minute).Some? && ScriptDay(day, hour, minute).value < day
  {
  }

  // ---------------------------------------------------------------------
  // The historical day

  /** The record built for a stock on the analysed day: the latest bar on
      or before the day gives the price, change, volume and turnover; the
      PE is the fixed estimate 20. */
  datatype DayRecord = DayRecord(code: string, name: string, price: Close, changePct: real, volume: int,
                                 turnover: real, peRatio: real, momentum20d: real)

  /** The name of the first constituent with the code, or "股票" followed by
      the code when none has it. */
  function NameOf(code: string, constituents: seq<(string, string)>): string {
    if constituents == [] then "股票" + code
    else if constituents[0].0 == code then constituents[0].1
    else NameOf(code, constituents[1..])
  }

  /** The lookup returns the name of the first constituent with the code,
      and the fallback name exactly when no constituent has it. */
  lemma {:induction false} NameOfFirst(code: string, constituents: seq<(string, string)>)
    ensures (exists i :: 0 <= i < |constituents| && constituents[i].0 == code) ==>
              exists i :: 0 <= i < |constituents| && constituents[i].0 == code
                          && NameOf(code, constituents) == constituents[i].1
                          && forall j :: 0 <= j < i ==> constituents[j].0 != code
    ensures (forall i :: 0 <= i < |constituents| ==> constituents[i].0 != code) ==>
              NameOf(code, constituents) == "股票" + code
  {
    if constituents != [] && constituents[0].0 != code {
      var rest := constituents[1..];
      NameOfFirst(code, rest);
      assert forall i :: 1 <= i < |constituents| ==> constituents[i] == rest[i - 1];
      if exists i :: 0 <= i < |rest| && rest[i].0 == code {
        var i :| 0 <= i < |rest| && rest[i].0 == code && NameOf(code, rest) == rest[i].1
                 && forall j :: 0 <= j < i ==> rest[j].0 != code;
        assert constituents[i + 1].0 == code;
      }
    }
  }

  /** The record of one stock on the day from its bar window (`None` when
      the fetch is empty or raises): none when no bar is dated on or before
      the day; otherwise the latest such bar, with the 20-bar momentum of
      the bars up to the day, and 0 below 20 bars. */
  function DayRecordOf(code: string, name: string, window: Option<seq<Bar>>, day: int): (r: Option<DayRecord>)
    ensures r.Some? <==> window.Some? && LastOnOrBefore(window.value, day).Some?
    ensures r.Some? ==>
              var b := LastOnOrBefore(window.value, day).value;
              r.value.code == code && r.value.name == name && r.value.price == b.close
              && r.value.peRatio == 20.0
              && r.value.momentum20d == CalculateMomentum(Closes(OnOrBefore(window.value, day)), 20)
  {
    if window.None? then None
    else
      var onDay := OnOrBefore(window.value, day);
      if onDay == [] then None
      else
        var row := onDay[|onDay| - 1];
        SmartIsCalculate20(Closes(onDay));
        Some(DayRecord(code, name, row.close, row.changePct, row.volume, row.turnover, 20.0,
                       SmartMomentum(Closes(onDay))))
  }

  /** For bars in date order, the record's price is the close of the
      latest bar dated on or before the day, and a stock has a record
      exactly when such a bar exists. */
  lemma DayRecordIsLatest(code: string, name: string, bars: seq<Bar>, day: int)
    requires Ascending(bars)
    ensures DayRecordOf(code, name, Some(bars), day).Some? <==> exists i :: 0 <= i < |bars| && bars[i].date <= day
    ensures DayRecordOf(code, name, Some(bars), day).Some? ==>
              exists i :: 0 <= i < |bars| && bars[i].date <= day
                          && DayRecordOf(code, name, Some(bars), day).value.price == bars[i].close
                          && forall j :: 0 <= j < |bars| && bars[j].date <= day ==> bars[j].date <= bars[i].date
  {
    LastOnOrBeforeIsLatest(bars, day);
    if LastOnOrBefore(bars, day).Some? {
      var b := LastOnOrBefore(bars, day).value;
      var i :| 0 <= i < |bars| && bars[i] == b;
    }
  }

  /** The records of the stocks of `codes` that have one, in list order,
      with names looked up in `all`. */
  function DayRecordsWith(codes: seq<(string, string)>, all: seq<(string, string)>, day: int,
                          history: string -> Option<seq<Bar>>): (r: seq<DayRecord>)
    ensures |r| <= |codes|
  {
    if codes == [] then []
    else
      var code := codes[|codes| - 1].0;
      var d := DayRecordOf(code, NameOf(code, all), history(code), day);
      DayRecordsWith(codes[..|codes| - 1], all, day, history) + (if d.Some? then [d.value] else [])
  }

  function ToStock(d: DayRecord): StockFilter.Stock {
    StockFilter.Stock(d.code, Num(d.price as real), Num(d.turnover), Num(d.changePct), Num(d.momentum20d),
                      Num(d.peRatio), Missing, Missing, Missing, Missing, Missing, Missing, None, None)
  }

  function ToStocks(ds: seq<DayRecord>): (r: seq<StockFilter.Stock>)
    ensures |r| == |ds|
    ensures forall i :: 0 <= i < |ds| ==> r[i] == ToStock(ds[i])
  {
    seq(|ds|, i requires 0 <= i < |ds| => ToStock(ds[i]))
  }

  /** `analyze_historical_day`: the selection over the day's records, or
      nothing when the constituent list cannot be fetched. */
  function HistoricalSelection(constituents: Option<seq<(string, string)>>, day: int,
                               history: string -> Option<seq<Bar>>): Option<seq<StockFilter.Stock>>
  {
    if constituents.None? then None
    else
      var cs := constituents.value;
      Some(StockFilter.SelectTop(StockFilter.DefaultConfig, ToStocks(DayRecordsWith(cs, cs, day, history))))
  }

  /** The per-stock loop of `analyze_historical_day`, then the selection. */
  method AnalyzeHistoricalDay(constituents: Option<seq<(string, string)>>, day: int,
                              history: string -> Option<seq<Bar>>)
    returns (selected: Option<seq<StockFilter.Stock>>)
    ensures selected == HistoricalSelection(constituents, day, history)
  {
    if constituents.None? {
      return None;
    }
    var cs := constituents.value;
    var data: seq<DayRecord> := [];
    for i := 0 to |cs|
      invariant data == DayRecordsWith(cs[..i], cs, day, history)
    {
      var code := cs[i].0;
      var d := DayRecordOf(code, NameOf(code, cs), history(code), day);
      assert cs[..i + 1][..i] == cs[..i];
      if d.Some? {
        data := data + [d.value];
      }
    }
    assert cs[..|cs|] == cs;
    var top := StockFilter.SelectTopStocks(StockFilter.DefaultConfig, ToStocks(data));
    selected := Some(top);
  }

  /** Every record of the day carries the fixed PE 20, which lies within
      the PE limit of 30: the PE filter keeps every record, so the PE
      estimate never decides the selection. */
  lemma PeFilterKeepsAll(ds: seq<DayRecord>)
    requires forall i :: 0 <= i < |ds| ==> ds[i].peRatio == 20.0
    ensures Filter(ToStocks(ds), StockFilter.PeGate(StockFilter.DefaultConfig)) == ToStocks(ds)
  {
    var s := ToStocks(ds);
    forall i | 0 <= i < |s| ensures StockFilter.PeGate(StockFilter.DefaultConfig)(s[i]) {
      assert s[i].peRatio == Num(20.0);
    }
    FilterAllPass(s, StockFilter.PeGate(StockFilter.DefaultConfig));
  }

  /** Every record built from the bars carries the fixed PE. */
  lemma {:induction false} DayRecordsPe(codes: seq<(string, string)>, all: seq<(string, string)>, day: int,
                                        history: string -> Option<seq<Bar>>)
    ensures forall i :: 0 <= i < |DayRecordsWith(codes, all, day, history)| ==>
              DayRecordsWith(codes, all, day, history)[i].peRatio == 20.0
  {
    if codes != [] {
      DayRecordsPe(codes[..|codes| - 1], all, day, history);
    }
  }
}
