/** Daily bars and the momentum rules computed from them.

    The program computes a stock's momentum in four places, with four
    slightly different rules:
    - `calculate_momentum` in both data fetchers (`CalculateMomentum`);
    - the optimized backtest (`OptimizedMomentum`), which falls back to the
      whole window when fewer than 20 bars exist;
    - the smart historical analysis (`SmartMomentum`), which has no
      fallback;
    - the simple backtest (`WindowMomentum`), which compares the target
      day's close with the 21st-from-last bar of a window that extends past
      the target day.

    Closes are positive; a zero close (a division by zero in pandas, which
    gives an infinity instead of raising) is outside the model. */
module Bars {
  import opened Common
  import opened Lists

  type Close = x: real | x > 0.0 witness 1.0

  /** One daily bar as the history source returns it. */
  datatype Bar = Bar(date: int, close: Close, changePct: real, volume: int, turnover: real)

  function CloseOf(b: Bar): Close { b.close }

  function Closes(bars: seq<Bar>): (r: seq<Close>)
    ensures |r| == |bars|
  {
    seq(|bars|, i requires 0 <= i < |bars| => bars[i].close)
  }

  ghost predicate Ascending(bars: seq<Bar>) {
    forall i, j :: 0 <= i < j < |bars| ==> bars[i].date < bars[j].date
  }

  function DateGate(target: int): Bar -> bool {
    (b: Bar) => b.date <= target
  }

  /** `df[df['日期'] <= target_date]`. */
  function OnOrBefore(bars: seq<Bar>, target: int): seq<Bar> {
    Filter(bars, DateGate(target))
  }

  /** `df_on_date.iloc[-1]`, or nothing when no bar is dated on or before
      the target. */
  function LastOnOrBefore(bars: seq<Bar>, target: int): Option<Bar> {
    var w := OnOrBefore(bars, target);
    if w == [] then None else Some(w[|w| - 1])
  }

  lemma {:induction false} OnOrBeforeAscending(bars: seq<Bar>, target: int)
    requires Ascending(bars)
    ensures Ascending(OnOrBefore(bars, target))
  {
    if bars != [] {
      var init := bars[..|bars| - 1];
      assert Ascending(init);
      OnOrBeforeAscending(init, target);
      FilterMembers(init, DateGate(target));
      var w := OnOrBefore(init, target);
      forall i | 0 <= i < |w| ensures w[i].date < bars[|bars| - 1].date {
        assert w[i] in init;
      }
    }
  }

  /** The chosen bar is the latest bar dated on or before the target, and
      there is one exactly when some bar is so dated. */
  lemma LastOnOrBeforeIsLatest(bars: seq<Bar>, target: int)
    requires Ascending(bars)
    ensures LastOnOrBefore(bars, target).Some? <==> exists i :: 0 <= i < |bars| && bars[i].date <= target
    ensures LastOnOrBefore(bars, target).Some? ==>
              var b := LastOnOrBefore(bars, target).value;
              b in bars && b.date <= target
              && forall i :: 0 <= i < |bars| && bars[i].date <= target ==> bars[i].date <= b.date
  {
    var w := OnOrBefore(bars, target);
    FilterMembers(bars, DateGate(target));
    OnOrBeforeAscending(bars, target);
    if exists i :: 0 <= i < |bars| && bars[i].date <= target {
      var i :| 0 <= i < |bars| && bars[i].date <= target;
      assert bars[i] in w;
    }
    if w != [] {
      var b := w[|w| - 1];
      assert b in w;
      forall i | 0 <= i < |bars| && bars[i].date <= target ensures bars[i].date <= b.date {
        assert bars[i] in w;
        var k :| 0 <= k < |w| && w[k] == bars[i];
      }
    }
  }

  /** `calculate_momentum(price_data, days)`: the percentage change from
      the first to the last of the final `days` closes; 0 when fewer than
      `days` bars exist (and when `days` is 0, where reading the last close
      of an empty tail raises and the exception handler returns 0). */
  function CalculateMomentum(closes: seq<Close>, days: nat): (m: real)
    ensures m > -100.0
    ensures (|closes| < days || days == 0) ==> m == 0.0
    ensures 0 < days <= |closes| ==>
              (m > 0.0 <==> closes[|closes| - 1] > closes[|closes| - days])
              && (m == 0.0 <==> closes[|closes| - 1] == closes[|closes| - days])
  {
    if |closes| < days || days == 0 then 0.0
    else
      var recent := closes[|closes| - days..];
      (recent[|recent| - 1] as real / recent[0] as real - 1.0) * 100.0
  }

  /** The momentum both data fetchers write into a batch record:
      `calculate_momentum` over 20 days when the history holds at least 20
      bars, 0 with fewer bars or when momentum is switched off. */
  function BatchMomentum(closes: seq<Close>, calculateMomentum: bool): (m: real)
    ensures !calculateMomentum || |closes| < 20 ==> m == 0.0
    ensures calculateMomentum && |closes| >= 20 ==> m == CalculateMomentum(closes, 20)
  {
    if calculateMomentum && closes != [] && |closes| >= 20 then CalculateMomentum(closes, 20) else 0.0
  }

  /** The momentum rule of the optimized backtest: over the last 20 bars
      when there are at least 20, over the whole window when there are 2 to
      19, and 0 otherwise. */
  function OptimizedMomentum(closes: seq<Close>): real {
    if |closes| >= 20 then (closes[|closes| - 1] as real / closes[|closes| - 20] as real - 1.0) * 100.0
    else if |closes| >= 2 then (closes[|closes| - 1] as real / closes[0] as real - 1.0) * 100.0
    else 0.0
  }

  /** The momentum rule of the smart historical analysis: over the last 20
      bars, and 0 with fewer than 20. */
  function SmartMomentum(closes: seq<Close>): real {
    if |closes| >= 20 then (closes[|closes| - 1] as real / closes[|closes| - 20] as real - 1.0) * 100.0
    else 0.0
  }

  /** The momentum rule of the simple backtest: the target day's close
      against the 21st-from-last close of the whole window, when the window
      holds at least 21 bars. */
  function WindowMomentum(target: Close, window: seq<Close>): real {
    if |window| >= 21 then (target as real / window[|window| - 21] as real - 1.0) * 100.0 else 0.0
  }

  /** The smart analysis rule is `calculate_momentum` with 20 days. */
  lemma SmartIsCalculate20(closes: seq<Close>)
    ensures SmartMomentum(closes) == CalculateMomentum(closes, 20)
  {
  }

  /** The optimized backtest agrees with `calculate_momentum` over 20 days
      when there are 20 bars or more, and over the whole window below that. */
  lemma OptimizedAgreement(closes: seq<Close>)
    ensures |closes| >= 20 ==> OptimizedMomentum(closes) == CalculateMomentum(closes, 20)
    ensures 2 <= |closes| < 20 ==> OptimizedMomentum(closes) == CalculateMomentum(closes, |closes|)
    ensures |closes| < 2 ==> OptimizedMomentum(closes) == 0.0
  {
  }

  /** When the target day is the last bar of the window, the simple
      backtest's rule spans 21 closes, one more than `calculate_momentum`
      with 20 days. */
  lemma WindowIsCalculate21(window: seq<Close>)
    requires window != []
    ensures WindowMomentum(window[|window| - 1], window) == CalculateMomentum(window, 21)
  {
  }

  /** Closes 100, 101, ..., 124: the last 20 start at 105, so the momentum
      is (124 / 105 - 1) * 100. */
  lemma RisingClosesExample()
    ensures CalculateMomentum(seq(25, i requires 0 <= i < 25 => (100 + i) as real as Close), 20)
            == (124.0 / 105.0 - 1.0) * 100.0
  {
    var closes: seq<Close> := seq(25, i requires 0 <= i < 25 => (100 + i) as real as Close);
    assert closes[24] == 124.0 && closes[5] == 105.0;
    assert closes[5..][0] == 105.0 && closes[5..][19] == 124.0;
  }
}
