/** The pure core of the synchronous data fetcher: its realtime quote
    parse and retry loop, the history cache, the market estimate drawn from
    the index changes, and the batch loop that skips codes already
    fetched. As in the asynchronous fetcher, responses are inputs. */
module DataFetcher {
  import opened Common
  import opened Retry
  import opened Bars

  // ---------------------------------------------------------------------
  // Realtime quote

  /** The record `get_stock_realtime_data` returns when it returns one. */
  datatype SyncQuote = SyncQuote(
    code: string,
    name: string,
    price: real,
    changePct: real,
    peRatio: Option<real>,
    volume: int,
    turnover: int)

  /** The realtime parse: more than 39 fields; price, change, volume (field
      6) and turnover (field 37) are empty or parse; PE is field 39 alone,
      dropped when it does not parse or is not positive, with no upper
      bound. */
  function ParseSync(code: string, content: Option<seq<Field>>): (r: Option<SyncQuote>)
    ensures r.Some? <==> content.Some? && |content.value| > 39
                          && FloatOrZero(content.value[3]).Some? && FloatOrZero(content.value[32]).Some?
                          && FloatOrZero(content.value[6]).Some? && FloatOrZero(content.value[37]).Some?
    ensures r.Some? ==> r.value.code == code
    ensures r.Some? ==> (r.value.peRatio.Some? <==> OptFloat(content.value[39]).Some? && content.value[39].asFloat.value > 0.0)
    ensures r.Some? && r.value.peRatio.Some? ==> r.value.peRatio == content.value[39].asFloat
    ensures r.Some? ==> r.value.name == content.value[1].text
                        && r.value.price == FloatOrZero(content.value[3]).value
                        && r.value.changePct == FloatOrZero(content.value[32]).value
                        && r.value.volume == TruncToInt(FloatOrZero(content.value[6]).value)
                        && r.value.turnover == TruncToInt(FloatOrZero(content.value[37]).value)
  {
    match content
    case None => None
    case Some(parts) =>
      if |parts| <= 39 then None
      else
        var price := FloatOrZero(parts[3]);
        var change := FloatOrZero(parts[32]);
        var volume := FloatOrZero(parts[6]);
        var turnover := FloatOrZero(parts[37]);
        if price.None? || change.None? || volume.None? || turnover.None? then None
        else
          var pe := OptFloat(parts[39]);
          Some(SyncQuote(code, parts[1].text, price.value, change.value,
                         if pe.Some? && pe.value > 0.0 then pe else None,
                         TruncToInt(volume.value), TruncToInt(turnover.value)))
  }

  /** Attempt `j` answered with status 200 and a payload that parses; every
      other outcome, including an exception while parsing, is retried. */
  function QuoteAt(code: string, outcome: nat -> Attempt, payload: string -> Option<seq<Field>>): nat -> bool {
    (j: nat) => Succeeded(outcome(j)) && ParseSync(code, payload(outcome(j).body)).Some?
  }

  /** The retry loop of `get_stock_realtime_data`: three attempts; the
      first one with a parsed quote is returned; between attempts, never
      after the last, it sleeps `2^attempt` seconds. `payload` extracts the
      fields from a response body. */
  method GetRealtimeData(code: string, outcome: nat -> Attempt, payload: string -> Option<seq<Field>>)
    returns (q: Option<SyncQuote>, sleeps: seq<real>)
    ensures match FirstSuccess(QuoteAt(code, outcome, payload), 3, 0)
            case Some(k) => q.Some? && q == ParseSync(code, payload(outcome(k).body)) && sleeps == Backoff(k, 1.0)
            case None => q == None && sleeps == Backoff(2, 1.0)
  {
    q := None;
    sleeps := [];
    var attempt: nat := 0;
    while attempt < 3
      invariant attempt <= 3
      invariant FirstSuccess(QuoteAt(code, outcome, payload), 3, 0) == FirstSuccess(QuoteAt(code, outcome, payload), 3, attempt)
      invariant sleeps == Backoff(if attempt == 3 then 2 else attempt, 1.0)
    {
      var o := outcome(attempt);
      if o.Response? && o.status == 200 {
        var parsed := ParseSync(code, payload(o.body));
        if parsed.Some? {
          q := parsed;
          return;
        }
      }
      if attempt < 2 {
        sleeps := sleeps + [Pow2(attempt) as real];
      }
      attempt := attempt + 1;
    }
    assert FirstSuccess(QuoteAt(code, outcome, payload), 3, attempt) == None;
  }

  // ---------------------------------------------------------------------
  // History cache

  /** The cache key `f"{code}_{days}"`. */
  function HistKey(code: string, days: nat): string {
    Join(code, Digits(days))
  }

  /** Distinct (code, days) pairs have distinct keys, even for codes that
      contain an underscore. */
  lemma HistKeyInjective(code1: string, days1: nat, code2: string, days2: nat)
    requires HistKey(code1, days1) == HistKey(code2, days2)
    ensures code1 == code2 && days1 == days2
  {
    JoinInjective(code1, Digits(days1), code2, Digits(days2));
    DigitsRoundTrip(days1);
    DigitsRoundTrip(days2);
  }

  const HistTtl: real := 3600.0

  /** A cached entry is served while it is younger than an hour. */
  predicate Fresh(entries: map<string, (seq<Close>, real)>, key: string, now: real) {
    key in entries && now - entries[key].1 < HistTtl
  }

  /** The per-fetcher history cache: key to the fetched closes and the time
      they were stored. */
  class HistCache {
    var entries: map<string, (seq<Close>, real)>

    constructor ()
      ensures entries == map[]
    {
      entries := map[];
    }

    /** `get_stock_historical_data`. `fetched` is what the history source
        returns and `columns` its column count. A fresh entry is returned
        without fetching; otherwise a non-empty fetch is stored, and then
        returned when it has at least six columns (with fewer the caller
        gets an empty table although the cache keeps the data). */
    method GetHistorical(code: string, days: nat, now: real, fetched: seq<Close>, columns: nat)
      returns (data: seq<Close>)
      modifies this
      ensures Fresh(old(entries), HistKey(code, days), now) ==>
                data == old(entries)[HistKey(code, days)].0 && entries == old(entries)
      ensures !Fresh(old(entries), HistKey(code, days), now) && fetched == [] ==>
                data == [] && entries == old(entries)
      ensures !Fresh(old(entries), HistKey(code, days), now) && fetched != [] ==>
                entries == old(entries)[HistKey(code, days) := (fetched, now)]
                && data == (if columns >= 6 then fetched else [])
    {
      var key := HistKey(code, days);
      if key in entries {
        var (cached, cachedTime) := entries[key];
        if now - cachedTime < HistTtl {
          return cached;
        }
      }
      if fetched == [] {
        return [];
      }
      entries := entries[key := (fetched, now)];
      if columns >= 6 {
        data := fetched;
      } else {
        data := [];
      }
    }
  }

  /** A stored entry is served for exactly the following hour, and storing
      one key leaves the freshness of every other key alone. */
  lemma StoredEntryServedForAnHour(entries: map<string, (seq<Close>, real)>, key: string, other: string,
                                   data: seq<Close>, stored: real, now: real)
    requires other != key
    ensures Fresh(entries[key := (data, stored)], key, now) <==> now < stored + HistTtl
    ensures Fresh(entries[key := (data, stored)], other, now) <==> Fresh(entries, other, now)
  {
  }

  // ---------------------------------------------------------------------
  // Market estimate

  /** The share of rising stocks estimated from the average index change,
      piece by piece. */
  function EstimatedRisingRatio(avg: real): (r: real)
    ensures 25.0 <= r <= 70.0
  {
    if avg > 1.5 then (if 50.0 + avg * 8.0 < 70.0 then 50.0 + avg * 8.0 else 70.0)
    else if avg > 0.5 then 50.0 + avg * 10.0
    else if avg > 0.0 then 45.0 + avg * 15.0
    else if avg > -0.5 then 45.0 + avg * 15.0
    else if avg > -1.5 then (if 50.0 + avg * 10.0 > 30.0 then 50.0 + avg * 10.0 else 30.0)
    else (if 50.0 + avg * 8.0 > 25.0 then 50.0 + avg * 8.0 else 25.0)
  }

  /** The estimate is not monotone: it drops from 45 at -0.5 to 39 at
      -0.4, and jumps from 52.5 at 0.5 to 55.1 at 0.51. */
  lemma RisingRatioNotMonotone()
    ensures EstimatedRisingRatio(-0.5) == 45.0 && EstimatedRisingRatio(-0.4) == 39.0
    ensures EstimatedRisingRatio(0.5) == 52.5 && EstimatedRisingRatio(0.51) == 55.1
  {
  }

  /** Within each piece a larger average change never lowers the
      estimate. */
  lemma RisingRatioMonotoneWithinPieces(a: real, b: real)
    requires a <= b
    requires (-0.5 < a && b <= 0.5) || (0.5 < a && b <= 1.5) || 1.5 < a
             || (-1.5 < a && b <= -0.5) || b <= -1.5
    ensures EstimatedRisingRatio(a) <= EstimatedRisingRatio(b)
  {
  }

  /** The index changes of the synchronous overview: `None` when any line
      raises, which abandons the estimate. */
  function SyncIndexChanges(lines: seq<Line>): Option<seq<real>> {
    if lines == [] then Some([])
    else
      var rest := SyncIndexChanges(lines[1..]);
      match lines[0]
      case Other => rest
      case Malformed => None
      case QuoteLine(parts) =>
        if |parts| <= 32 then rest
        else
          var change := FloatOrZero(parts[32]);
          var price := FloatOrZero(parts[3]);
          if change.None? || price.None? || rest.None? then None
          else Some([change.value] + rest.value)
  }

  function Prepend(acc: seq<real>, rest: Option<seq<real>>): Option<seq<real>> {
    if rest.None? then None else Some(acc + rest.value)
  }

  /** The index loop of `get_market_overview`. */
  method ParseIndicesSync(lines: seq<Line>) returns (changes: Option<seq<real>>)
    ensures changes == SyncIndexChanges(lines)
  {
    var acc: seq<real> := [];
    var i := 0;
    assert lines[0..] == lines;
    assert SyncIndexChanges(lines).Some? ==> [] + SyncIndexChanges(lines).value == SyncIndexChanges(lines).value;
    while i < |lines|
      invariant 0 <= i <= |lines|
      invariant SyncIndexChanges(lines) == Prepend(acc, SyncIndexChanges(lines[i..]))
    {
      assert lines[i..][1..] == lines[i + 1..];
      match lines[i] {
        case Other =>
        case Malformed =>
          return None;
        case QuoteLine(parts) =>
          if |parts| > 32 {
            var change := FloatOrZero(parts[32]);
            var price := FloatOrZero(parts[3]);
            if change.None? || price.None? {
              return None;
            }
            var rest := SyncIndexChanges(lines[i + 1..]);
            assert rest.Some? ==> acc + ([change.value] + rest.value) == (acc + [change.value]) + rest.value;
            acc := acc + [change.value];
          }
      }
      i := i + 1;
    }
    assert acc + [] == acc;
    return Some(acc);
  }

  /** The market overview of the synchronous fetcher: counts estimated from
      the index changes, or fixed shares of the listed stocks, or fixed
      figures. `estimated` marks the first kind. */
  datatype MarketEstimate = MarketEstimate(
    totalStocks: int,
    rising: int,
    falling: int,
    risingRatio: real,
    avgChange: real,
    estimated: bool)

  /** `get_market_overview`. `indexLines` is `None` when the index request
      fails; `listed` is the number of listed stocks (0 when the list is
      unavailable). Flat stocks are assumed to be 5 percent, so the falling
      ratio is 95 minus the rising ratio. */
  function MarketOverview(indexLines: Option<seq<Line>>, listed: nat): (o: MarketEstimate)
    ensures 0 <= o.rising && 0 <= o.falling && o.rising + o.falling <= o.totalStocks
    ensures 25.0 <= o.risingRatio <= 70.0
    ensures o.estimated ==> o.risingRatio == EstimatedRisingRatio(o.avgChange)
    ensures o.estimated <==> indexLines.Some? && SyncIndexChanges(indexLines.value).Some?
                             && SyncIndexChanges(indexLines.value).value != []
    ensures o.totalStocks == if listed > 0 then listed else if o.estimated then 5200 else 5000
    ensures o.estimated ==>
              o.avgChange == AvgIndexChange(SyncIndexChanges(indexLines.value).value)
              && o.rising == PercentOf(o.totalStocks, o.risingRatio)
              && o.falling == PercentOf(o.totalStocks, 95.0 - o.risingRatio)
    ensures !o.estimated ==> o.risingRatio == 45.0 && o.avgChange == 0.2
    ensures !o.estimated && listed > 0 ==>
              o.rising == TruncToInt(listed as real * 0.45) && o.falling == TruncToInt(listed as real * 0.35)
    ensures !o.estimated && listed == 0 ==> o.rising == 2250 && o.falling == 1750
  {
    var changes := if indexLines.Some? then SyncIndexChanges(indexLines.value) else None;
    if changes.Some? && changes.value != [] then IndexEstimate(changes.value, listed)
    else FixedShares(listed)
  }

  /** The estimate from the index changes: the ratio from the average of
      the first three changes, `int(total * ratio / 100)` rising and
      `int(total * (95 - ratio) / 100)` falling stocks. */
  function IndexEstimate(changes: seq<real>, listed: nat): (o: MarketEstimate)
    requires changes != []
    ensures o.estimated && o.totalStocks == if listed > 0 then listed else 5200
    ensures o.avgChange == AvgIndexChange(changes) && o.risingRatio == EstimatedRisingRatio(o.avgChange)
    ensures o.rising == PercentOf(o.totalStocks, o.risingRatio)
            && o.falling == PercentOf(o.totalStocks, 95.0 - o.risingRatio)
    ensures 0 <= o.rising && 0 <= o.falling && o.rising + o.falling <= o.totalStocks
  {
    var avg := AvgIndexChange(changes);
    var total := if listed > 0 then listed else 5200;
    var ratio := EstimatedRisingRatio(avg);
    SplitFits(total, ratio);
    MarketEstimate(total, PercentOf(total, ratio), PercentOf(total, 95.0 - ratio), ratio, avg, true)
  }

  /** `int(total * pct / 100)`. */
  function PercentOf(total: int, pct: real): int {
    TruncToInt(total as real * pct / 100.0)
  }

  /** Rising and falling shares of `ratio` and `95 - ratio` percent are
      non-negative and leave room for the 5 percent of flat stocks. */
  lemma SplitFits(total: nat, ratio: real)
    requires 0.0 <= ratio <= 95.0
    ensures 0 <= PercentOf(total, ratio) && 0 <= PercentOf(total, 95.0 - ratio)
    ensures PercentOf(total, ratio) + PercentOf(total, 95.0 - ratio) <= total
  {
    var up := total as real * ratio / 100.0;
    var down := total as real * (95.0 - ratio) / 100.0;
    Shares(total as real, ratio, 95.0 - ratio);
    assert up + down == total as real * 0.95 <= total as real;
    assert (PercentOf(total, ratio) + PercentOf(total, 95.0 - ratio)) as real <= up + down;
  }

  /** The fallback without index data: 45 and 35 percent of the listed
      stocks, or 2250 and 1750 of 5000 when the list is unavailable, with
      a ratio of 45 and an average change of 0.2. */
  function FixedShares(listed: nat): (o: MarketEstimate)
    ensures !o.estimated && o.risingRatio == 45.0 && o.avgChange == 0.2
    ensures o.totalStocks == if listed > 0 then listed else 5000
    ensures listed > 0 ==> o.rising == TruncToInt(listed as real * 0.45) && o.falling == TruncToInt(listed as real * 0.35)
    ensures listed == 0 ==> o.rising == 2250 && o.falling == 1750
    ensures 0 <= o.rising && 0 <= o.falling && o.rising + o.falling <= o.totalStocks
  {
    if listed > 0 then
      assert (TruncToInt(listed as real * 0.45) + TruncToInt(listed as real * 0.35)) as real <= listed as real;
      MarketEstimate(listed, TruncToInt(listed as real * 0.45), TruncToInt(listed as real * 0.35), 45.0, 0.2, false)
    else
      MarketEstimate(5000, 2250, 1750, 45.0, 0.2, false)
  }

  // ---------------------------------------------------------------------
  // Batch

  /** A batch record: the realtime quote with the momentum key. */
  datatype SyncRecord = SyncRecord(quote: SyncQuote, momentum20d: real)

  function SeenCodes(rs: seq<SyncRecord>): set<string> {
    set r | r in rs :: r.quote.code
  }

  /** The record the batch builds for position `k` when its fetch
      succeeds. */
  function RecordAt(codes: seq<string>, payloads: nat -> Option<seq<Field>>, history: string -> seq<Close>,
                    calculateMomentum: bool, k: nat): Option<SyncRecord>
    requires k < |codes|
  {
    var q := ParseSync(codes[k], payloads(k));
    if q.Some? then Some(SyncRecord(q.value, BatchMomentum(history(codes[k]), calculateMomentum))) else None
  }

  /** `batch_get_stock_data` over the first `m` codes. `payloads(k)` is the
      payload the realtime request for the `k`-th code ended with: a code
      that occurs twice is requested again unless its first request
      succeeded. */
  function SyncBatch(codes: seq<string>, payloads: nat -> Option<seq<Field>>, history: string -> seq<Close>,
                     calculateMomentum: bool, m: nat): seq<SyncRecord>
    requires m <= |codes|
  {
    if m == 0 then []
    else
      var prev := SyncBatch(codes, payloads, history, calculateMomentum, m - 1);
      var r := RecordAt(codes, payloads, history, calculateMomentum, m - 1);
      if codes[m - 1] in SeenCodes(prev) || r.None? then prev else prev + [r.value]
  }

  lemma SeenCodesAppend(rs: seq<SyncRecord>, r: SyncRecord)
    ensures SeenCodes(rs + [r]) == SeenCodes(rs) + {r.quote.code}
  {
    assert r in rs + [r];
    forall x | x in rs ensures x in rs + [r] {
    }
  }

  /** The batch loop: a code is marked seen only after its fetch
      succeeded. */
  method BatchGetStockData(codes: seq<string>, payloads: nat -> Option<seq<Field>>, history: string -> seq<Close>,
                           calculateMomentum: bool) returns (results: seq<SyncRecord>)
    ensures results == SyncBatch(codes, payloads, history, calculateMomentum, |codes|)
  {
    results := [];
    var seen: set<string> := {};
    for i := 0 to |codes|
      invariant results == SyncBatch(codes, payloads, history, calculateMomentum, i)
      invariant seen == SeenCodes(results)
    {
      var code := codes[i];
      if code in seen {
        continue;
      }
      var q := ParseSync(code, payloads(i));
      if q.None? {
        continue;
      }
      var m := 0.0;
      if calculateMomentum {
        var closes := history(code);
        if closes != [] && |closes| >= 20 {
          m := CalculateMomentum(closes, 20);
        }
      }
      SeenCodesAppend(results, SyncRecord(q.value, m));
      results := results + [SyncRecord(q.value, m)];
      seen := seen + {code};
    }
  }

  /** Position `k` holds the first successful fetch of its code. */
  predicate FirstFetch(codes: seq<string>, payloads: nat -> Option<seq<Field>>, k: nat) {
    k < |codes| && ParseSync(codes[k], payloads(k)).Some?
    && forall j :: 0 <= j < k && codes[j] == codes[k] ==> ParseSync(codes[j], payloads(j)).None?
  }

  /** The positions below `m` that hold first successful fetches, in
      increasing order. */
  function FirstFetches(codes: seq<string>, payloads: nat -> Option<seq<Field>>, m: nat): seq<nat> {
    if m == 0 then []
    else FirstFetches(codes, payloads, m - 1) + (if FirstFetch(codes, payloads, m - 1) then [m - 1] else [])
  }

  /** The codes the batch has seen after `m` codes are exactly the codes
      fetched successfully among them. */
  lemma {:induction false} SyncBatchSeen(codes: seq<string>, payloads: nat -> Option<seq<Field>>,
                                         history: string -> seq<Close>, calculateMomentum: bool, m: nat)
    requires m <= |codes|
    ensures SeenCodes(SyncBatch(codes, payloads, history, calculateMomentum, m))
            == set k | 0 <= k < m && ParseSync(codes[k], payloads(k)).Some? :: codes[k]
  {
    if m > 0 {
      SyncBatchSeen(codes, payloads, history, calculateMomentum, m - 1);
      var prev := SyncBatch(codes, payloads, history, calculateMomentum, m - 1);
      var n := m - 1;
      var r := RecordAt(codes, payloads, history, calculateMomentum, n);
      if r.Some? && codes[n] !in SeenCodes(prev) {
        SeenCodesAppend(prev, r.value);
      }
    }
  }

  /** The batch holds, in input order, one record for each first
      successful fetch. */
  lemma {:induction false} SyncBatchIsFirstFetches(codes: seq<string>, payloads: nat -> Option<seq<Field>>,
                                                   history: string -> seq<Close>, calculateMomentum: bool, m: nat)
    requires m <= |codes|
    ensures var b := SyncBatch(codes, payloads, history, calculateMomentum, m);
            var p := FirstFetches(codes, payloads, m);
            |b| == |p|
            && (forall i :: 0 <= i < |p| ==>
                  p[i] < m && FirstFetch(codes, payloads, p[i])
                  && Some(b[i]) == RecordAt(codes, payloads, history, calculateMomentum, p[i]))
            && (forall i, j :: 0 <= i < j < |p| ==> p[i] < p[j])
  {
    if m > 0 {
      SyncBatchIsFirstFetches(codes, payloads, history, calculateMomentum, m - 1);
      SyncBatchSeen(codes, payloads, history, calculateMomentum, m - 1);
      var prev := SyncBatch(codes, payloads, history, calculateMomentum, m - 1);
      var n := m - 1;
      var r := RecordAt(codes, payloads, history, calculateMomentum, n);
      if codes[n] in SeenCodes(prev) {
        var k :| 0 <= k < n && ParseSync(codes[k], payloads(k)).Some? && codes[k] == codes[n];
        assert !FirstFetch(codes, payloads, n);
      } else if r.Some? {
        var c := codes[n];
        forall j | 0 <= j < n && codes[j] == c ensures ParseSync(codes[j], payloads(j)).None? {
          assert ParseSync(codes[j], payloads(j)).Some? ==> c in SeenCodes(prev);
        }
        assert FirstFetch(codes, payloads, n);
      }
    }
  }

  /** No two records of the batch share a code, and every code that was
      fetched successfully somewhere has a record. */
  lemma SyncBatchCodes(codes: seq<string>, payloads: nat -> Option<seq<Field>>,
                       history: string -> seq<Close>, calculateMomentum: bool)
    ensures var b := SyncBatch(codes, payloads, history, calculateMomentum, |codes|);
            (forall i, j :: 0 <= i < j < |b| ==> b[i].quote.code != b[j].quote.code)
            && (forall k :: 0 <= k < |codes| && ParseSync(codes[k], payloads(k)).Some? ==>
                  exists i :: 0 <= i < |b| && b[i].quote.code == codes[k])
  {
    SyncBatchIsFirstFetches(codes, payloads, history, calculateMomentum, |codes|);
    SyncBatchSeen(codes, payloads, history, calculateMomentum, |codes|);
    var b := SyncBatch(codes, payloads, history, calculateMomentum, |codes|);
    var p := FirstFetches(codes, payloads, |codes|);
    forall i, j | 0 <= i < j < |b| ensures b[i].quote.code != b[j].quote.code {
      assert b[i].quote.code == codes[p[i]] && b[j].quote.code == codes[p[j]];
      assert p[i] < p[j] && FirstFetch(codes, payloads, p[j]) && ParseSync(codes[p[i]], payloads(p[i])).Some?;
    }
    forall k | 0 <= k < |codes| && ParseSync(codes[k], payloads(k)).Some?
      ensures exists i :: 0 <= i < |b| && b[i].quote.code == codes[k]
    {
      assert codes[k] in SeenCodes(b);
      var r :| r in b && r.quote.code == codes[k];
      var i :| 0 <= i < |b| && b[i] == r;
    }
  }

  /** A code whose first request failed is requested again when it occurs
      later, and its record is the later successful one. */
  lemma DuplicateRetried(codes: seq<string>, payloads: nat -> Option<seq<Field>>,
                         history: string -> seq<Close>, calculateMomentum: bool, q: SyncQuote)
    requires |codes| == 2 && codes[0] == codes[1]
    requires ParseSync(codes[0], payloads(0)).None? && ParseSync(codes[1], payloads(1)) == Some(q)
    ensures SyncBatch(codes, payloads, history, calculateMomentum, 2)
            == [SyncRecord(q, BatchMomentum(history(codes[0]), calculateMomentum))]
  {
    assert SyncBatch(codes, payloads, history, calculateMomentum, 1) == [];
  }
}
