/** Quote series, the answers of the upstream providers, and the pieces of
    the retrieval layer that both versions of `index_data_source.py` share:
    the kline line parser, the trade-date range filter, the provider
    fallback rule and the quote cache rule. */
module Quotes {
  import opened Wrappers
  import opened Text
  import opened Calendar
  import opened Sorting

  /** One daily OHLCV bar (a row of the quote frame). */
  datatype Bar = Bar(tradeDate: Date, open: real, high: real, low: real, close: real, volume: real)

  /** One row of a Yahoo chart response: the bar's day and the five quote
      arrays at that index, `None` where the feed sent `null`. */
  datatype YahooRow = YahooRow(
    tradeDate: Date,
    close: Option<real>,
    open: Option<real>,
    high: Option<real>,
    low: Option<real>,
    volume: Option<real>)

  /** What the outside world answers for one requested date range. Each
      request-level failure (network error, timeout, missing field, payload
      that does not decode) is `None`; the text decoders stand for Python's
      `float()` and pandas' `to_datetime` on one field. */
  datatype Upstream = Upstream(
    number: string -> Option<real>,
    date: string -> Option<Date>,
    // the `data.klines` list of the Eastmoney kline endpoint for a secid
    eastmoneyKlines: string -> Option<seq<string>>,
    // the rows of `chart.result[0]` of the Yahoo chart endpoint for a ticker
    yahooChart: string -> Option<seq<YahooRow>>,
    // the gold series of `_fetch_from_wsj`
    gold: Option<seq<Bar>>,
    // the Sina and Tencent Hong Kong adapters, by their own index codes
    hkSina: string -> Option<seq<Bar>>,
    hkTencent: string -> Option<seq<Bar>>,
    // the last-resort generated Hang Seng Tech series
    hkSynthetic: Option<seq<Bar>>,
    // the Tencent ETF adapter
    etfTencent: string -> Option<seq<Bar>>,
    // the decoded day records of the Sina daily history, before the date filter
    sinaDaily: string -> Option<seq<Bar>>,
    // the decoded rows of the Netease csv, before sorting
    neteaseCsv: string -> Option<seq<Bar>>)

  predicate ByDate(a: Bar, b: Bar) {
    DateLe(a.tradeDate, b.tradeDate)
  }

  lemma ByDateIsPreorder()
    ensures TotalPreorder(ByDate)
  {
  }

  /** `df.sort_values('trade_date')`: the bars in chronological order. pandas'
      default sort is not stable; the model picks the stable order, which is
      one of the orders pandas may produce and the only one when trade dates
      are distinct. */
  function SortByDate(bars: seq<Bar>): (r: seq<Bar>)
    ensures multiset(r) == multiset(bars)
    ensures forall i, j :: 0 <= i < j < |r| ==> DateLe(r[i].tradeDate, r[j].tradeDate)
  {
    ByDateIsPreorder();
    SortBySorted(bars, ByDate);
    SortBy(bars, ByDate)
  }

  /** The bars with `start <= trade_date <= end`, both ends inclusive, in
      their original order. */
  function WithinRange(bars: seq<Bar>, start: Date, end: Date): (r: seq<Bar>)
    ensures |r| <= |bars|
  {
    if bars == [] then []
    else
      var rest := WithinRange(bars[1..], start, end);
      if DateLe(start, bars[0].tradeDate) && DateLe(bars[0].tradeDate, end) then [bars[0]] + rest
      else rest
  }

  /** The date mask works bar by bar: filtering a concatenation filters
      each part and keeps them in order, so order and repeats survive. */
  lemma {:induction false} WithinRangeAppend(a: seq<Bar>, b: seq<Bar>, start: Date, end: Date)
    ensures WithinRange(a + b, start, end) == WithinRange(a, start, end) + WithinRange(b, start, end)
  {
    if a == [] {
      assert a + b == b;
    } else {
      assert (a + b)[1..] == a[1..] + b;
      WithinRangeAppend(a[1..], b, start, end);
    }
  }

  /** A single bar is kept iff its date is in range. */
  lemma WithinRangeOne(x: Bar, start: Date, end: Date)
    ensures WithinRange([x], start, end) == if DateLe(start, x.tradeDate) && DateLe(x.tradeDate, end) then [x] else []
  {
  }

  /** Each in-range bar is kept as many times as it occurs; the others not
      at all. */
  lemma {:induction false} WithinRangeCounts(bars: seq<Bar>, start: Date, end: Date)
    ensures forall x :: multiset(WithinRange(bars, start, end))[x] ==
                        if DateLe(start, x.tradeDate) && DateLe(x.tradeDate, end) then multiset(bars)[x] else 0
  {
    if bars != [] {
      WithinRangeCounts(bars[1..], start, end);
      assert bars == [bars[0]] + bars[1..];
    }
  }

  /** A bar is kept iff it is one of the input bars and its date is in
      range. */
  lemma WithinRangeMembers(bars: seq<Bar>, start: Date, end: Date)
    ensures forall b :: b in WithinRange(bars, start, end) <==> b in bars && DateLe(start, b.tradeDate) && DateLe(b.tradeDate, end)
  {
    WithinRangeCounts(bars, start, end);
    forall b | b in WithinRange(bars, start, end) || b in bars
      ensures b in WithinRange(bars, start, end) <==> b in multiset(WithinRange(bars, start, end))
      ensures b in bars <==> b in multiset(bars)
    {
    }
  }

  /** One Eastmoney kline line, `date,open,close,high,low[,volume,...]`:
      fields split on ','; the volume is 0 when there are at most five
      fields; a short line or a field that does not decode fails. */
  function KlineBar(line: string, net: Upstream): Option<Bar> {
    var f := Split(line, ',');
    if |f| < 5 then None
    else
      var day :- net.date(f[0]);
      var open :- net.number(f[1]);
      var close :- net.number(f[2]);
      var high :- net.number(f[3]);
      var low :- net.number(f[4]);
      var volume :- if |f| > 5 then net.number(f[5]) else Some(0.0);
      Some(Bar(day, open, high, low, close, volume))
  }

  /** Fields joined with ',' parse back field by field: the third field is
      the close, the sixth (when present) the volume. */
  lemma KlineFieldOrder(fields: seq<string>, net: Upstream)
    requires |fields| >= 5
    requires forall i :: 0 <= i < |fields| ==> ',' !in fields[i]
    requires net.date(fields[0]).Some?
    requires forall i :: 1 <= i < |fields| && i <= 5 ==> net.number(fields[i]).Some?
    ensures KlineBar(Join(fields, ','), net) == Some(Bar(
      net.date(fields[0]).value,
      net.number(fields[1]).value,
      net.number(fields[3]).value,
      net.number(fields[4]).value,
      net.number(fields[2]).value,
      if |fields| > 5 then net.number(fields[5]).value else 0.0))
  {
    SplitJoin(fields, ',');
  }

  /** The record list built from all kline lines; the whole parse fails as
      soon as one line does. */
  function KlineBars(lines: seq<string>, net: Upstream): (r: Option<seq<Bar>>)
    ensures r.Some? <==> forall i :: 0 <= i < |lines| ==> KlineBar(lines[i], net).Some?
    ensures r.Some? ==> |r.value| == |lines|
    ensures r.Some? ==> forall i :: 0 <= i < |lines| ==> Some(r.value[i]) == KlineBar(lines[i], net)
  {
    if lines == [] then Some([])
    else
      var init := lines[..|lines| - 1];
      assert forall i :: 0 <= i < |init| ==> init[i] == lines[i];
      match KlineBars(init, net)
      case None => None
      case Some(bars) =>
        match KlineBar(lines[|lines| - 1], net)
        case None => None
        case Some(b) => Some(bars + [b])
  }

  /** The record-building loop of the kline parsers. */
  method ParseKlines(lines: seq<string>, net: Upstream) returns (records: Option<seq<Bar>>)
    ensures records == KlineBars(lines, net)
  {
    var acc: seq<Bar> := [];
    var i := 0;
    while i < |lines|
      invariant 0 <= i <= |lines|
      invariant KlineBars(lines[..i], net) == Some(acc)
    {
      var bar := KlineBar(lines[i], net);
      assert lines[..i + 1][..i] == lines[..i];
      if bar.None? {
        assert !KlineBar(lines[i], net).Some?;
        return None;
      }
      acc := acc + [bar.value];
      i := i + 1;
    }
    assert lines[..i] == lines;
    records := Some(acc);
  }

  /** The records a row loop keeps: `f` of each row that yields one, in row
      order. */
  function KeepSome<A, B>(rows: seq<A>, f: A -> Option<B>): (r: seq<B>)
    ensures |r| <= |rows|
    ensures forall i :: 0 <= i < |rows| && f(rows[i]).Some? ==> f(rows[i]).value in r
    ensures forall b :: b in r ==> exists i :: 0 <= i < |rows| && f(rows[i]) == Some(b)
  {
    if rows == [] then []
    else
      var init := rows[..|rows| - 1];
      var rest := KeepSome(init, f);
      assert forall i :: 0 <= i < |init| ==> init[i] == rows[i];
      match f(rows[|rows| - 1])
      case None => rest
      case Some(b) => rest + [b]
  }

  /** The record loop works row by row: the records of a concatenation are
      those of each part, in order, so order and repeats survive. */
  lemma {:induction false} KeepSomeAppend<A, B>(a: seq<A>, b: seq<A>, f: A -> Option<B>)
    ensures KeepSome(a + b, f) == KeepSome(a, f) + KeepSome(b, f)
  {
    if b == [] {
      assert a + b == a;
    } else {
      var init := b[..|b| - 1];
      assert (a + b)[..|a + b| - 1] == a + init;
      assert (a + b)[|a + b| - 1] == b[|b| - 1];
      KeepSomeAppend(a, init, f);
      match f(b[|b| - 1])
      case None =>
      case Some(x) =>
        assert KeepSome(a, f) + KeepSome(init, f) + [x] == KeepSome(a, f) + (KeepSome(init, f) + [x]);
    }
  }

  /** A single row gives its record, or nothing. */
  lemma KeepSomeOne<A, B>(x: A, f: A -> Option<B>)
    ensures KeepSome([x], f) == match f(x) case None => [] case Some(b) => [b]
  {
    assert [x][..0] == [];
  }

  /** The kline request shared by the Eastmoney adapters: a missing or empty
      `klines` list is `None`; otherwise every line is parsed and the bars are
      sorted by date. */
  function KlineQuote(net: Upstream, secid: string): (r: Option<seq<Bar>>)
    ensures net.eastmoneyKlines(secid).None? || net.eastmoneyKlines(secid).value == [] ==> r.None?
    ensures net.eastmoneyKlines(secid).Some? && net.eastmoneyKlines(secid).value != [] ==>
      (r.Some? <==> KlineBars(net.eastmoneyKlines(secid).value, net).Some?)
    ensures r.Some? ==>
      && r.value != []
      && multiset(r.value) == multiset(KlineBars(net.eastmoneyKlines(secid).value, net).value)
      && forall i, j :: 0 <= i < j < |r.value| ==> DateLe(r.value[i].tradeDate, r.value[j].tradeDate)
  {
    match net.eastmoneyKlines(secid)
    case None => None
    case Some(lines) =>
      if lines == [] then None
      else
        match KlineBars(lines, net)
        case None => None
        case Some(bars) => Some(SortByDate(bars))
  }

  /** The request-and-parse part of `_fetch_from_eastmoney`, identical in both
      versions of the adapter. */
  method RequestKlines(net: Upstream, secid: string) returns (r: Option<seq<Bar>>)
    ensures r == KlineQuote(net, secid)
  {
    var klines := net.eastmoneyKlines(secid);
    if klines.None? || klines.value == [] {
      return None;
    }
    var records := ParseKlines(klines.value, net);
    if records.None? {
      return None;
    }
    r := Some(SortByDate(records.value));
  }

  /** The providers of the generic fallback chain of `get_index_quote`, in
      priority order. */
  datatype Provider = Eastmoney | Sina | Netease

  const Chain: seq<Provider> := [Eastmoney, Sina, Netease]

  lemma ChainPrefixes()
    ensures Chain[..1] == [Eastmoney]
    ensures Chain[..2] == [Eastmoney, Sina]
    ensures Chain[..3] == [Eastmoney, Sina, Netease]
  {
  }

  /** A provider outcome the fallback chains move past: nothing, or an empty frame. */
  predicate Empty(o: Option<seq<Bar>>) {
    o.None? || o.value == []
  }

  /** How many providers of a fallback chain are called: each one only when
      every earlier one came back empty. */
  function Tried(outcomes: seq<Option<seq<Bar>>>): (n: nat)
    requires outcomes != []
    ensures 1 <= n <= |outcomes|
    ensures forall i :: 0 <= i < n - 1 ==> Empty(outcomes[i])
    ensures n < |outcomes| ==> !Empty(outcomes[n - 1])
  {
    if |outcomes| == 1 || !Empty(outcomes[0]) then 1
    else 1 + Tried(outcomes[1..])
  }

  /** The result of a fallback chain: the first non-empty outcome, or `None`
      when every provider came back empty. */
  function FirstNonEmpty(outcomes: seq<Option<seq<Bar>>>): (r: Option<seq<Bar>>)
    ensures r.None? <==> forall i :: 0 <= i < |outcomes| ==> Empty(outcomes[i])
    ensures r.Some? ==> r.value != [] && r == outcomes[Tried(outcomes) - 1]
  {
    if outcomes == [] then None
    else if !Empty(outcomes[0]) then outcomes[0]
    else
      var r := FirstNonEmpty(outcomes[1..]);
      assert forall i :: 1 <= i < |outcomes| ==> outcomes[i] == outcomes[1..][i - 1];
      r
  }

  lemma ChainOfOne(c: Option<seq<Bar>>)
    ensures Tried([c]) == 1
    ensures FirstNonEmpty([c]) == if !Empty(c) then c else None
  {
    assert [c][1..] == [];
  }

  lemma ChainOfTwo(b: Option<seq<Bar>>, c: Option<seq<Bar>>)
    ensures Tried([b, c]) == if !Empty(b) then 1 else 2
    ensures FirstNonEmpty([b, c]) == if !Empty(b) then b else FirstNonEmpty([c])
  {
    assert [b, c][1..] == [c];
    ChainOfOne(c);
  }

  /** A chain of three providers, the length of both fallback chains of the
      adapters, unfolded: how many are asked and which answer is kept. */
  lemma ChainOfThree(a: Option<seq<Bar>>, b: Option<seq<Bar>>, c: Option<seq<Bar>>)
    ensures Tried([a, b, c]) == if !Empty(a) then 1 else if !Empty(b) then 2 else 3
    ensures FirstNonEmpty([a, b, c]) == if !Empty(a) then a else if !Empty(b) then b else if !Empty(c) then c else None
  {
    assert [a, b, c][1..] == [b, c];
    ChainOfTwo(b, c);
    ChainOfOne(c);
  }

  /** A file of the quote cache directory: its contents as `pd.read_csv`
      reads them (`None` when reading fails) and its modification time in
      seconds. */
  datatype CacheFile = CacheFile(contents: Option<seq<Bar>>, mtime: real)

  /** The cache time-to-live, in seconds. */
  const CacheTtl: real := 3600.0

  /** The cache file name: the index code and the end date without dashes;
      the start date is not part of it. */
  function CacheKey(code: string, end: Date): string {
    code + "_" + CompactText(end) + ".csv"
  }

  /** Requests for one index with different end dates use different cache
      files. */
  lemma CacheKeysDiffer(code: string, d: Date, e: Date)
    requires ValidDate(d) && ValidDate(e) && d != e
    ensures CacheKey(code, d) != CacheKey(code, e)
  {
    CompactDigits(d);
    CompactDigits(e);
    CompactTextInjective(d, e);
    var kd, ke := CacheKey(code, d), CacheKey(code, e);
    assert kd[|code| + 1 .. |code| + 9] == CompactText(d);
    assert ke[|code| + 1 .. |code| + 9] == CompactText(e);
  }

  /** The frame `get_index_quote` returns from its cache, if any. */
  function CachedQuote(files: map<string, CacheFile>, key: string, forceRefresh: bool, now: real): (r: Option<seq<Bar>>)
    ensures r.Some? <==>
      !forceRefresh && key in files && now - files[key].mtime < CacheTtl && files[key].contents.Some?
    ensures r.Some? ==> r == files[key].contents
  {
    if forceRefresh || key !in files then None
    else if now - files[key].mtime < CacheTtl then files[key].contents
    else None
  }

  /** The cache directory after a fetch: a non-empty frame is written at
      time `written`; an empty one is not; a failed write changes nothing. */
  function Stored(files: map<string, CacheFile>, key: string, df: seq<Bar>, written: real, writeOk: bool): (r: map<string, CacheFile>)
    ensures forall k :: k in files && k != key ==> k in r && r[k] == files[k]
    ensures r.Keys <= files.Keys + {key}
    ensures df != [] && writeOk ==> key in r && r[key] == CacheFile(Some(df), written)
    ensures df == [] || !writeOk ==> r == files
  {
    if df != [] && writeOk then files[key := CacheFile(Some(df), written)] else files
  }

  /** Cache round trip: a frame stored at `t` is served, unchanged, to a call
      made less than an hour later, and no longer once the hour is up, although
      the file stays. */
  lemma CacheRoundTrip(files: map<string, CacheFile>, key: string, df: seq<Bar>, t: real, later: real)
    requires df != []
    requires t <= later
    ensures var after := Stored(files, key, df, t, true);
      key in after &&
      (later - t < CacheTtl ==> CachedQuote(after, key, false, later) == Some(df)) &&
      (later - t >= CacheTtl ==> CachedQuote(after, key, false, later) == None)
  {
  }
}
