/** The retrieval layer of `index_data_source.py`: provider code tables, the
    Eastmoney, Hong Kong, ETF, Sina and Netease adapters, and
    `IndexDataSource.get_index_quote` with its cache and fallback chain. */
module IndexDataSource {
  import opened Wrappers
  import opened Text
  import opened Calendar
  import opened Quotes

  /** The Hong Kong index codes that have their own provider chain. */
  predicate IsHkCode(code: string) {
    code == "HSI00001" || code == "HSCEI00" || code == "HST00011"
  }

  /** Codes the Eastmoney `secid` table rewrites. */
  predicate HasSecidRule(code: string) {
    || StartsWith(code, "399") || StartsWith(code, "000")
    || StartsWith(code, "1B0688") || StartsWith(code, "1B0016") || StartsWith(code, "1B0852")
    || code == "932000"
    || StartsWith(code, "88") || StartsWith(code, "899") || StartsWith(code, "159")
  }

  /** The leading characters each prefix test of the code tables fixes; they
      tell the tests apart. */
  lemma PrefixChars(code: string)
    ensures StartsWith(code, "399") ==> code[0] == '3'
    ensures StartsWith(code, "000") ==> code[0] == '0'
    ensures StartsWith(code, "1B") ==> code[0] == '1' && code[1] == 'B'
    ensures StartsWith(code, "1B0688") ==> code[3] == '6'
    ensures StartsWith(code, "1B0016") ==> code[3] == '0'
    ensures StartsWith(code, "1B0852") ==> code[3] == '8'
    ensures StartsWith(code, "1B0688") || StartsWith(code, "1B0016") || StartsWith(code, "1B0852") ==> StartsWith(code, "1B")
    ensures StartsWith(code, "88") ==> code[0] == '8' && code[1] == '8'
    ensures StartsWith(code, "899") ==> code[0] == '8' && code[1] == '9'
    ensures StartsWith(code, "159") ==> code[0] == '1' && code[1] == '5'
  {
  }

  /** The Eastmoney `secid` of a code that reaches the generic kline request:
      "0." marks Shenzhen and Beijing, "1." Shanghai. */
  function EastmoneySecid(code: string): (secid: string)
    ensures StartsWith(code, "399") ==> secid == "0." + code
    ensures StartsWith(code, "000") ==> secid == "1." + code
    ensures code == "883418" ==> secid == "1.000852"
    ensures StartsWith(code, "1B0688") ==> secid == "1.000688"
    ensures StartsWith(code, "1B0016") ==> secid == "1.000016"
    ensures StartsWith(code, "1B0852") ==> secid == "1.000852"
    ensures code == "932000" ==> secid == "1.000985"
    ensures StartsWith(code, "88") && code != "883418" ==> secid == "0." + code
    ensures StartsWith(code, "899") || StartsWith(code, "159") ==> secid == "0." + code
    ensures secid == code <==> !HasSecidRule(code)
  {
    PrefixChars(code);
    if StartsWith(code, "399") then "0." + code
    else if StartsWith(code, "000") then "1." + code
    else if code == "883418" then "1.000852"
    else if StartsWith(code, "1B0688") then "1.000688"
    else if StartsWith(code, "1B0016") then "1.000016"
    else if StartsWith(code, "1B0852") then "1.000852"
    else if code == "932000" then "1.000985"
    else if StartsWith(code, "88") then "0." + code
    else if StartsWith(code, "899") then "0." + code
    else if StartsWith(code, "159") then "0." + code
    else code
  }

  /** The Sina code: "sz" for Shenzhen (399*), "sh" for Shanghai (000*, 1B*),
      any other code as it is. */
  function SinaCode(code: string): (r: string)
    ensures StartsWith(code, "399") ==> r == "sz" + code
    ensures StartsWith(code, "000") || StartsWith(code, "1B") ==> r == "sh" + code
    ensures r == code <==> !(StartsWith(code, "399") || StartsWith(code, "000") || StartsWith(code, "1B"))
  {
    PrefixChars(code);
    if StartsWith(code, "399") then "sz" + code
    else if StartsWith(code, "000") || StartsWith(code, "1B") then "sh" + code
    else code
  }

  /** The Netease code: "0" for Shenzhen, "1" for Shanghai; other codes have
      none and are never requested. */
  function NeteaseCode(code: string): (r: Option<string>)
    ensures StartsWith(code, "399") ==> r == Some("0" + code)
    ensures StartsWith(code, "000") || StartsWith(code, "1B") ==> r == Some("1" + code)
    ensures r.None? <==> !(StartsWith(code, "399") || StartsWith(code, "000") || StartsWith(code, "1B"))
  {
    PrefixChars(code);
    if StartsWith(code, "399") then Some("0" + code)
    else if StartsWith(code, "000") || StartsWith(code, "1B") then Some("1" + code)
    else None
  }

  /** `_fetch_from_sina`: the daily history of the Sina code, kept only
      between the requested dates (both inclusive) and sorted; an empty
      record list fails. */
  function SinaQuote(net: Upstream, code: string, start: Date, end: Date): (r: Option<seq<Bar>>)
    ensures r.Some? ==> net.sinaDaily(SinaCode(code)).Some? && forall b :: b in r.value ==>
      DateLe(start, b.tradeDate) && DateLe(b.tradeDate, end) && b in net.sinaDaily(SinaCode(code)).value
    ensures r.None? <==> net.sinaDaily(SinaCode(code)).None? || net.sinaDaily(SinaCode(code)).value == []
    ensures r.Some? ==>
      && multiset(r.value) == multiset(WithinRange(net.sinaDaily(SinaCode(code)).value, start, end))
      && forall i, j :: 0 <= i < j < |r.value| ==> DateLe(r.value[i].tradeDate, r.value[j].tradeDate)
  {
    match net.sinaDaily(SinaCode(code))
    case None => None
    case Some(bars) =>
      if bars == [] then None
      else
        WithinRangeMembers(bars, start, end);
        var kept := WithinRange(bars, start, end);
        var sorted := SortByDate(kept);
        assert forall b :: b in sorted ==> b in multiset(kept);
        Some(sorted)
  }

  /** `_fetch_from_netease`: codes without a Netease code fail at once;
      otherwise the CSV rows, whichever dates they carry, sorted by date. */
  function NeteaseQuote(net: Upstream, code: string): (r: Option<seq<Bar>>)
    ensures NeteaseCode(code).None? ==> r.None?
    ensures NeteaseCode(code).Some? ==> (r.None? <==> net.neteaseCsv(NeteaseCode(code).value).None?)
    ensures r.Some? ==>
      && multiset(r.value) == multiset(net.neteaseCsv(NeteaseCode(code).value).value)
      && forall i, j :: 0 <= i < j < |r.value| ==> DateLe(r.value[i].tradeDate, r.value[j].tradeDate)
  {
    match NeteaseCode(code)
    case None => None
    case Some(c) =>
      match net.neteaseCsv(c)
      case None => None
      case Some(rows) => Some(SortByDate(rows))
  }

  /** The Yahoo ticker of a Hong Kong code; Hang Seng Tech is read through
      its ETF 3032.HK. */
  function YahooTicker(code: string): (r: Option<string>)
    ensures r.Some? <==> IsHkCode(code)
  {
    if code == "HSI00001" then Some("^HSI")
    else if code == "HSCEI00" then Some("^HSCE")
    else if code == "HST00011" then Some("3032.HK")
    else None
  }

  /** The Sina Hong Kong code: the Tencent code behind Sina's "rt_" prefix,
      so `replace('rt_hk', '')` leaves the exchange symbol for the history
      request. */
  function HkSinaCode(code: string): (r: Option<string>)
    ensures r.Some? <==> IsHkCode(code)
    ensures r.Some? ==> r.value == "rt_" + HkTencentCode(code).value
  {
    if code == "HSI00001" then Some("rt_hkHSI")
    else if code == "HSCEI00" then Some("rt_hkHSCEI")
    else if code == "HST00011" then Some("rt_hkHSTECH")
    else None
  }

  /** The Tencent Hong Kong code: "hk" followed by the exchange symbol. */
  function HkTencentCode(code: string): (r: Option<string>)
    ensures r.Some? <==> IsHkCode(code)
    ensures r.Some? ==> |r.value| > 2 && r.value[..2] == "hk"
  {
    if code == "HSI00001" then Some("hkHSI")
    else if code == "HSCEI00" then Some("hkHSCEI")
    else if code == "HST00011" then Some("hkHSTECH")
    else None
  }

  /** The three Hong Kong indices are asked for under three different names
      at each provider. */
  lemma HkNamesDiffer(a: string, b: string)
    requires IsHkCode(a) && IsHkCode(b) && a != b
    ensures YahooTicker(a) != YahooTicker(b)
    ensures HkSinaCode(a) != HkSinaCode(b)
    ensures HkTencentCode(a) != HkTencentCode(b)
  {
  }

  /** One Yahoo row as `_fetch_hk_from_yahoo` keeps it: skipped when close,
      open, high or low is null; a null volume becomes 0. */
  function YahooBar(row: YahooRow): (r: Option<Bar>)
    ensures r.Some? <==> row.close.Some? && row.open.Some? && row.high.Some? && row.low.Some?
    ensures r.Some? ==> r.value.close == row.close.value && r.value.tradeDate == row.tradeDate
    ensures r.Some? ==> r.value.open == row.open.value && r.value.high == row.high.value && r.value.low == row.low.value
    ensures r.Some? ==> r.value.volume == (if row.volume.Some? then row.volume.value else 0.0)
  {
    if row.close.None? || row.open.None? || row.high.None? || row.low.None? then None
    else Some(Bar(row.tradeDate, row.open.value, row.high.value, row.low.value, row.close.value,
                  if row.volume.Some? then row.volume.value else 0.0))
  }

  /** `_fetch_hk_from_yahoo`: unknown codes fail before any request; a chart
      whose rows are all skipped fails too (an empty record list cannot be
      sorted by `trade_date`). */
  function HkYahooQuote(net: Upstream, code: string): (r: Option<seq<Bar>>)
    ensures !IsHkCode(code) ==> r.None?
    ensures r.Some? ==> r.value != []
    ensures YahooTicker(code).Some? && net.yahooChart(YahooTicker(code).value).None? ==> r.None?
    ensures YahooTicker(code).Some? && net.yahooChart(YahooTicker(code).value).Some? ==>
      var records := KeepSome(net.yahooChart(YahooTicker(code).value).value, YahooBar);
      && (r.None? <==> records == [])
      && (r.Some? ==> multiset(r.value) == multiset(records))
      && (r.Some? ==> forall i, j :: 0 <= i < j < |r.value| ==> DateLe(r.value[i].tradeDate, r.value[j].tradeDate))
  {
    match YahooTicker(code)
    case None => None
    case Some(ticker) =>
      match net.yahooChart(ticker)
      case None => None
      case Some(rows) =>
        var records := KeepSome(rows, YahooBar);
        if records == [] then None else Some(SortByDate(records))
  }

  function HkSinaQuote(net: Upstream, code: string): Option<seq<Bar>> {
    match HkSinaCode(code)
    case None => None
    case Some(c) => net.hkSina(c)
  }

  function HkTencentQuote(net: Upstream, code: string): Option<seq<Bar>> {
    match HkTencentCode(code)
    case None => None
    case Some(c) => net.hkTencent(c)
  }

  /** `_fetch_from_hk`: Yahoo, then Sina, then Tencent, each only when the
      previous one came back empty; the generated series is the last resort
      for Hang Seng Tech only. */
  function HkQuote(net: Upstream, code: string): (r: Option<seq<Bar>>)
    ensures !IsHkCode(code) ==> r.None?
    ensures !Empty(HkYahooQuote(net, code)) ==> r == HkYahooQuote(net, code)
    ensures Empty(HkYahooQuote(net, code)) && !Empty(HkSinaQuote(net, code)) ==> r == HkSinaQuote(net, code)
    ensures code != "HST00011" ==>
      (r.None? <==> Empty(HkYahooQuote(net, code)) && Empty(HkSinaQuote(net, code)) && Empty(HkTencentQuote(net, code)))
    ensures code != "HST00011" && r.Some? ==> r.value != []
    ensures Empty(HkYahooQuote(net, code)) && Empty(HkSinaQuote(net, code)) && !Empty(HkTencentQuote(net, code)) ==>
      r == HkTencentQuote(net, code)
    ensures code == "HST00011" && Empty(HkYahooQuote(net, code)) && Empty(HkSinaQuote(net, code)) && Empty(HkTencentQuote(net, code)) ==>
      r == net.hkSynthetic
  {
    var outcomes := [HkYahooQuote(net, code), HkSinaQuote(net, code), HkTencentQuote(net, code)];
    ChainOfThree(outcomes[0], outcomes[1], outcomes[2]);
    match FirstNonEmpty(outcomes)
    case Some(bars) => Some(bars)
    case None => if code == "HST00011" then net.hkSynthetic else None
  }

  /** `_fetch_etf_data`: the Eastmoney kline of "0." + code; when that gives
      no lines or a line fails to parse, the Tencent ETF adapter. */
  function EtfQuote(net: Upstream, code: string): (r: Option<seq<Bar>>)
    ensures KlineQuote(net, "0." + code).Some? ==> r == KlineQuote(net, "0." + code)
    ensures KlineQuote(net, "0." + code).None? ==> r == net.etfTencent(code)
  {
    match KlineQuote(net, "0." + code)
    case Some(bars) => Some(bars)
    case None => net.etfTencent(code)
  }

  /** `_fetch_from_eastmoney`: gold, the Hong Kong codes and the solar ETF
      159857 go to their own adapters before any code translation; every
      other code is requested under its `secid`. */
  function EastmoneyQuote(net: Upstream, code: string): (r: Option<seq<Bar>>)
    ensures code == "AUUSDO" ==> r == net.gold
    ensures IsHkCode(code) ==> r == HkQuote(net, code)
    ensures code == "159857" ==> r == EtfQuote(net, code)
    ensures code != "AUUSDO" && !IsHkCode(code) && code != "159857" ==> r == KlineQuote(net, EastmoneySecid(code))
  {
    if code == "AUUSDO" then net.gold
    else if IsHkCode(code) then HkQuote(net, code)
    else if code == "159857" then EtfQuote(net, code)
    else KlineQuote(net, EastmoneySecid(code))
  }

  /** The outcomes of the three providers of `get_index_quote`, in chain order. */
  function Outcomes(net: Upstream, code: string, start: Date, end: Date): seq<Option<seq<Bar>>> {
    [EastmoneyQuote(net, code), SinaQuote(net, code, start, end), NeteaseQuote(net, code)]
  }

  /** The quote source, with the quote cache directory as a map from file name
      to file. */
  class IndexDataSource {
    var cacheFiles: map<string, CacheFile>

    constructor (files: map<string, CacheFile>)
      ensures cacheFiles == files
    {
      cacheFiles := files;
    }

    /** `get_index_quote`: a fresh, readable cache file is returned as it is;
        otherwise Eastmoney, Sina and Netease are asked in turn until one gives
        a non-empty frame, a non-empty result is written back, and total
        failure is an empty frame, never `None`. `consulted` lists the
        providers asked, in order. `now` is the clock when the cache is
        consulted and `written` the clock when the file is written, after the
        providers answered. */
    method GetIndexQuote(net: Upstream, code: string, start: Date, end: Date, forceRefresh: bool, now: real, written: real, writeOk: bool)
      returns (df: seq<Bar>, consulted: seq<Provider>)
      modifies this
      ensures var key := CacheKey(code, end);
        var cached := CachedQuote(old(cacheFiles), key, forceRefresh, now);
        var outcomes := Outcomes(net, code, start, end);
        if cached.Some? then
          df == cached.value && consulted == [] && cacheFiles == old(cacheFiles)
        else
          consulted == Chain[..Tried(outcomes)]
          && df == FirstNonEmpty(outcomes).GetOr([])
          && cacheFiles == Stored(old(cacheFiles), key, df, written, writeOk)
    {
      var key := CacheKey(code, end);
      var cached := CachedQuote(cacheFiles, key, forceRefresh, now);
      if cached.Some? {
        return cached.value, [];
      }
      df, consulted := FetchWithFallback(net, code, start, end);
      cacheFiles := Stored(cacheFiles, key, df, written, writeOk);
    }

    /** The provider chain of `get_index_quote`, reassigning the frame step
        by step: the frame it ends with (empty when every provider failed)
        and the providers it asked. */
    method FetchWithFallback(net: Upstream, code: string, start: Date, end: Date) returns (df: seq<Bar>, consulted: seq<Provider>)
      ensures var outcomes := Outcomes(net, code, start, end);
        consulted == Chain[..Tried(outcomes)] && df == FirstNonEmpty(outcomes).GetOr([])
    {
      ghost var outcomes := Outcomes(net, code, start, end);
      ChainOfThree(outcomes[0], outcomes[1], outcomes[2]);
      ChainPrefixes();
      var r := FetchFromEastmoney(net, code);
      consulted := [Eastmoney];
      if Empty(r) {
        r := SinaQuote(net, code, start, end);
        consulted := consulted + [Sina];
      }
      if Empty(r) {
        r := NeteaseQuote(net, code);
        consulted := consulted + [Netease];
      }
      df := if r.Some? then r.value else [];
    }

    /** `_fetch_from_eastmoney`. */
    method FetchFromEastmoney(net: Upstream, code: string) returns (r: Option<seq<Bar>>)
      ensures r == EastmoneyQuote(net, code)
    {
      if code == "AUUSDO" {
        return net.gold;
      } else if IsHkCode(code) {
        r := FetchFromHk(net, code);
        return;
      } else if code == "159857" {
        r := FetchEtfData(net, code);
        return;
      }
      var secid := EastmoneySecid(code);
      r := RequestKlines(net, secid);
    }

    /** `_fetch_from_hk`: the chain, reassigning the frame step by step. */
    method FetchFromHk(net: Upstream, code: string) returns (r: Option<seq<Bar>>)
      ensures r == HkQuote(net, code)
    {
      ChainOfThree(HkYahooQuote(net, code), HkSinaQuote(net, code), HkTencentQuote(net, code));
      r := FetchHkFromYahoo(net, code);
      if !Empty(r) {
        return;
      }
      r := HkSinaQuote(net, code);
      if !Empty(r) {
        return;
      }
      r := HkTencentQuote(net, code);
      if !Empty(r) {
        return;
      }
      if code == "HST00011" {
        return net.hkSynthetic;
      }
      r := None;
    }

    /** `_fetch_hk_from_yahoo`. */
    method FetchHkFromYahoo(net: Upstream, code: string) returns (r: Option<seq<Bar>>)
      ensures r == HkYahooQuote(net, code)
    {
      var ticker := YahooTicker(code);
      if ticker.None? {
        return None;
      }
      var chart := net.yahooChart(ticker.value);
      if chart.None? {
        return None;
      }
      var records := CollectYahooBars(chart.value);
      if records == [] {
        return None;
      }
      r := Some(SortByDate(records));
    }

    /** The record loop of `_fetch_hk_from_yahoo`. */
    method CollectYahooBars(rows: seq<YahooRow>) returns (records: seq<Bar>)
      ensures records == KeepSome(rows, YahooBar)
    {
      records := [];
      var i := 0;
      while i < |rows|
        invariant 0 <= i <= |rows|
        invariant records == KeepSome(rows[..i], YahooBar)
      {
        assert rows[..i + 1][..i] == rows[..i];
        var bar := YahooBar(rows[i]);
        if bar.Some? {
          records := records + [bar.value];
        }
        i := i + 1;
      }
      assert rows[..i] == rows;
    }

    /** `_fetch_etf_data`. */
    method FetchEtfData(net: Upstream, code: string) returns (r: Option<seq<Bar>>)
      ensures r == EtfQuote(net, code)
    {
      r := RequestKlines(net, "0." + code);
      if r.None? {
        r := net.etfTencent(code);
      }
    }
  }
}
