/** The older retrieval layer kept in `fishvowl_trend/index_data_source.py`.
    Its Sina and Netease adapters, its cache and its fallback order are those
    of the current layer; it differs in the Eastmoney dispatch (no ETF branch,
    no 159* rule) and in the Hong Kong adapter (Yahoo only, Hang Seng Tech as
    ^HSTECH, rows with a null volume dropped). The lemmas at the end state
    where the two layers agree and where they part. */
module FishvowlIndexDataSource {
  import opened Wrappers
  import opened Text
  import opened Calendar
  import opened Quotes
  import Current = IndexDataSource

  /** The older `secid` table: the current one without the 159* rule. */
  function LegacySecid(code: string): (secid: string)
    ensures StartsWith(code, "399") ==> secid == "0." + code
    ensures StartsWith(code, "000") ==> secid == "1." + code
    ensures code == "883418" ==> secid == "1.000852"
    ensures StartsWith(code, "1B0688") ==> secid == "1.000688"
    ensures StartsWith(code, "1B0016") ==> secid == "1.000016"
    ensures StartsWith(code, "1B0852") ==> secid == "1.000852"
    ensures code == "932000" ==> secid == "1.000985"
    ensures StartsWith(code, "88") && code != "883418" ==> secid == "0." + code
    ensures StartsWith(code, "899") ==> secid == "0." + code
    ensures StartsWith(code, "159") ==> secid == code
  {
    Current.PrefixChars(code);
    if StartsWith(code, "399") then "0." + code
    else if StartsWith(code, "000") then "1." + code
    else if code == "883418" then "1.000852"
    else if StartsWith(code, "1B0688") then "1.000688"
    else if StartsWith(code, "1B0016") then "1.000016"
    else if StartsWith(code, "1B0852") then "1.000852"
    else if code == "932000" then "1.000985"
    else if StartsWith(code, "88") then "0." + code
    else if StartsWith(code, "899") then "0." + code
    else code
  }

  /** The older Yahoo tickers: Hang Seng Tech is asked for as the index
      ^HSTECH itself. */
  function LegacyYahooTicker(code: string): (r: Option<string>)
    ensures r.Some? <==> Current.IsHkCode(code)
  {
    if code == "HSI00001" then Some("^HSI")
    else if code == "HSCEI00" then Some("^HSCE")
    else if code == "HST00011" then Some("^HSTECH")
    else None
  }

  /** One Yahoo row as the older adapter keeps it: skipped when any of close,
      open, high, low or volume is null. */
  function StrictYahooBar(row: YahooRow): (r: Option<Bar>)
    ensures r.Some? <==>
      row.close.Some? && row.open.Some? && row.high.Some? && row.low.Some? && row.volume.Some?
  {
    if row.close.None? || row.open.None? || row.high.None? || row.low.None? || row.volume.None? then None
    else Some(Bar(row.tradeDate, row.open.value, row.high.value, row.low.value, row.close.value, row.volume.value))
  }

  /** The older `_fetch_from_hk`: Yahoo and nothing else; a missing chart
      result leaves the record list unbound and an empty one cannot be sorted,
      so both fail. */
  function LegacyHkQuote(net: Upstream, code: string): (r: Option<seq<Bar>>)
    ensures !Current.IsHkCode(code) ==> r.None?
    ensures r.Some? ==> r.value != []
    ensures LegacyYahooTicker(code).Some? && net.yahooChart(LegacyYahooTicker(code).value).None? ==> r.None?
    ensures LegacyYahooTicker(code).Some? && net.yahooChart(LegacyYahooTicker(code).value).Some? ==>
      var records := KeepSome(net.yahooChart(LegacyYahooTicker(code).value).value, StrictYahooBar);
      && (r.None? <==> records == [])
      && (r.Some? ==> multiset(r.value) == multiset(records))
      && (r.Some? ==> forall i, j :: 0 <= i < j < |r.value| ==> DateLe(r.value[i].tradeDate, r.value[j].tradeDate))
  {
    match LegacyYahooTicker(code)
    case None => None
    case Some(ticker) =>
      match net.yahooChart(ticker)
      case None => None
      case Some(rows) =>
        var records := KeepSome(rows, StrictYahooBar);
        if records == [] then None else Some(SortByDate(records))
  }

  /** The older `_fetch_from_eastmoney`: gold and the Hong Kong codes have
      their own adapters; every other code, ETFs included, goes through the
      `secid` table. */
  function LegacyEastmoneyQuote(net: Upstream, code: string): (r: Option<seq<Bar>>)
    ensures code == "AUUSDO" ==> r == net.gold
    ensures Current.IsHkCode(code) ==> r == LegacyHkQuote(net, code)
    ensures code != "AUUSDO" && !Current.IsHkCode(code) ==> r == KlineQuote(net, LegacySecid(code))
  {
    if code == "AUUSDO" then net.gold
    else if Current.IsHkCode(code) then LegacyHkQuote(net, code)
    else KlineQuote(net, LegacySecid(code))
  }

  function LegacyOutcomes(net: Upstream, code: string, start: Date, end: Date): seq<Option<seq<Bar>>> {
    [LegacyEastmoneyQuote(net, code), Current.SinaQuote(net, code, start, end), Current.NeteaseQuote(net, code)]
  }

  /** The older quote source, with its cache directory as a map from file
      name to file. */
  class IndexDataSource {
    var cacheFiles: map<string, CacheFile>

    constructor (files: map<string, CacheFile>)
      ensures cacheFiles == files
    {
      cacheFiles := files;
    }

    /** `get_index_quote`, with the same cache and fallback rules as the
        current layer over the older adapters; `now` is read before and
        `written` after the providers are asked. */
    method GetIndexQuote(net: Upstream, code: string, start: Date, end: Date, forceRefresh: bool, now: real, written: real, writeOk: bool)
      returns (df: seq<Bar>, consulted: seq<Provider>)
      modifies this
      ensures var key := CacheKey(code, end);
        var cached := CachedQuote(old(cacheFiles), key, forceRefresh, now);
        var outcomes := LegacyOutcomes(net, code, start, end);
        if cached.Some? then
          df == cached.value && consulted == [] && cacheFiles == old(cacheFiles)
        else
          consulted == Chain[..Tried(outcomes)]
          && df == FirstNonEmpty(outcomes).GetOr([])
          && cacheFiles == Stored(old(cacheFiles), key, df, written, writeOk)
    {
      var key := CacheKey(code, end);
      var cached := CachedQuote(cacheFiles, key, forceRefresh, now);
      if cached.Some? {
        return cached.value, [];
      }
      df, consulted := FetchWithFallback(net, code, start, end);
      cacheFiles := Stored(cacheFiles, key, df, written, writeOk);
    }

    /** The provider chain of `get_index_quote`, reassigning the frame step
        by step: the frame it ends with (empty when every provider failed)
        and the providers it asked. */
    method FetchWithFallback(net: Upstream, code: string, start: Date, end: Date) returns (df: seq<Bar>, consulted: seq<Provider>)
      ensures var outcomes := LegacyOutcomes(net, code, start, end);
        consulted == Chain[..Tried(outcomes)] && df == FirstNonEmpty(outcomes).GetOr([])
    {
      ghost var outcomes := LegacyOutcomes(net, code, start, end);
      ChainOfThree(outcomes[0], outcomes[1], outcomes[2]);
      ChainPrefixes();
      var r := FetchFromEastmoney(net, code);
      consulted := [Eastmoney];
      if Empty(r) {
        r := Current.SinaQuote(net, code, start, end);
        consulted := consulted + [Sina];
      }
      if Empty(r) {
        r := Current.NeteaseQuote(net, code);
        consulted := consulted + [Netease];
      }
      df := if r.Some? then r.value else [];
    }

    /** The older `_fetch_from_eastmoney`. */
    method FetchFromEastmoney(net: Upstream, code: string) returns (r: Option<seq<Bar>>)
      ensures r == LegacyEastmoneyQuote(net, code)
    {
      if code == "AUUSDO" {
        return net.gold;
      } else if Current.IsHkCode(code) {
        r := FetchFromHk(net, code);
        return;
      }
      var secid := LegacySecid(code);
      r := RequestKlines(net, secid);
    }

    /** The older `_fetch_from_hk`. */
    method FetchFromHk(net: Upstream, code: string) returns (r: Option<seq<Bar>>)
      ensures r == LegacyHkQuote(net, code)
    {
      var ticker := LegacyYahooTicker(code);
      if ticker.None? {
        return None;
      }
      var chart := net.yahooChart(ticker.value);
      if chart.None? {
        return None;
      }
      var records := CollectYahooBars(chart.value);
      if records == [] {
        return None;
      }
      r := Some(SortByDate(records));
    }

    /** The record loop of the older `_fetch_from_hk`. */
    method CollectYahooBars(rows: seq<YahooRow>) returns (records: seq<Bar>)
      ensures records == KeepSome(rows, StrictYahooBar)
    {
      records := [];
      var i := 0;
      while i < |rows|
        invariant 0 <= i <= |rows|
        invariant records == KeepSome(rows[..i], StrictYahooBar)
      {
        assert rows[..i + 1][..i] == rows[..i];
        var bar := StrictYahooBar(rows[i]);
        if bar.Some? {
          records := records + [bar.value];
        }
        i := i + 1;
      }
      assert rows[..i] == rows;
    }
  }

  /** 159* codes: the older table passes them through untranslated, the
      current one prefixes the Shenzhen market "0.". */
  lemma EtfCodesTranslation(code: string)
    requires StartsWith(code, "159")
    ensures LegacySecid(code) == code
    ensures Current.EastmoneySecid(code) == "0." + code
    ensures LegacySecid(code) != Current.EastmoneySecid(code)
  {
  }

  /** Outside the 159* codes the two `secid` tables are the same table. */
  lemma SecidTablesAgree(code: string)
    requires !StartsWith(code, "159")
    ensures LegacySecid(code) == Current.EastmoneySecid(code)
  {
  }

  /** The solar ETF 159857: the current layer sends it to the ETF adapter
      with its Tencent fallback, the older one asks Eastmoney for the raw
      code. */
  lemma EtfDispatchDiffers(net: Upstream)
    ensures Current.EastmoneyQuote(net, "159857") == Current.EtfQuote(net, "159857")
    ensures LegacyEastmoneyQuote(net, "159857") == KlineQuote(net, "159857")
  {
    assert StartsWith("159857", "159");
  }

  /** The two Yahoo ticker tables differ only for Hang Seng Tech. */
  lemma YahooTickersDiffer(code: string)
    ensures code != "HST00011" ==> LegacyYahooTicker(code) == Current.YahooTicker(code)
    ensures code == "HST00011" ==> LegacyYahooTicker(code) == Some("^HSTECH") && Current.YahooTicker(code) == Some("3032.HK")
  {
  }

  /** The two Yahoo row filters part only on a null volume: the current one
      keeps the row with volume 0, the older one drops it. */
  lemma RowFiltersDiffer(row: YahooRow)
    ensures row.volume.Some? ==> StrictYahooBar(row) == Current.YahooBar(row)
    ensures row.volume.None? ==> StrictYahooBar(row).None?
    ensures row.volume.None? && Current.YahooBar(row).Some? ==> Current.YahooBar(row).value.volume == 0.0
  {
  }

  /** On a chart whose every row reports a volume, the two record loops keep
      the same records. */
  lemma {:induction false} RecordLoopsAgree(rows: seq<YahooRow>)
    requires forall i :: 0 <= i < |rows| ==> rows[i].volume.Some?
    ensures KeepSome(rows, StrictYahooBar) == KeepSome(rows, Current.YahooBar)
    decreases |rows|
  {
    if rows != [] {
      var init := rows[..|rows| - 1];
      RecordLoopsAgree(init);
      RowFiltersDiffer(rows[|rows| - 1]);
    }
  }

  /** A row with prices but no volume is a record for the current adapter
      and none for the older one, so one such chart makes them disagree. */
  lemma RecordLoopsPart(d: Date)
    ensures var row := YahooRow(d, Some(1.0), Some(1.0), Some(1.0), Some(1.0), None);
      KeepSome([row], StrictYahooBar) == [] && KeepSome([row], Current.YahooBar) == [Bar(d, 1.0, 1.0, 1.0, 1.0, 0.0)]
  {
    var row := YahooRow(d, Some(1.0), Some(1.0), Some(1.0), Some(1.0), None);
    assert [row][..0] == [];
  }

  /** The older Hong Kong adapter has no fallback: when Yahoo has no chart it
      fails whatever Sina and Tencent would have answered, while the current
      one moves on to them. */
  lemma LegacyHkHasNoFallback(net: Upstream, code: string)
    requires Current.IsHkCode(code) && code != "HST00011"
    requires net.yahooChart(Current.YahooTicker(code).value).None?
    ensures LegacyHkQuote(net, code).None?
    ensures Current.HkQuote(net, code) == FirstNonEmpty([None, Current.HkSinaQuote(net, code), Current.HkTencentQuote(net, code)])
  {
    YahooTickersDiffer(code);
  }

  /** For every code that is neither gold, Hong Kong nor a 159* ETF the two
      layers ask the same providers the same questions, so `get_index_quote`
      behaves identically. */
  lemma PlainCodesResolveAlike(net: Upstream, code: string, start: Date, end: Date)
    requires code != "AUUSDO" && !Current.IsHkCode(code) && !StartsWith(code, "159")
    ensures LegacyOutcomes(net, code, start, end) == Current.Outcomes(net, code, start, end)
  {
    SecidTablesAgree(code);
    assert code != "159857" by {
      if code == "159857" {
        assert StartsWith(code, "159");
      }
    }
  }
}
