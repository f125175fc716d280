/** `IndexTrendAnalyzer` of `index_trend_analyzer.py`: an index is YES while
    its latest close is at or above the N-day moving average of closes (the
    threshold) and NO otherwise; the analyzer remembers, per index code, the
    last status together with the day and price at which it last changed, ranks
    a batch of indices by trend strength and summarises a batch. */
module IndexTrendAnalyzer {
  import opened Wrappers
  import opened Calendar
  import opened Sorting
  import opened Quotes

  datatype Status = Yes | No

  /** One entry of `history_status`: the last status, when it last changed
      and the close at that moment. */
  datatype StatusRecord = StatusRecord(status: Status, changeTime: string, changePrice: real)

  /** The result dictionary of `analyze_index_trend`, without the wall-clock
      `update_time`. */
  datatype TrendRecord = TrendRecord(
    rank: nat, code: string, name: string, status: Status,
    priceChangePct: real, currentPrice: real, threshold: real, deviationRate: real,
    changeTime: string, intervalChangePct: real)

  /** One element of the index list given to `analyze_all_indices`. */
  datatype IndexEntry = IndexEntry(code: string, name: string)

  /** The dictionary of `get_status_change_summary`. */
  datatype StatusSummary = StatusSummary(total: nat, yesCount: nat, noCount: nat, newYes: seq<string>, newNo: seq<string>)

  function Sum(xs: seq<real>): real {
    if xs == [] then 0.0 else Sum(xs[..|xs| - 1]) + xs[|xs| - 1]
  }

  function Mean(xs: seq<real>): real
    requires xs != []
  {
    Sum(xs) / (|xs| as real)
  }

  /** A sum of values within [lo, hi] lies within |xs| * lo and |xs| * hi. */
  lemma {:induction false} SumBounds(xs: seq<real>, lo: real, hi: real)
    requires forall i :: 0 <= i < |xs| ==> lo <= xs[i] <= hi
    ensures (|xs| as real) * lo <= Sum(xs) <= (|xs| as real) * hi
  {
    if xs != [] {
      SumBounds(xs[..|xs| - 1], lo, hi);
    }
  }

  /** A quotient of a value between n * lo and n * hi by a positive n lies
      between lo and hi. */
  lemma DivBounds(s: real, n: real, lo: real, hi: real)
    requires n > 0.0 && n * lo <= s <= n * hi
    ensures lo <= s / n <= hi
  {
    var q := s / n;
    assert q * n == s;
    assert (q - lo) * n == s - n * lo;
    assert (hi - q) * n == n * hi - s;
  }

  /** A mean lies within any bounds of the values it averages. */
  lemma MeanBounds(xs: seq<real>, lo: real, hi: real)
    requires xs != []
    requires forall i :: 0 <= i < |xs| ==> lo <= xs[i] <= hi
    ensures lo <= Mean(xs) <= hi
  {
    SumBounds(xs, lo, hi);
    DivBounds(Sum(xs), |xs| as real, lo, hi);
  }

  function Closes(bars: seq<Bar>): seq<real> {
    seq(|bars|, i requires 0 <= i < |bars| => bars[i].close)
  }

  /** The percentage change from `base` to `x`. A zero base, for which the
      source's float division gives an infinity or NaN, is taken as no
      change. */
  function Percent(x: real, base: real): (r: real)
    ensures base > 0.0 ==> (r >= 0.0 <==> x >= base)
    ensures base > 0.0 ==> (r == 0.0 <==> x == base)
  {
    if base == 0.0 then 0.0 else (x - base) / base * 100.0
  }

  /** A row of the quote frame once the moving-average column is added. */
  datatype Row = Row(bar: Bar, ma: Option<real>)

  /** The mean of the n closes ending at bar `i`. */
  function WindowMean(bars: seq<Bar>, i: nat, n: nat): real
    requires 1 <= n && n - 1 <= i < |bars|
  {
    Mean(Closes(bars)[i + 1 - n .. i + 1])
  }

  /** `close.rolling(window=n).mean()`: the mean of the n closes ending at a
      row, undefined for the first n - 1 rows. */
  function Rolling(bars: seq<Bar>, n: nat): (r: seq<Row>)
    requires n >= 1
    ensures |r| == |bars|
    ensures forall i :: 0 <= i < |bars| ==> r[i].bar == bars[i] && (r[i].ma.Some? <==> i >= n - 1)
    ensures forall i :: n - 1 <= i < |bars| ==> r[i].ma.Some? && r[i].ma.value == Sum(Closes(bars)[i + 1 - n .. i + 1]) / (n as real)
  {
    seq(|bars|, i requires 0 <= i < |bars| =>
      Row(bars[i], if i >= n - 1 then Some(WindowMean(bars, i, n)) else None))
  }

  /** The rows whose moving average is defined (`ma20.notna()`), in order. */
  function Defined(rows: seq<Row>): (r: seq<Row>)
    ensures |r| <= |rows|
    ensures forall k :: 0 <= k < |r| ==> r[k].ma.Some?
  {
    if rows == [] then []
    else
      var rest := Defined(rows[..|rows| - 1]);
      if rows[|rows| - 1].ma.Some? then rest + [rows[|rows| - 1]] else rest
  }

  /** When exactly the rows from `m` on are defined, filtering keeps that
      suffix. */
  lemma {:induction false} DefinedSuffix(rows: seq<Row>, m: nat)
    requires m <= |rows|
    requires forall i :: 0 <= i < |rows| ==> (rows[i].ma.Some? <==> i >= m)
    ensures Defined(rows) == rows[m..]
    decreases |rows|
  {
    if rows != [] {
      var init := rows[..|rows| - 1];
      if m == |rows| {
        DefinedSuffix(init, m - 1);
      } else {
        DefinedSuffix(init, m);
        assert rows[m..] == init[m..] + [rows[|rows| - 1]];
      }
    }
  }

  /** The frame after the moving average is added and the undefined rows are
      dropped: one row per bar from the n-th on, the last one carrying the
      mean of the last n closes. */
  lemma FilteredFrame(bars: seq<Bar>, n: nat)
    requires 1 <= n <= |bars|
    ensures var rows := Defined(Rolling(bars, n));
      && |rows| == |bars| - n + 1
      && rows[|rows| - 1] == Row(bars[|bars| - 1], Some(WindowMean(bars, |bars| - 1, n)))
      && (|rows| >= 2 ==> rows[|rows| - 2].bar == bars[|bars| - 2])
      && WindowMean(bars, |bars| - 1, n) == Mean(Closes(bars)[|bars| - n..])
  {
    var all := Rolling(bars, n);
    DefinedSuffix(all, n - 1);
    LastRows(all[n - 1..], bars, n);
  }

  lemma LastRows(rows: seq<Row>, bars: seq<Bar>, n: nat)
    requires 1 <= n <= |bars|
    requires rows == Rolling(bars, n)[n - 1..]
    ensures |rows| == |bars| - n + 1
    ensures rows[|rows| - 1] == Row(bars[|bars| - 1], Some(WindowMean(bars, |bars| - 1, n)))
    ensures |rows| >= 2 ==> rows[|rows| - 2].bar == bars[|bars| - 2]
    ensures WindowMean(bars, |bars| - 1, n) == Mean(Closes(bars)[|bars| - n..])
  {
    var all := Rolling(bars, n);
    var closes := Closes(bars);
    assert closes[|bars| - 1 + 1 - n .. |bars| - 1 + 1] == closes[|bars| - n..];
    assert rows[|rows| - 1] == all[|bars| - 1];
    if |rows| >= 2 {
      assert rows[|rows| - 2] == all[|bars| - 2];
    }
  }

  /** The status and the bookkeeping of `analyze_index_trend` once the latest
      close, the threshold and the day-over-day change are known: a first
      record or a changed status restarts the interval at today and at the
      current close, an unchanged status carries the stored day and price
      forward. */
  function Judge(prior: Option<StatusRecord>, code: string, name: string, price: real, threshold: real, change: real, today: Date)
    : (r: (TrendRecord, StatusRecord))
    ensures r.0.code == code && r.0.name == name && r.0.rank == 0
    ensures r.0.currentPrice == price && r.0.threshold == threshold && r.0.priceChangePct == change
    ensures r.0.status == Yes <==> price >= threshold
    ensures r.0.deviationRate == Percent(price, threshold)
    ensures r.1.status == r.0.status
    ensures r.1.changeTime != ""
  {
    var status := if price >= threshold then Yes else No;
    var todayText := ChangeTimeText(today);
    var carried := prior.Some? && prior.value.status == status;
    var time := if carried then prior.value.changeTime else todayText;
    var changePrice := if carried then prior.value.changePrice else price;
    var interval := if changePrice > 0.0 then Percent(price, changePrice) else 0.0;
    (TrendRecord(0, code, name, status, change, price, threshold, Percent(price, threshold),
                 if time != "" then time else todayText, interval),
     StatusRecord(status, if time != "" then time else UnpaddedText(today), changePrice))
  }

  /** The analysis of one index from its prior history entry and its quote
      frame: the record `analyze_index_trend` returns and the entry it stores,
      or `None` when there are fewer bars than the period. */
  function Evaluate(prior: Option<StatusRecord>, n: nat, code: string, name: string, bars: seq<Bar>, today: Date)
    : (r: Option<(TrendRecord, StatusRecord)>)
    requires n >= 1
    ensures r.Some? <==> |bars| >= n
    ensures r.Some? ==>
      && r.value.0.currentPrice == bars[|bars| - 1].close
      && r.value.0.threshold == Mean(Closes(bars)[|bars| - n..])
      && r.value.0.priceChangePct == (if |bars| > n then Percent(bars[|bars| - 1].close, bars[|bars| - 2].close) else 0.0)
    ensures r.Some? ==> r.value == Judge(prior, code, name, r.value.0.currentPrice, r.value.0.threshold, r.value.0.priceChangePct, today)
  {
    if bars == [] || |bars| < n then None
    else
      FilteredFrame(bars, n);
      var rows := Defined(Rolling(bars, n));
      var latest := rows[|rows| - 1];
      var change := if |rows| >= 2 then Percent(latest.bar.close, rows[|rows| - 2].bar.close) else 0.0;
      Some(Judge(prior, code, name, latest.bar.close, latest.ma.value, change, today))
  }

  /** A first record, or a status different from the stored one, starts a
      new interval: today is the change day, the current close the change
      price, and the interval change is zero. */
  lemma {:induction false} StatusChangeRestarts(prior: Option<StatusRecord>, code: string, name: string, price: real, threshold: real, change: real, today: Date)
    requires ValidDate(today)
    requires var r := Judge(prior, code, name, price, threshold, change, today); prior.None? || prior.value.status != r.0.status
    ensures var r := Judge(prior, code, name, price, threshold, change, today);
      && r.0.changeTime == ChangeTimeText(today)
      && r.1.changeTime == UnpaddedText(today)
      && r.1.changePrice == price
      && r.0.intervalChangePct == 0.0
  {
    ChangeTimeIsUnpadded(today);
  }

  /** An unchanged status carries the stored change day and price forward,
      and the interval change is measured from that stored price. */
  lemma StatusCarriesForward(prior: Option<StatusRecord>, code: string, name: string, price: real, threshold: real, change: real, today: Date)
    requires prior.Some? && prior.value.changeTime != ""
    requires Judge(prior, code, name, price, threshold, change, today).0.status == prior.value.status
    ensures var r := Judge(prior, code, name, price, threshold, change, today);
      && r.1 == prior.value
      && r.0.changeTime == prior.value.changeTime
      && r.0.intervalChangePct == (if prior.value.changePrice > 0.0 then Percent(price, prior.value.changePrice) else 0.0)
  {
  }

  /** The change day in the returned record and the one stored in the
      history are the same text, although one is written with
      `strftime('%Y.%m.%d').replace('.0', '.')` and the other with
      `strftime('%Y.%-m.%-d')`. */
  lemma RecordAndEntryAgree(prior: Option<StatusRecord>, code: string, name: string, price: real, threshold: real, change: real, today: Date)
    requires ValidDate(today)
    ensures var r := Judge(prior, code, name, price, threshold, change, today); r.0.changeTime == r.1.changeTime
  {
    ChangeTimeIsUnpadded(today);
  }

  /** Two analyses in a row with the same status: the second stores exactly
      the entry the first one stored. */
  lemma SteadyStatusIsFixpoint(prior: Option<StatusRecord>, code: string, name: string, bars1: seq<Bar>, bars2: seq<Bar>, n: nat, day1: Date, day2: Date)
    requires n >= 1 && |bars1| >= n && |bars2| >= n
    requires var first := Evaluate(prior, n, code, name, bars1, day1).value;
      Evaluate(Some(first.1), n, code, name, bars2, day2).value.0.status == first.0.status
    ensures var first := Evaluate(prior, n, code, name, bars1, day1).value;
      Evaluate(Some(first.1), n, code, name, bars2, day2).value.1 == first.1
  {
    var first := Evaluate(prior, n, code, name, bars1, day1).value;
    var second := Evaluate(Some(first.1), n, code, name, bars2, day2).value;
    StatusCarriesForward(Some(first.1), code, name, second.0.currentPrice, second.0.threshold, second.0.priceChangePct, day2);
  }

  lemma {:induction false} SumPositive(xs: seq<real>)
    requires xs != []
    requires forall i :: 0 <= i < |xs| ==> xs[i] > 0.0
    ensures Sum(xs) > 0.0
  {
    if |xs| > 1 {
      SumPositive(xs[..|xs| - 1]);
    }
  }

  lemma MeanPositive(xs: seq<real>)
    requires xs != []
    requires forall i :: 0 <= i < |xs| ==> xs[i] > 0.0
    ensures Mean(xs) > 0.0
  {
    SumPositive(xs);
  }

  /** With positive closes the threshold is positive, so the deviation rate is
      non-negative exactly when the status is YES. */
  lemma DeviationSignMatchesStatus(prior: Option<StatusRecord>, n: nat, code: string, name: string, bars: seq<Bar>, today: Date)
    requires n >= 1 && |bars| >= n
    requires forall i :: |bars| - n <= i < |bars| ==> bars[i].close > 0.0
    ensures var rec := Evaluate(prior, n, code, name, bars, today).value.0;
      rec.threshold > 0.0 && (rec.deviationRate >= 0.0 <==> rec.status == Yes)
  {
    var window := Closes(bars)[|bars| - n..];
    assert forall i :: 0 <= i < |window| ==> window[i] == bars[|bars| - n + i].close;
    MeanPositive(window);
    var analysis := Evaluate(prior, n, code, name, bars, today).value;
    var rec := analysis.0;
    assert rec.threshold == Mean(window);
    assert analysis == Judge(prior, code, name, rec.currentPrice, rec.threshold, rec.priceChangePct, today);
  }

  /** The threshold lies between the lowest and the highest close of the
      window it averages. */
  lemma ThresholdWithinWindow(prior: Option<StatusRecord>, n: nat, code: string, name: string, bars: seq<Bar>, today: Date, lo: real, hi: real)
    requires n >= 1 && |bars| >= n
    requires forall i :: |bars| - n <= i < |bars| ==> lo <= bars[i].close <= hi
    ensures lo <= Evaluate(prior, n, code, name, bars, today).value.0.threshold <= hi
  {
    var window := Closes(bars)[|bars| - n..];
    assert forall i :: 0 <= i < |window| ==> window[i] == bars[|bars| - n + i].close;
    MeanBounds(window, lo, hi);
  }

  /** The history entry of a code before an analysis, as `history_status.get`
      returns it. */
  function Prior(history: map<string, StatusRecord>, code: string): Option<StatusRecord> {
    if code in history then Some(history[code]) else None
  }

  /** The loop of `analyze_all_indices` before sorting: every entry analysed
      in list order against the history as the earlier entries left it; the
      records that came back and the final history. */
  function Collect(history: map<string, StatusRecord>, n: nat, entries: seq<IndexEntry>, fetch: string -> seq<Bar>, today: Date)
    : (r: (seq<TrendRecord>, map<string, StatusRecord>))
    requires n >= 1
    ensures |r.0| <= |entries|
  {
    if entries == [] then ([], history)
    else
      var (records, status) := Collect(history, n, entries[..|entries| - 1], fetch, today);
      var e := entries[|entries| - 1];
      match Evaluate(Prior(status, e.code), n, e.code, e.name, fetch(e.code), today)
      case None => (records, status)
      case Some(result) => (records + [result.0], status[e.code := result.1])
  }

  /** The number of entries with at least n bars. */
  function Analyzable(entries: seq<IndexEntry>, fetch: string -> seq<Bar>, n: nat): nat {
    if entries == [] then 0
    else Analyzable(entries[..|entries| - 1], fetch, n) + (if |fetch(entries[|entries| - 1].code)| >= n then 1 else 0)
  }

  /** One record per entry with enough bars. */
  lemma {:induction false} CollectCount(history: map<string, StatusRecord>, n: nat, entries: seq<IndexEntry>, fetch: string -> seq<Bar>, today: Date)
    requires n >= 1
    ensures |Collect(history, n, entries, fetch, today).0| == Analyzable(entries, fetch, n)
  {
    if entries != [] {
      var init := entries[..|entries| - 1];
      var e := entries[|entries| - 1];
      CollectCount(history, n, init, fetch, today);
      var status := Collect(history, n, init, fetch, today).1;
      var analysis := Evaluate(Prior(status, e.code), n, e.code, e.name, fetch(e.code), today);
      assert analysis.Some? <==> |fetch(e.code)| >= n;
    }
  }

  /** The records come back unranked; ranks are given after sorting. */
  lemma {:induction false} CollectUnranked(history: map<string, StatusRecord>, n: nat, entries: seq<IndexEntry>, fetch: string -> seq<Bar>, today: Date)
    requires n >= 1
    ensures forall k :: 0 <= k < |Collect(history, n, entries, fetch, today).0| ==> Collect(history, n, entries, fetch, today).0[k].rank == 0
  {
    if entries != [] {
      var init := entries[..|entries| - 1];
      var e := entries[|entries| - 1];
      CollectUnranked(history, n, init, fetch, today);
      var (records, status) := Collect(history, n, init, fetch, today);
      var analysis := Evaluate(Prior(status, e.code), n, e.code, e.name, fetch(e.code), today);
      var all := Collect(history, n, entries, fetch, today).0;
      assert all == if analysis.Some? then records + [analysis.value.0] else records;
      if analysis.Some? {
        var added := analysis.value.0;
        assert added.rank == 0;
        assert forall k :: 0 <= k < |all| ==> all[k] == (if k < |records| then records[k] else added);
      }
    }
  }

  /** A code is in the history afterwards exactly when it was before or one
      of its entries had enough bars. */
  lemma {:induction false} CollectKeys(history: map<string, StatusRecord>, n: nat, entries: seq<IndexEntry>, fetch: string -> seq<Bar>, today: Date, c: string)
    requires n >= 1
    ensures c in Collect(history, n, entries, fetch, today).1 <==>
      c in history || exists i :: 0 <= i < |entries| && entries[i].code == c && |fetch(c)| >= n
  {
    if entries != [] {
      var init := entries[..|entries| - 1];
      var e := entries[|entries| - 1];
      CollectKeys(history, n, init, fetch, today, c);
      var status := Collect(history, n, init, fetch, today).1;
      var analysis := Evaluate(Prior(status, e.code), n, e.code, e.name, fetch(e.code), today);
      assert analysis.Some? <==> |fetch(e.code)| >= n;
      assert Collect(history, n, entries, fetch, today).1 == if analysis.Some? then status[e.code := analysis.value.1] else status;
      assert forall i :: 0 <= i < |init| ==> init[i] == entries[i];
      if exists i :: 0 <= i < |entries| && entries[i].code == c && |fetch(c)| >= n {
        var i :| 0 <= i < |entries| && entries[i].code == c && |fetch(c)| >= n;
        if i < |init| {
          assert init[i].code == c;
        }
      }
    }
  }

  /** A code that no entry names keeps its history entry. */
  lemma {:induction false} CollectKeepsOthers(history: map<string, StatusRecord>, n: nat, entries: seq<IndexEntry>, fetch: string -> seq<Bar>, today: Date, c: string)
    requires n >= 1
    requires forall i :: 0 <= i < |entries| ==> entries[i].code != c
    ensures Prior(Collect(history, n, entries, fetch, today).1, c) == Prior(history, c)
  {
    if entries != [] {
      var init := entries[..|entries| - 1];
      assert forall i :: 0 <= i < |init| ==> init[i] == entries[i];
      CollectKeepsOthers(history, n, init, fetch, today, c);
    }
  }

  /** The sort key of `analyze_all_indices`, `(status == 'NO',
      -deviation_rate)`, as an order: YES before NO, then the larger deviation
      first. */
  predicate RankLe(a: TrendRecord, b: TrendRecord) {
    (a.status == Yes && b.status == No) || (a.status == b.status && a.deviationRate >= b.deviationRate)
  }

  lemma RankLeIsPreorder()
    ensures TotalPreorder(RankLe)
  {
  }

  /** The ranking order: a permutation of the records in which every YES
      comes before every NO, within a status deviation rates do not
      increase, and records with the same status and deviation rate keep
      their input order. */
  lemma RankingOrder(records: seq<TrendRecord>)
    ensures var sorted := SortBy(records, RankLe);
      && multiset(sorted) == multiset(records)
      && (forall i, j :: 0 <= i < j < |sorted| && sorted[i].status == No ==> sorted[j].status == No)
      && (forall i, j :: 0 <= i < j < |sorted| && sorted[i].status == sorted[j].status ==> sorted[i].deviationRate >= sorted[j].deviationRate)
      && (forall z :: Ties(sorted, z, RankLe) == Ties(records, z, RankLe))
  {
    RankLeIsPreorder();
    SortBySorted(records, RankLe);
    forall z {
      SortByStable(records, z, RankLe);
    }
  }

  /** The records with a given status, in their order. */
  function WithStatus(records: seq<TrendRecord>, s: Status): (r: seq<TrendRecord>)
    ensures |r| <= |records|
    ensures forall x :: x in r <==> x in records && x.status == s
  {
    if records == [] then []
    else
      var rest := WithStatus(records[..|records| - 1], s);
      var last := records[|records| - 1];
      assert records == records[..|records| - 1] + [last];
      if last.status == s then rest + [last] else rest
  }

  /** The status filter works record by record: filtering a concatenation
      filters each part and keeps them in order. */
  lemma {:induction false} WithStatusAppend(a: seq<TrendRecord>, b: seq<TrendRecord>, s: Status)
    ensures WithStatus(a + b, s) == WithStatus(a, s) + WithStatus(b, s)
  {
    if b == [] {
      assert a + b == a;
    } else {
      var init := b[..|b| - 1];
      assert (a + b)[..|a + b| - 1] == a + init;
      assert (a + b)[|a + b| - 1] == b[|b| - 1];
      WithStatusAppend(a, init, s);
      if b[|b| - 1].status == s {
        assert WithStatus(a, s) + WithStatus(init, s) + [b[|b| - 1]] == WithStatus(a, s) + (WithStatus(init, s) + [b[|b| - 1]]);
      }
    }
  }

  /** A single record is kept iff it has the status. */
  lemma WithStatusOne(x: TrendRecord, s: Status)
    ensures WithStatus([x], s) == if x.status == s then [x] else []
  {
    assert [x][..0] == [];
  }

  /** A record with the status is kept as many times as it occurs, so two
      identical records count twice; the others are dropped. */
  lemma {:induction false} WithStatusCounts(records: seq<TrendRecord>, s: Status)
    ensures forall x :: multiset(WithStatus(records, s))[x] == if x.status == s then multiset(records)[x] else 0
  {
    if records != [] {
      var init := records[..|records| - 1];
      WithStatusCounts(init, s);
      assert records == init + [records[|records| - 1]];
    }
  }

  /** Every record is YES or NO, so the two counts add up to the total. */
  lemma {:induction false} StatusesPartition(records: seq<TrendRecord>)
    ensures |WithStatus(records, Yes)| + |WithStatus(records, No)| == |records|
  {
    if records != [] {
      StatusesPartition(records[..|records| - 1]);
    }
  }

  /** The names of the records with status `s` whose change day is `day`, in
      order. */
  function TurnedOn(records: seq<TrendRecord>, s: Status, day: string): seq<string> {
    if records == [] then []
    else
      var rest := TurnedOn(records[..|records| - 1], s, day);
      var last := records[|records| - 1];
      if last.status == s && last.changeTime == day then rest + [last.name] else rest
  }

  /** Only records with status `s` are listed, so there are at most as many
      names as such records. */
  lemma {:induction false} TurnedOnCount(records: seq<TrendRecord>, s: Status, day: string)
    ensures |TurnedOn(records, s, day)| <= |WithStatus(records, s)|
  {
    if records != [] {
      var init := records[..|records| - 1];
      var last := records[|records| - 1];
      TurnedOnCount(init, s, day);
      assert |WithStatus(records, s)| == |WithStatus(init, s)| + (if last.status == s then 1 else 0);
    }
  }

  /** A name is listed exactly when some record with status `s` and change
      day `day` carries it. */
  lemma {:induction false} TurnedOnMembers(records: seq<TrendRecord>, s: Status, day: string)
    ensures forall name :: name in TurnedOn(records, s, day) <==>
      exists i :: 0 <= i < |records| && records[i].status == s && records[i].changeTime == day && records[i].name == name
  {
    if records != [] {
      var init := records[..|records| - 1];
      var last := records[|records| - 1];
      TurnedOnMembers(init, s, day);
      assert forall i :: 0 <= i < |init| ==> init[i] == records[i];
    }
  }

  /** The loop of `get_status_change_summary`: the names of the records whose
      change day is `day`, split by their status. */
  method NewlyChanged(results: seq<TrendRecord>, day: string) returns (newYes: seq<string>, newNo: seq<string>)
    ensures newYes == TurnedOn(results, Yes, day)
    ensures newNo == TurnedOn(results, No, day)
  {
    newYes, newNo := [], [];
    for i := 0 to |results|
      invariant newYes == TurnedOn(results[..i], Yes, day)
      invariant newNo == TurnedOn(results[..i], No, day)
    {
      var r := results[i];
      TurnedOnStep(results, i, Yes, day);
      TurnedOnStep(results, i, No, day);
      if r.changeTime == day {
        if r.status == Yes {
          newYes := newYes + [r.name];
        } else {
          newNo := newNo + [r.name];
        }
      }
    }
    assert results[..|results|] == results;
  }

  /** Taking one more record appends its name exactly when it turned to `s`
      on `day`. */
  lemma TurnedOnStep(records: seq<TrendRecord>, i: nat, s: Status, day: string)
    requires i < |records|
    ensures TurnedOn(records[..i + 1], s, day) ==
      if records[i].status == s && records[i].changeTime == day then TurnedOn(records[..i], s, day) + [records[i].name]
      else TurnedOn(records[..i], s, day)
  {
    assert records[..i + 1][..i] == records[..i];
  }


  /** The rank loop of `analyze_all_indices`: the records in the same order,
      numbered from 1. */
  method NumberRanks(sorted: seq<TrendRecord>) returns (results: seq<TrendRecord>)
    ensures |results| == |sorted|
    ensures forall j :: 0 <= j < |sorted| ==> results[j] == sorted[j].(rank := j + 1)
  {
    results := [];
    var k := 0;
    while k < |sorted|
      invariant 0 <= k <= |sorted|
      invariant |results| == k
      invariant forall j :: 0 <= j < k ==> results[j] == sorted[j].(rank := j + 1)
    {
      results := results + [sorted[k].(rank := k + 1)];
      k := k + 1;
    }
  }

  /** An analysis period of at least one day. */
  type Period = n: nat | n >= 1 witness 1

  /** The analyzer: the moving-average period, the in-memory status history
      and the status history file (`None` while it is missing or unreadable). */
  class TrendAnalyzer {
    const maPeriod: Period
    var historyStatus: map<string, StatusRecord>
    var statusFile: Option<map<string, StatusRecord>>

    /** `__init__` with `_load_history_status`: an unreadable or missing file
        gives an empty history. */
    constructor (maPeriod: Period, statusFile: Option<map<string, StatusRecord>>)
      ensures this.maPeriod == maPeriod && this.statusFile == statusFile
      ensures historyStatus == (if statusFile.Some? then statusFile.value else map[])
    {
      this.maPeriod := maPeriod;
      this.statusFile := statusFile;
      historyStatus := if statusFile.Some? then statusFile.value else map[];
    }

    /** `analyze_index_trend` on the frame the data source returned for the
        code: the record, and the history entry of the code replaced; nothing
        changes when the frame is shorter than the period. */
    method AnalyzeIndexTrend(code: string, name: string, quotes: seq<Bar>, today: Date) returns (result: Option<TrendRecord>)
      modifies this
      ensures statusFile == old(statusFile)
      ensures match Evaluate(Prior(old(historyStatus), code), maPeriod, code, name, quotes, today)
        case None => result.None? && historyStatus == old(historyStatus)
        case Some(r) => result == Some(r.0) && historyStatus == old(historyStatus)[code := r.1]
    {
      var analysis := Evaluate(Prior(historyStatus, code), maPeriod, code, name, quotes, today);
      if analysis.None? {
        return None;
      }
      historyStatus := historyStatus[code := analysis.value.1];
      result := Some(analysis.value.0);
    }

    /** `analyze_all_indices`: analyse every entry, save the history, sort
        by the ranking order and number the records from 1. */
    method AnalyzeAllIndices(entries: seq<IndexEntry>, fetch: string -> seq<Bar>, today: Date, writeOk: bool)
      returns (results: seq<TrendRecord>)
      modifies this
      ensures var (collected, status) := Collect(old(historyStatus), maPeriod, entries, fetch, today);
        && historyStatus == status
        && |results| == |collected|
        && forall i :: 0 <= i < |results| ==> results[i] == SortBy(collected, RankLe)[i].(rank := i + 1)
      ensures forall i :: 0 <= i < |results| ==> results[i].rank == i + 1
      ensures forall i, j :: 0 <= i < j < |results| ==> RankLe(results[i], results[j])
      ensures statusFile == if writeOk then Some(historyStatus) else old(statusFile)
    {
      var collected := AnalyzeEach(entries, fetch, today);
      if writeOk {
        statusFile := Some(historyStatus);
      }
      var sorted := SortBy(collected, RankLe);
      RankLeIsPreorder();
      SortBySorted(collected, RankLe);
      results := NumberRanks(sorted);
    }

    /** The analysis loop of `analyze_all_indices`: the records that came
        back, in list order, and the history the analyses leave. */
    method AnalyzeEach(entries: seq<IndexEntry>, fetch: string -> seq<Bar>, today: Date) returns (collected: seq<TrendRecord>)
      modifies this
      ensures (collected, historyStatus) == Collect(old(historyStatus), maPeriod, entries, fetch, today)
      ensures statusFile == old(statusFile)
    {
      collected := [];
      var i := 0;
      while i < |entries|
        invariant 0 <= i <= |entries|
        invariant (collected, historyStatus) == Collect(old(historyStatus), maPeriod, entries[..i], fetch, today)
        invariant statusFile == old(statusFile)
      {
        assert entries[..i + 1][..i] == entries[..i];
        var e := entries[i];
        var r := AnalyzeIndexTrend(e.code, e.name, fetch(e.code), today);
        if r.Some? {
          collected := collected + [r.value];
        }
        i := i + 1;
      }
      assert entries[..i] == entries;
    }

    /** `get_status_change_summary`: the total, the YES and NO counts, and the
        names of the indices whose status changed today, by new status. */
    method GetStatusChangeSummary(results: seq<TrendRecord>, today: Date) returns (summary: StatusSummary)
      ensures summary.total == |results| == summary.yesCount + summary.noCount
      ensures summary.yesCount == |WithStatus(results, Yes)| && summary.noCount == |WithStatus(results, No)|
      ensures summary.newYes == TurnedOn(results, Yes, ChangeTimeText(today))
      ensures summary.newNo == TurnedOn(results, No, ChangeTimeText(today))
    {
      var day := ChangeTimeText(today);
      var newYes, newNo := NewlyChanged(results, day);
      StatusesPartition(results);
      summary := StatusSummary(|results|, |WithStatus(results, Yes)|, |WithStatus(results, No)|, newYes, newNo);
    }
  }
}
