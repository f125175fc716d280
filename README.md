# fishbowl_trend: trend engine, quote retrieval and push report

This project models the core of the fishbowl ("鱼盆") trend model:

- **Trend analyzer** (`IndexTrendAnalyzer` module, class `TrendAnalyzer`).
  - An index is YES while its latest close is at or above the moving average of its last N closes (the threshold), and NO otherwise.
  - The analyzer computes the deviation from the threshold and the day-over-day change.
  - It remembers, per index code, the last status and the day and close at which that status last changed.
  - It ranks a batch of indices, YES first and then by descending deviation, and numbers them from 1.
  - It summarises a batch: counts, and the indices that changed status today.
- **Quote retrieval** (`IndexDataSource` module, class `IndexDataSource`).
  - A one-hour quote cache keyed by code and end date.
  - The Eastmoney → Sina → Netease fallback chain.
  - The provider code tables.
  - The Eastmoney kline line parser.
  - The Hong Kong chain Yahoo → Sina → Tencent, with a generated series as the last resort for Hang Seng Tech only.
  - The Yahoo row filter.
  - The solar ETF adapter with its Tencent fallback.
- **The older retrieval layer** (`FishvowlIndexDataSource` module), modelled as a second configuration. Lemmas state where the two layers agree and where they part:
  - the 159* `secid` rule;
  - the ETF dispatch;
  - the Hang Seng Tech ticker;
  - the null-volume rule;
  - the missing Hong Kong fallback.
- **Trend reporter** (`TrendReporter` module, class `Reporter`).
  - The WeChat simple report, with its summary block and its YES and NO sections.
  - The split into numbered parts of at most 2000 characters.
  - The CSS classes of the HTML report.

Shared pieces live in small modules:

- `Wrappers`: `Option`.
- `Text`: split, join, replace and decimal text.
- `Calendar`: dates and the three date formats the source writes.
- `Sorting`: a stable sort with its ordering, permutation and stability lemmas.
- `Quotes`: bars, the upstream answers, the kline parser, the fallback rule and the cache rule, which both retrieval layers share.

The outside world is the datatype `Quotes.Upstream`, a record of functions that give each provider's answer for one requested date range:

- a network, HTTP or decoding failure is `None`;
- Python's `float()` and pandas' `to_datetime` on one text field are the `number` and `date` decoders.

Other inputs are parameters:

- the clock is passed in as a `Date` or as seconds;
- the cache directory is a `map` field from file name to contents and modification time;
- the status history file is an `Option<map>` field;
- whether a file write succeeds is a `bool` parameter.

## Model

| member | source | states |
|---|---|---|
| Text.Split | index_data_source.py:137 | `kline.split(',')` yields at least one piece and no piece contains the separator |
| Text.JoinSplit | index_data_source.py:137 | joining the pieces of a split with the separator gives the line back |
| Text.SplitJoin | index_data_source.py:137 | splitting separator-free fields joined with the separator gives exactly those fields back |
| Text.NatText | trend_reporter.py:82-84 | the decimal text of a count is non-empty, all digits, without a leading zero |
| Text.NatTextValue | trend_reporter.py:286 | the decimal text of a number, read back digit by digit, is that number |
| Text.NatTextInjective | trend_reporter.py:286 | different numbers have different decimal texts |
| Calendar.CompactText | index_data_source.py:40 | the end date written with its dashes removed contains no dash |
| Calendar.CompactDigits | index_data_source.py:40 | for a valid date, the date part of the cache file name is eight digits that read back as year, month and day (YYYYMMDD) |
| Calendar.CompactTextInjective | index_data_source.py:40 | different valid end dates give different date parts |
| Calendar.ChangeTimeIsUnpadded | index_trend_analyzer.py:114-146 | `strftime('%Y.%m.%d').replace('.0', '.')` and `strftime('%Y.%-m.%-d')` write every valid date identically |
| Sorting.SortBy | index_trend_analyzer.py:175 | sorting keeps the length and is a permutation of the input |
| Sorting.SortBySorted | index_trend_analyzer.py:175 | under a total preorder the sorted list is ordered |
| Sorting.SortByStable | index_trend_analyzer.py:175 | the sort is stable: elements with equal keys keep their input order |
| Quotes.ByDateIsPreorder | index_data_source.py:149 | ordering bars by trade date is a total preorder |
| Quotes.SortByDate | index_data_source.py:149 | `sort_values('trade_date')` returns a permutation of the bars in chronological order |
| Quotes.WithinRange | index_data_source.py:748-750 | the mask never lengthens the frame |
| Quotes.WithinRangeMembers | index_data_source.py:748-750 | a bar is kept iff it is an input bar with `start <= trade_date <= end`, both ends inclusive |
| Quotes.WithinRangeCounts | index_data_source.py:748-750 | an in-range bar is kept as many times as it occurs, any other bar not at all |
| Quotes.WithinRangeAppend | index_data_source.py:748-750 | the mask of a concatenation is the concatenation of the masks, so row order is kept |
| Quotes.WithinRangeOne | index_data_source.py:748-750 | a single row is kept iff its date is in range |
| Quotes.KlineFieldOrder | index_data_source.py:136-145 | a kline line is date, open, close, high, low and an optional volume, in that order; the volume is 0 with at most five fields |
| Quotes.KlineBars | index_data_source.py:135-145 | the parse succeeds iff every line parses; then there is one bar per line, in line order |
| Quotes.ParseKlines | index_data_source.py:135-145 | the record loop builds exactly the parse of all lines, failing on the first bad line |
| Quotes.KeepSome | index_data_source.py:265-277 | a row loop keeps a record for every row that yields one, only such records, and no more records than rows |
| Quotes.KeepSomeAppend | index_data_source.py:265-277 | the records of concatenated rows are the records of each part, in order, so order and repeats follow the rows |
| Quotes.KeepSomeOne | index_data_source.py:265-277 | a single row gives its record, or none |
| Quotes.KlineQuote | index_data_source.py:133-154 | a missing or empty `klines` list gives `None`; otherwise the quote succeeds iff every line parses, and then it is the parsed bars, non-empty and in date order |
| Quotes.RequestKlines | index_data_source.py:133-154 | the request-and-parse steps give exactly the kline quote of the secid |
| Quotes.Tried | index_data_source.py:53-59 | a provider is called only when every earlier one returned `None` or an empty frame; the chain stops at the first non-empty answer |
| Quotes.FirstNonEmpty | index_data_source.py:53-59 | the chain's answer is `None` iff every provider came back empty; otherwise it is the non-empty answer of the last provider called |
| Quotes.ChainOfThree | index_data_source.py:53-59 | a three-provider chain asks one, two or three providers and keeps the first non-empty answer |
| Quotes.CachedQuote | index_data_source.py:40-50 | the cache serves a frame iff refresh is not forced, the file exists, is strictly younger than 3600 s and can be read; the frame served is the file's contents |
| Quotes.CacheKeysDiffer | index_data_source.py:40 | requests for one index with different valid end dates use different cache files |
| Quotes.Stored | index_data_source.py:62-67 | only a non-empty frame whose write succeeds is stored, under its key with the given write time; every other file is unchanged |
| Quotes.CacheRoundTrip | index_data_source.py:40-67 | a stored frame is served unchanged for less than an hour and not after that |
| IndexDataSource.EastmoneySecid | index_data_source.py:92-113 | the full `secid` table: 399*, 88* and 899* and 159* map to "0."+code; 000* maps to "1."+code; 883418 is checked before 88*; the 1B* codes and 932000 map to fixed secids; a code is unchanged iff no rule applies |
| IndexDataSource.SinaCode | index_data_source.py:706-711 | 399* maps to "sz"+code; 000* and 1B* map to "sh"+code; any other code is unchanged, and only then |
| IndexDataSource.NeteaseCode | index_data_source.py:768-773 | 399* maps to "0"+code; 000* and 1B* map to "1"+code; there is no code, and no request, iff neither rule applies |
| IndexDataSource.SinaQuote | index_data_source.py:702-754 | fails iff Sina gives no history or an empty record list; otherwise a permutation of exactly the in-range bars of the history (possibly none), in date order; every bar returned lies between the requested dates inclusive |
| IndexDataSource.NeteaseQuote | index_data_source.py:764-810 | a code without a Netease code fails without a request; otherwise it fails iff the CSV request fails, and succeeds with a permutation of exactly the CSV rows in date order |
| IndexDataSource.YahooTicker | index_data_source.py:235-244 | only the three Hong Kong codes have a Yahoo ticker; any other code fails immediately |
| IndexDataSource.HkSinaCode | index_data_source.py:294-298 | only the three Hong Kong codes have a Sina Hong Kong code, and it is "rt_" followed by the Tencent code, so stripping "rt_hk" leaves the symbol Sina's history is asked for |
| IndexDataSource.HkTencentCode | index_data_source.py:462-466 | only the three Hong Kong codes have a Tencent Hong Kong code, and it is "hk" followed by the symbol |
| IndexDataSource.HkNamesDiffer | index_data_source.py:235-244 | the three Hong Kong indices have three different Yahoo tickers, Sina codes and Tencent codes |
| IndexDataSource.YahooBar | index_data_source.py:267-277 | a row is kept iff close, open, high and low are all non-null; the bar carries the row's date, open, high, low and close; a null volume becomes 0 |
| IndexDataSource.HkYahooQuote | index_data_source.py:241-288 | an unknown code or a missing chart fails; otherwise the answer fails iff no row passes the filter, and is then the kept records in date order |
| IndexDataSource.HkQuote | index_data_source.py:205-229 | Yahoo's answer when non-empty, else Sina's when non-empty, else Tencent's; the generated series only for HST00011; any other code fails exactly when all three are empty |
| IndexDataSource.EtfQuote | index_data_source.py:599-649 | the Eastmoney kline of "0."+code when it parses to bars, else the Tencent ETF adapter |
| IndexDataSource.EastmoneyQuote | index_data_source.py:74-113 | AUUSDO, the Hong Kong codes and 159857 go to their own adapters before any translation; every other code is requested under its secid |
| IndexDataSource.IndexDataSource.constructor | index_data_source.py:24-27 | the source starts with the given cache directory |
| IndexDataSource.IndexDataSource.GetIndexQuote | index_data_source.py:30-69 | a cache hit returns the cached frame, calls no provider and changes nothing; otherwise the providers called are a prefix of Eastmoney, Sina, Netease, the result is the first non-empty answer or an empty frame, and the cache is written only with a non-empty result, stamped with the write time read after the providers answered |
| IndexDataSource.IndexDataSource.FetchWithFallback | index_data_source.py:52-59 | the providers called are Eastmoney, then Sina, then Netease, each only after the previous answers were empty; the frame is the first non-empty answer, or empty |
| IndexDataSource.IndexDataSource.FetchFromEastmoney | index_data_source.py:71-158 | the dispatch and request steps give exactly the Eastmoney answer above |
| IndexDataSource.IndexDataSource.FetchFromHk | index_data_source.py:205-229 | reassigning the frame through the chain gives exactly the Hong Kong chain's answer |
| IndexDataSource.IndexDataSource.FetchHkFromYahoo | index_data_source.py:231-288 | the request, filter and sort steps give exactly the Yahoo answer |
| IndexDataSource.IndexDataSource.CollectYahooBars | index_data_source.py:265-277 | the record loop keeps exactly the rows the null filter accepts, in order |
| IndexDataSource.IndexDataSource.FetchEtfData | index_data_source.py:599-649 | the ETF steps give exactly the ETF answer |
| FishvowlIndexDataSource.LegacySecid | fishvowl_trend/index_data_source.py:86-106 | the older `secid` table, which has no 159* rule: 159* codes pass through unchanged |
| FishvowlIndexDataSource.LegacyYahooTicker | fishvowl_trend/index_data_source.py:202-211 | only the three Hong Kong codes have a ticker; Hang Seng Tech is ^HSTECH |
| FishvowlIndexDataSource.StrictYahooBar | fishvowl_trend/index_data_source.py:233-244 | a row is kept iff close, open, high, low and volume are all non-null |
| FishvowlIndexDataSource.LegacyHkQuote | fishvowl_trend/index_data_source.py:198-253 | an unknown code fails; a missing chart fails; otherwise the answer fails iff no row passes the strict filter, and is then the kept records in date order |
| FishvowlIndexDataSource.LegacyEastmoneyQuote | fishvowl_trend/index_data_source.py:74-106 | only AUUSDO and the Hong Kong codes have their own adapters; every other code, ETFs included, goes through the older secid table |
| FishvowlIndexDataSource.IndexDataSource.constructor | fishvowl_trend/index_data_source.py:24-28 | the source starts with the given cache directory |
| FishvowlIndexDataSource.IndexDataSource.GetIndexQuote | fishvowl_trend/index_data_source.py:30-69 | the same cache, fallback and write-through rules as the current layer, over the older adapters |
| FishvowlIndexDataSource.IndexDataSource.FetchWithFallback | fishvowl_trend/index_data_source.py:52-59 | the same fallback order over the older adapters |
| FishvowlIndexDataSource.IndexDataSource.FetchFromEastmoney | fishvowl_trend/index_data_source.py:71-151 | the dispatch and request steps give exactly the older Eastmoney answer |
| FishvowlIndexDataSource.IndexDataSource.FetchFromHk | fishvowl_trend/index_data_source.py:198-253 | the request, filter and sort steps give exactly the older Hong Kong answer |
| FishvowlIndexDataSource.IndexDataSource.CollectYahooBars | fishvowl_trend/index_data_source.py:232-244 | the record loop keeps exactly the rows the strict filter accepts, in order |
| FishvowlIndexDataSource.EtfCodesTranslation | fishvowl_trend/index_data_source.py:86-106 | for 159* codes the older secid is the code itself, while the current one is "0."+code |
| FishvowlIndexDataSource.SecidTablesAgree | fishvowl_trend/index_data_source.py:86-106 | outside 159* the two secid tables agree on every code |
| FishvowlIndexDataSource.EtfDispatchDiffers | fishvowl_trend/index_data_source.py:74-84 | 159857 goes to the ETF adapter in the current layer and to the raw kline request in the older one |
| FishvowlIndexDataSource.YahooTickersDiffer | fishvowl_trend/index_data_source.py:202-206 | the ticker tables differ only for HST00011: ^HSTECH in the older one, 3032.HK in the current one |
| FishvowlIndexDataSource.RowFiltersDiffer | fishvowl_trend/index_data_source.py:234 | the row filters agree whenever the volume is present; on a null volume the older one drops the row and the current one keeps it with volume 0 |
| FishvowlIndexDataSource.RecordLoopsAgree | fishvowl_trend/index_data_source.py:232-244 | on a chart where every row has a volume, both record loops keep the same records |
| FishvowlIndexDataSource.RecordLoopsPart | fishvowl_trend/index_data_source.py:234 | a row with prices but no volume is a record only for the current layer |
| FishvowlIndexDataSource.LegacyHkHasNoFallback | fishvowl_trend/index_data_source.py:198-253 | with no Yahoo chart, the older Hong Kong adapter fails, while the current one falls back to Sina and then Tencent |
| FishvowlIndexDataSource.PlainCodesResolveAlike | fishvowl_trend/index_data_source.py:30-69 | for codes that are not gold, not Hong Kong and not 159*, both layers ask every provider the same question |
| IndexTrendAnalyzer.Percent | index_trend_analyzer.py:97 | for a positive base, the percentage is non-negative iff the value is at or above the base, and zero iff they are equal |
| IndexTrendAnalyzer.Rolling | index_trend_analyzer.py:79 | the moving average is undefined on the first N-1 rows; every later row carries the sum of the N closes ending at it divided by N |
| IndexTrendAnalyzer.Defined | index_trend_analyzer.py:82 | dropping the NaN rows keeps only rows with a defined average |
| IndexTrendAnalyzer.FilteredFrame | index_trend_analyzer.py:79-91 | after the filter, the last row is the last bar and carries the mean of the last N closes; the row before it is the previous bar |
| IndexTrendAnalyzer.Judge | index_trend_analyzer.py:94-148 | the status is YES iff price >= threshold; the deviation is the percentage from the threshold; the stored entry has the same status and a non-empty change day |
| IndexTrendAnalyzer.Evaluate | index_trend_analyzer.py:74-104 | there is a result iff there are at least N bars; the price is the last close; the threshold is the mean of the last N closes; the day change is measured against the previous bar when there are more than N bars, else 0 |
| IndexTrendAnalyzer.StatusChangeRestarts | index_trend_analyzer.py:107-126 | on a first record or a status change, the change day is today, the change price is the current close and the interval change is 0 |
| IndexTrendAnalyzer.StatusCarriesForward | index_trend_analyzer.py:107-126 | with an unchanged status, the stored entry is kept as it was and the interval change is measured from the stored price |
| IndexTrendAnalyzer.RecordAndEntryAgree | index_trend_analyzer.py:138-146 | the change day in the returned record equals the one stored in the history |
| IndexTrendAnalyzer.SteadyStatusIsFixpoint | index_trend_analyzer.py:107-148 | two analyses in a row with the same status store the same history entry |
| IndexTrendAnalyzer.DeviationSignMatchesStatus | index_trend_analyzer.py:94-97 | with positive closes the threshold is positive, and the deviation is >= 0 iff the status is YES |
| IndexTrendAnalyzer.ThresholdWithinWindow | index_trend_analyzer.py:79-91 | the threshold lies between the lowest and the highest close of its window |
| IndexTrendAnalyzer.Collect | index_trend_analyzer.py:163-167 | the batch loop returns at most one record per entry |
| IndexTrendAnalyzer.CollectCount | index_trend_analyzer.py:163-167 | indices without enough bars are dropped: one record per entry with at least N bars |
| IndexTrendAnalyzer.CollectUnranked | index_trend_analyzer.py:130 | every record of the batch loop still has rank 0; ranks are given only after sorting |
| IndexTrendAnalyzer.CollectKeys | index_trend_analyzer.py:144-167 | after a batch, a code has a history entry iff it had one before or one of its entries was analysed |
| IndexTrendAnalyzer.CollectKeepsOthers | index_trend_analyzer.py:144-148 | a code that no entry names keeps its history entry |
| IndexTrendAnalyzer.RankLeIsPreorder | index_trend_analyzer.py:175 | the sort key `(status == 'NO', -deviation_rate)` is a total preorder |
| IndexTrendAnalyzer.RankingOrder | index_trend_analyzer.py:175 | the ranking is a permutation in which every YES precedes every NO, deviation does not increase within a status, and ties keep their input order |
| IndexTrendAnalyzer.NumberRanks | index_trend_analyzer.py:178-179 | the loop gives the record at position j the rank j+1 and changes nothing else |
| IndexTrendAnalyzer.WithStatus | index_trend_analyzer.py:189-190 | a record is listed iff it is an input record with the given status, and no more records than the input |
| IndexTrendAnalyzer.WithStatusCounts | index_trend_analyzer.py:189-190 | a record with the status is listed as many times as it occurs, so identical records are counted twice; the others not at all |
| IndexTrendAnalyzer.WithStatusAppend | index_trend_analyzer.py:189-190 | the filter of a concatenation is the concatenation of the filters, so input order is kept |
| IndexTrendAnalyzer.WithStatusOne | index_trend_analyzer.py:189-190 | a single record is kept iff it has the status |
| IndexTrendAnalyzer.StatusesPartition | index_trend_analyzer.py:189-190 | the YES count plus the NO count is the total |
| IndexTrendAnalyzer.TurnedOnMembers | index_trend_analyzer.py:196-208 | a name is listed iff some record with that status has that name and a change day equal to the given day |
| IndexTrendAnalyzer.TurnedOnCount | index_trend_analyzer.py:196-208 | a status never has more newly changed names than records |
| IndexTrendAnalyzer.NewlyChanged | index_trend_analyzer.py:193-208 | the loop appends each name to the list of its status exactly when its change day is today, giving both lists in result order |
| IndexTrendAnalyzer.TrendAnalyzer.constructor | index_trend_analyzer.py:23-47 | the history is the status file's contents, or empty when the file is missing or unreadable |
| IndexTrendAnalyzer.TrendAnalyzer.AnalyzeIndexTrend | index_trend_analyzer.py:59-150 | with too few bars, nothing is returned and nothing changes; otherwise the record is returned and only the analysed code's history entry is replaced |
| IndexTrendAnalyzer.TrendAnalyzer.AnalyzeEach | index_trend_analyzer.py:163-167 | the batch loop returns the records and leaves the history of the fold over the entries; the status file is not touched |
| IndexTrendAnalyzer.TrendAnalyzer.AnalyzeAllIndices | index_trend_analyzer.py:156-181 | the results are the analysable records in ranking order, ranked 1..n; the history is the batch's history; it is saved when the write succeeds |
| IndexTrendAnalyzer.TrendAnalyzer.GetStatusChangeSummary | index_trend_analyzer.py:183-216 | total = yes + no = number of results; the new-YES and new-NO lists name exactly the records of that status that changed today |
| TrendReporter.ChunksPartition | trend_reporter.py:284 | the slices join back to the report; there are ceil(len/2000) of them; each is non-empty and at most 2000 long; all but the last are exactly 2000 long |
| TrendReporter.Numbered | trend_reporter.py:285-287 | one message per part; message i starts with "【第i/n部分】\n", n the number of parts, and the text after that header is part i |
| TrendReporter.NumberedStrip | trend_reporter.py:285-287 | each message starts with its header, and removing the headers gives the parts back |
| TrendReporter.MessagesRecoverReport | trend_reporter.py:280-293 | a report that fits is one message without a header; a longer one becomes ceil(len/2000) messages; message i starts with "【第i/n部分】\n"; stripping the headers and joining gives the report back |
| TrendReporter.SummaryBlocks | trend_reporter.py:80-91 | the summary block appears iff a summary is given; the new-YES and new-NO lines appear iff their lists are non-empty |
| TrendReporter.EntriesOfEntryBlocks | trend_reporter.py:97-102 | the entry lines of a section list exactly its records, in order, under that section's status and under no other |
| TrendReporter.SimpleReportPartition | trend_reporter.py:93-114 | the YES section lists exactly the YES results, and the NO section exactly the NO results, each in input order |
| TrendReporter.SimpleReportSummary | trend_reporter.py:77-91 | the title comes first; the overview appears iff a summary is given; each new-status line appears iff its list is non-empty |
| TrendReporter.SummaryLinesOfReport | trend_reporter.py:77-91 | every summary block line is in the report, and every overview or new-status line of the report comes from the summary block |
| TrendReporter.SimpleReportHeadings | trend_reporter.py:94-108 | a section heading appears iff that section has results |
| TrendReporter.SimpleReportOrder | trend_reporter.py:93-114 | every YES entry precedes every NO entry |
| TrendReporter.StatusClass | trend_reporter.py:243 | the class is `status-yes` iff the status is YES, and `status-no` iff it is NO |
| TrendReporter.SignClass | trend_reporter.py:244-245 | the class is `positive` iff the value is >= 0, and `negative` iff it is < 0 |
| TrendReporter.Reporter.constructor | trend_reporter.py:15-16 | the reporter remembers whether it has a notifier, and nothing has been sent |
| TrendReporter.Reporter.GenerateSimpleReport | trend_reporter.py:68-116 | the text built with `+=` is the rendering of the title, summary, YES and NO blocks |
| TrendReporter.Reporter.AppendSummary | trend_reporter.py:80-91 | appending the summary adds exactly the rendering of the summary blocks |
| TrendReporter.Reporter.AppendSection | trend_reporter.py:94-114 | the heading, the entry loop and, for YES, the closing line add exactly the rendering of the section |
| TrendReporter.Reporter.SendWechatReport | trend_reporter.py:270-293 | without a notifier, nothing is sent; otherwise exactly the messages of the rendered simple report are sent, in order |
| TrendReporter.Reporter.SendParts | trend_reporter.py:285-287 | the part loop queues exactly the numbered messages, in order, after what was already queued |

## Left out

- HTTP requests and payload decoding are not modelled. This covers JSON, JSONP, CSV and the Sina `split('=')` unwrapping. Each provider's answer is an opaque function of `Quotes.Upstream`, and `None` stands for every request-level failure or caught exception.
- The gold adapter (`_fetch_from_wsj`) is an opaque answer, `Upstream.gold`.
- The Sina and Tencent Hong Kong adapters are opaque answers, `hkSina` and `hkTencent`. This covers their current-quote fallback and `_create_current_data_df`.
- The Tencent ETF adapter is an opaque answer, `etfTencent`.
- The generated Hang Seng Tech series (`_generate_synthetic_hk_data`) is an opaque answer, `hkSynthetic`, because it uses random numbers and weekday skipping.
- The Netease answer is the decoded row list. The model sorts it but does not filter it by date, because the date range is part of the request.
- Floating point is not modelled: prices and percentages are exact `real`s.
  - Cache modification times and the clock are exact `real` seconds, so float rounding in `time.time() - getmtime(...) < 3600` is not modelled.
  - `round(x, 2)` in the result record is not modelled, so the ranking sorts on the exact deviation rather than the rounded one.
  - The report's `str()`, `:.2f` and `:+.2f` formats are the opaque functions of `TrendReporter.Formatter`.
- IndexTrendAnalyzer.Percent: a zero base gives 0, where the source's float division gives an infinity or NaN.
- IndexTrendAnalyzer.TrendAnalyzer: the moving-average period is at least 1. pandas' behaviour for a window of 0 is not modelled.
- pandas' `sort_values` default quicksort is not stable. `Quotes.SortByDate` chooses the stable order, which pandas may also produce and must produce when trade dates are distinct.
- File I/O is abstracted:
  - the cache directory is a map from file name to contents (`None` when `read_csv` fails) and modification time;
  - the status history file is an `Option` field;
  - a failed write is the parameter `writeOk = false`;
  - logging is left out.
- The wall clock is a parameter: `today`, `now` (when the cache is read) and `written` (when it is written, after the providers answered). Yahoo timestamps arrive as trade dates. The `update_time` field of the result record is left out.
- IndexTrendAnalyzer.TrendAnalyzer.AnalyzeAllIndices: the data source call with the last 90 days is the parameter `fetch` from code to bars. `force_refresh` and the request dates are not modelled.
- `generate_text_report` (tabulate, ANSI colours) is not modelled. Of `generate_html_report`, only the CSS class choices are modelled, not the HTML template text.
- Notifier `start`, `stop` and `time.sleep` are not modelled. Nor are the exceptions caught around sending.
- `main_trend.py`, `web/server.py`, `market_data_source.py`, the configuration, and the diagnostic and test scripts are not part of this model.
