/** `TrendReporter` of `trend_reporter.py`: the simple report pushed to
    WeChat, its split into numbered parts of at most 2000 characters, and the
    CSS classes of the HTML report. */
module TrendReporter {
  import opened Wrappers
  import opened Text
  import opened Calendar
  import opened IndexTrendAnalyzer

  /** The WeChat message length limit. */
  const MaxLength: nat := 2000

  function Flatten(parts: seq<string>): string {
    if parts == [] then "" else parts[0] + Flatten(parts[1..])
  }

  /** `[s[i:i+max] for i in range(0, len(s), max)]`: consecutive slices of
      `max` characters, the last one possibly shorter. */
  function Chunks(s: string, max: nat): (parts: seq<string>)
    requires max >= 1
    decreases |s|
  {
    if s == [] then []
    else if |s| <= max then [s]
    else [s[..max]] + Chunks(s[max..], max)
  }

  /** Joining the slices gives the text back. */
  lemma {:induction false} ChunksFlatten(s: string, max: nat)
    requires max >= 1
    ensures Flatten(Chunks(s, max)) == s
    decreases |s|
  {
    if s != [] && |s| > max {
      var rest := Chunks(s[max..], max);
      ChunksFlatten(s[max..], max);
      assert ([s[..max]] + rest)[1..] == rest;
      assert s[..max] + s[max..] == s;
    }
  }

  /** There are ceil(|s| / max) slices. */
  lemma {:induction false} ChunksCount(s: string, max: nat)
    requires max >= 1
    ensures (|Chunks(s, max)| - 1) * max < |s| <= |Chunks(s, max)| * max
    decreases |s|
  {
    if s != [] && |s| > max {
      var rest := Chunks(s[max..], max);
      ChunksCount(s[max..], max);
      assert |Chunks(s, max)| == |rest| + 1;
      assert (|rest| + 1) * max == |rest| * max + max;
    }
  }

  /** Each slice is non-empty and at most `max` long; all but the last are
      exactly `max` long. */
  lemma {:induction false} ChunksSizes(s: string, max: nat)
    requires max >= 1
    ensures forall i :: 0 <= i < |Chunks(s, max)| ==> 1 <= |Chunks(s, max)[i]| <= max
    ensures forall i :: 0 <= i < |Chunks(s, max)| - 1 ==> |Chunks(s, max)[i]| == max
    decreases |s|
  {
    if s != [] && |s| > max {
      var rest := Chunks(s[max..], max);
      ChunksSizes(s[max..], max);
      var c := [s[..max]] + rest;
      assert forall i :: 1 <= i < |c| ==> c[i] == rest[i - 1];
    }
  }

  /** Joining the slices gives the text back; there are ceil(|s| / max) of
      them, each non-empty, and all but the last are exactly `max` long. */
  lemma ChunksPartition(s: string, max: nat)
    requires max >= 1
    ensures Flatten(Chunks(s, max)) == s
    ensures (|Chunks(s, max)| - 1) * max < |s| <= |Chunks(s, max)| * max
    ensures forall i :: 0 <= i < |Chunks(s, max)| ==> 1 <= |Chunks(s, max)[i]| <= max
    ensures forall i :: 0 <= i < |Chunks(s, max)| - 1 ==> |Chunks(s, max)[i]| == max
  {
    ChunksFlatten(s, max);
    ChunksCount(s, max);
    ChunksSizes(s, max);
  }

  /** The header of part `i` of `n`: 【第i/n部分】 and a line break. */
  function PartHeader(i: nat, n: nat): string {
    "【第" + NatText(i) + "/" + NatText(n) + "部分】\n"
  }

  /** Every part behind its header "part i of n": message i starts with the
      header of part i + 1 of n, and what follows the header is part i. */
  function Numbered(parts: seq<string>): (msgs: seq<string>)
    ensures |msgs| == |parts|
    ensures forall i :: 0 <= i < |parts| ==>
      && |PartHeader(i + 1, |parts|)| <= |msgs[i]|
      && msgs[i][..|PartHeader(i + 1, |parts|)|] == PartHeader(i + 1, |parts|)
      && msgs[i][|PartHeader(i + 1, |parts|)|..] == parts[i]
  {
    seq(|parts|, i requires 0 <= i < |parts| => PartHeader(i + 1, |parts|) + parts[i])
  }

  /** Each numbered message starts with its header, and cutting the headers
      off gives the parts back. */
  lemma NumberedStrip(parts: seq<string>)
    ensures var msgs := Numbered(parts);
      && (forall i :: 0 <= i < |msgs| ==>
            && |PartHeader(i + 1, |msgs|)| <= |msgs[i]|
            && msgs[i][..|PartHeader(i + 1, |msgs|)|] == PartHeader(i + 1, |msgs|))
      && seq(|msgs|, i requires 0 <= i < |msgs| => msgs[i][|PartHeader(i + 1, |msgs|)|..]) == parts
  {
  }

  /** The messages handed to the notifier for a report: the report itself
      when it fits, otherwise every slice behind its numbered header. */
  function Messages(report: string): (msgs: seq<string>)
  {
    if |report| > MaxLength then Numbered(Chunks(report, MaxLength)) else [report]
  }

  /** A report that fits is one message without a header; a longer one
      becomes ceil(len / 2000) messages of which message i carries the header
      "part i of n", and stripping the headers and joining the messages gives
      the report back. */
  lemma MessagesRecoverReport(report: string)
    ensures |report| <= MaxLength ==> Messages(report) == [report]
    ensures |report| > MaxLength ==>
      var msgs := Messages(report);
      && (|msgs| - 1) * MaxLength < |report| <= |msgs| * MaxLength
      && (forall i :: 0 <= i < |msgs| ==>
            && |PartHeader(i + 1, |msgs|)| <= |msgs[i]|
            && msgs[i][..|PartHeader(i + 1, |msgs|)|] == PartHeader(i + 1, |msgs|))
      && Flatten(seq(|msgs|, i requires 0 <= i < |msgs| => msgs[i][|PartHeader(i + 1, |msgs|)|..])) == report
  {
    if |report| > MaxLength {
      ChunksPartition(report, MaxLength);
      NumberedStrip(Chunks(report, MaxLength));
    }
  }

  /** The number formats of the report: `str()` of a price, `:.2f` and
      `:+.2f`. */
  datatype Formatter = Formatter(plain: real -> string, fixed2: real -> string, signed2: real -> string)

  /** The pieces of `generate_simple_report`, in the order they are
      appended. */
  datatype Block =
    | Title(day: Date)
    | Overview(total: nat, yesCount: nat, noCount: nat)
    | NewYesLine(names: seq<string>)
    | NewNoLine(names: seq<string>)
    | Rule
    | Heading(section: Status)
    | Entry(section: Status, record: TrendRecord)
    | SectionEnd

  function JoinWith(parts: seq<string>, sep: string): string {
    if parts == [] then ""
    else if |parts| == 1 then parts[0]
    else parts[0] + sep + JoinWith(parts[1..], sep)
  }

  function Repeat(c: char, n: nat): (r: string)
    ensures |r| == n
  {
    if n == 0 then "" else [c] + Repeat(c, n - 1)
  }

  /** The text each block appends to the report. */
  function BlockText(b: Block, fmt: Formatter): string {
    match b
    case Title(day) => "【鱼盆趋势模型 " + IsoText(day) + "】\n\n"
    case Overview(total, yesCount, noCount) =>
      "📊 市场概况\n" + "总计: " + NatText(total) + "个指数\n"
      + "趋势向上(YES): " + NatText(yesCount) + "个\n" + "趋势向下(NO): " + NatText(noCount) + "个\n"
    case NewYesLine(names) => "\n🔥 新转YES: " + JoinWith(names, ", ") + "\n"
    case NewNoLine(names) => "❄️ 新转NO: " + JoinWith(names, ", ") + "\n"
    case Rule => "\n" + Repeat('=', 30) + "\n\n"
    case Heading(section) => if section == Yes then "✅ 趋势向上(YES):\n" else "❌ 趋势向下(NO):\n"
    case Entry(section, r) =>
      "\n" + NatText(r.rank) + ". " + r.name + " (" + r.code + ")\n"
      + "   现价: " + fmt.plain(r.currentPrice) + ", 临界值: " + fmt.plain(r.threshold) + "\n"
      + "   偏离率: " + fmt.fixed2(r.deviationRate) + "%\n"
      + (if section == Yes then "   区间涨幅: " else "   区间跌幅: ") + fmt.signed2(r.intervalChangePct) + "%\n"
      + "   状态转变时间: " + r.changeTime + "\n"
    case SectionEnd => "\n"
  }

  /** The report text: the blocks' texts in order. */
  function Render(blocks: seq<Block>, fmt: Formatter): string {
    if blocks == [] then "" else BlockText(blocks[0], fmt) + Render(blocks[1..], fmt)
  }

  /** The new-YES line, present only when the list is non-empty. */
  function YesLines(s: StatusSummary): seq<Block> {
    if s.newYes != [] then [NewYesLine(s.newYes)] else []
  }

  /** The new-NO line, present only when the list is non-empty. */
  function NoLines(s: StatusSummary): seq<Block> {
    if s.newNo != [] then [NewNoLine(s.newNo)] else []
  }

  /** The summary block: shown only when a summary is given, with a new-YES
      or new-NO line only when that list is non-empty. */
  function SummaryBlocks(summary: Option<StatusSummary>): (r: seq<Block>)
    ensures summary.None? <==> r == []
    ensures summary.Some? ==> r[0] == Overview(summary.value.total, summary.value.yesCount, summary.value.noCount)
    ensures forall b :: b in r ==> b.Overview? || b.NewYesLine? || b.NewNoLine? || b.Rule?
    ensures (exists b :: b in r && b.NewYesLine?) <==> summary.Some? && summary.value.newYes != []
    ensures (exists b :: b in r && b.NewNoLine?) <==> summary.Some? && summary.value.newNo != []
  {
    match summary
    case None => []
    case Some(s) =>
      var r := [Overview(s.total, s.yesCount, s.noCount)] + YesLines(s) + NoLines(s) + [Rule];
      assert s.newYes != [] ==> r[1] == NewYesLine(s.newYes);
      assert s.newNo != [] ==> r[|r| - 2] == NewNoLine(s.newNo);
      r
  }

  function EntryBlocks(records: seq<TrendRecord>, s: Status): seq<Block> {
    seq(|records|, i requires 0 <= i < |records| => Entry(s, records[i]))
  }

  lemma EntryBlocksSnoc(records: seq<TrendRecord>, i: nat, s: Status)
    requires i < |records|
    ensures EntryBlocks(records[..i + 1], s) == EntryBlocks(records[..i], s) + [Entry(s, records[i])]
  {
  }

  /** One status section: nothing when no record has the status; otherwise
      its heading and one entry per record, the YES section closed by an empty
      line. */
  function Section(records: seq<TrendRecord>, s: Status): seq<Block> {
    if records == [] then []
    else [Heading(s)] + EntryBlocks(records, s) + (if s == Yes then [SectionEnd] else [])
  }

  /** `generate_simple_report` as blocks. */
  function SimpleReport(results: seq<TrendRecord>, summary: Option<StatusSummary>, today: Date): seq<Block> {
    [Title(today)] + SummaryBlocks(summary) + Section(WithStatus(results, Yes), Yes) + Section(WithStatus(results, No), No)
  }

  /** The records listed by the entries of a section, in order. */
  function Entries(blocks: seq<Block>, s: Status): seq<TrendRecord> {
    if blocks == [] then []
    else
      var init := Entries(blocks[..|blocks| - 1], s);
      var last := blocks[|blocks| - 1];
      if last.Entry? && last.section == s then init + [last.record] else init
  }

  lemma {:induction false} EntriesAppend(a: seq<Block>, b: seq<Block>, s: Status)
    ensures Entries(a + b, s) == Entries(a, s) + Entries(b, s)
    decreases |b|
  {
    if b != [] {
      var init := b[..|b| - 1];
      var ab := a + b;
      assert ab[..|ab| - 1] == a + init;
      assert ab[|ab| - 1] == b[|b| - 1];
      EntriesAppend(a, init, s);
    } else {
      assert a + b == a;
    }
  }

  lemma {:induction false} EntriesOfEntryBlocks(records: seq<TrendRecord>, s: Status, t: Status)
    ensures Entries(EntryBlocks(records, s), t) == if s == t then records else []
    decreases |records|
  {
    if records != [] {
      var init := records[..|records| - 1];
      assert EntryBlocks(records, s)[..|records| - 1] == EntryBlocks(init, s);
      EntriesOfEntryBlocks(init, s, t);
    }
  }

  lemma EntriesOfSection(records: seq<TrendRecord>, s: Status, t: Status)
    ensures Entries(Section(records, s), t) == if s == t then records else []
  {
    if records != [] {
      var head: seq<Block> := [Heading(s)];
      var tail: seq<Block> := if s == Yes then [SectionEnd] else [];
      var body := EntryBlocks(records, s);
      assert Section(records, s) == head + body + tail;
      EntriesAppend(head, body, t);
      EntriesAppend(head + body, tail, t);
      EntriesOfEntryBlocks(records, s, t);
      EntriesWithout(head, t);
      EntriesWithout(tail, t);
    }
  }

  lemma {:induction false} EntriesWithout(blocks: seq<Block>, t: Status)
    requires forall b :: b in blocks ==> !b.Entry?
    ensures Entries(blocks, t) == []
    decreases |blocks|
  {
    if blocks != [] {
      EntriesWithout(blocks[..|blocks| - 1], t);
    }
  }

  /** Entries of a report whose head lists none come from its two sections. */
  lemma EntriesAfterHead(head: seq<Block>, yes: seq<Block>, no: seq<Block>, t: Status)
    requires Entries(head, t) == []
    ensures Entries(head + yes + no, t) == Entries(yes, t) + Entries(no, t)
  {
    EntriesAppend(head, yes, t);
    EntriesAppend(head + yes, no, t);
    assert [] + Entries(yes, t) == Entries(yes, t);
  }

  /** The YES section lists exactly the YES results and the NO section
      exactly the NO results, each in input order. */
  lemma SimpleReportPartition(results: seq<TrendRecord>, summary: Option<StatusSummary>, today: Date, t: Status)
    ensures Entries(SimpleReport(results, summary, today), t) == WithStatus(results, t)
  {
    var head := [Title(today)] + SummaryBlocks(summary);
    var yes := Section(WithStatus(results, Yes), Yes);
    var no := Section(WithStatus(results, No), No);
    assert SimpleReport(results, summary, today) == head + yes + no;
    assert forall b :: b in head ==> b == Title(today) || b in SummaryBlocks(summary);
    EntriesWithout(head, t);
    EntriesAfterHead(head, yes, no, t);
    EntriesOfSection(WithStatus(results, Yes), Yes, t);
    EntriesOfSection(WithStatus(results, No), No, t);
    if t == Yes {
      assert Entries(yes, t) + [] == Entries(yes, t);
    } else {
      assert [] + Entries(no, t) == Entries(no, t);
    }
  }

  lemma SectionKinds(records: seq<TrendRecord>, s: Status)
    ensures forall b :: b in Section(records, s) ==>
      (b.Heading? && b.section == s) || (b.Entry? && b.section == s) || b.SectionEnd?
    ensures Heading(s) in Section(records, s) <==> records != []
  {
    if records != [] {
      assert Section(records, s)[0] == Heading(s);
    }
  }

  /** The head of the simple report: the title first, the overview only with
      a summary, a new-YES or new-NO line only when that list is non-empty. */
  lemma SimpleReportSummary(results: seq<TrendRecord>, summary: Option<StatusSummary>, today: Date)
    ensures var r := SimpleReport(results, summary, today);
      && r[0] == Title(today)
      && ((exists b :: b in r && b.Overview?) <==> summary.Some?)
      && ((exists b :: b in r && b.NewYesLine?) <==> summary.Some? && summary.value.newYes != [])
      && ((exists b :: b in r && b.NewNoLine?) <==> summary.Some? && summary.value.newNo != [])
  {
    var r := SimpleReport(results, summary, today);
    var head := SummaryBlocks(summary);
    SummaryLinesOfReport(results, summary, today);
    if summary.Some? {
      assert head[0] in head;
    }
  }

  /** The overview and new-status lines of the simple report are those of
      its summary block. */
  lemma SummaryLinesOfReport(results: seq<TrendRecord>, summary: Option<StatusSummary>, today: Date)
    ensures var r := SimpleReport(results, summary, today);
      && r[0] == Title(today)
      && (forall b :: b in SummaryBlocks(summary) ==> b in r)
      && (forall b :: b in r && (b.Overview? || b.NewYesLine? || b.NewNoLine?) ==> b in SummaryBlocks(summary))
  {
    var head := [Title(today)] + SummaryBlocks(summary);
    var yes := Section(WithStatus(results, Yes), Yes);
    var no := Section(WithStatus(results, No), No);
    SectionKinds(WithStatus(results, Yes), Yes);
    SectionKinds(WithStatus(results, No), No);
    assert SimpleReport(results, summary, today) == head + yes + no;
  }

  /** A section heading appears only when the section has records. */
  lemma SimpleReportHeadings(results: seq<TrendRecord>, summary: Option<StatusSummary>, today: Date)
    ensures var r := SimpleReport(results, summary, today);
      && (Heading(Yes) in r <==> WithStatus(results, Yes) != [])
      && (Heading(No) in r <==> WithStatus(results, No) != [])
  {
    var yes := Section(WithStatus(results, Yes), Yes);
    var no := Section(WithStatus(results, No), No);
    var head := [Title(today)] + SummaryBlocks(summary);
    assert SimpleReport(results, summary, today) == head + yes + no;
    assert Heading(Yes) !in head && Heading(No) !in head by {
      assert forall b :: b in head ==> !b.Heading?;
    }
    SectionHeading(WithStatus(results, Yes), Yes, Yes);
    SectionHeading(WithStatus(results, Yes), Yes, No);
    SectionHeading(WithStatus(results, No), No, Yes);
    SectionHeading(WithStatus(results, No), No, No);
  }

  /** A section has a heading only for its own status, and only when it has
      records. */
  lemma SectionHeading(records: seq<TrendRecord>, s: Status, t: Status)
    ensures Heading(t) in Section(records, s) <==> t == s && records != []
  {
    SectionKinds(records, s);
  }

  /** Every YES entry of the simple report comes before every NO entry. */
  lemma SimpleReportOrder(results: seq<TrendRecord>, summary: Option<StatusSummary>, today: Date)
    ensures var r := SimpleReport(results, summary, today);
      forall i, j :: 0 <= i < |r| && 0 <= j < |r| && r[i].Entry? && r[i].section.Yes? && r[j].Entry? && r[j].section.No? ==> i < j
  {
    var head := [Title(today)] + SummaryBlocks(summary);
    var yes := Section(WithStatus(results, Yes), Yes);
    var no := Section(WithStatus(results, No), No);
    var r := head + yes + no;
    assert SimpleReport(results, summary, today) == r;
    assert forall k :: 0 <= k < |head| ==> !head[k].Entry? by {
      assert forall b :: b in head ==> !b.Entry?;
    }
    SectionEntryKinds(WithStatus(results, Yes), Yes);
    SectionEntryKinds(WithStatus(results, No), No);
    EntriesInOrder(head, yes, no);
  }

  /** Blocks without entries, then blocks whose entries are all YES, then
      blocks whose entries are all NO: every YES entry precedes every NO
      entry. */
  lemma EntriesInOrder(head: seq<Block>, yes: seq<Block>, no: seq<Block>)
    requires forall k :: 0 <= k < |head| ==> !head[k].Entry?
    requires forall k :: 0 <= k < |yes| && yes[k].Entry? ==> yes[k].section == Yes
    requires forall k :: 0 <= k < |no| && no[k].Entry? ==> no[k].section == No
    ensures var r := head + yes + no;
      forall i, j :: 0 <= i < |r| && 0 <= j < |r| && r[i].Entry? && r[i].section.Yes? && r[j].Entry? && r[j].section.No? ==> i < j
  {
    var r := head + yes + no;
    assert forall k :: 0 <= k < |head| ==> r[k] == head[k];
    assert forall k :: |head| <= k < |head| + |yes| ==> r[k] == yes[k - |head|];
    assert forall k :: |head| + |yes| <= k < |r| ==> r[k] == no[k - |head| - |yes|];
  }

  /** Every entry of a section is of that section's status. */
  lemma SectionEntryKinds(records: seq<TrendRecord>, s: Status)
    ensures var sec := Section(records, s);
      forall k :: 0 <= k < |sec| && sec[k].Entry? ==> sec[k].section == s
  {
    var sec := Section(records, s);
    SectionKinds(records, s);
    forall k | 0 <= k < |sec| && sec[k].Entry?
      ensures sec[k].section == s
    {
      assert sec[k] in sec;
    }
  }

  lemma {:induction false} RenderSnoc(blocks: seq<Block>, b: Block, fmt: Formatter)
    ensures Render(blocks + [b], fmt) == Render(blocks, fmt) + BlockText(b, fmt)
    decreases |blocks|
  {
    if blocks != [] {
      var all := blocks + [b];
      assert all[0] == blocks[0] && all[1..] == blocks[1..] + [b];
      RenderSnoc(blocks[1..], b, fmt);
      AppendAssoc(BlockText(blocks[0], fmt), Render(blocks[1..], fmt), BlockText(b, fmt));
    } else {
      assert blocks + [b] == [b];
      assert Render([b], fmt) == BlockText(b, fmt) + "";
    }
  }

  lemma AppendAssoc(a: string, b: string, c: string)
    ensures a + b + c == a + (b + c)
  {
  }

  lemma {:induction false} RenderAppend(a: seq<Block>, b: seq<Block>, fmt: Formatter)
    ensures Render(a + b, fmt) == Render(a, fmt) + Render(b, fmt)
    decreases |a|
  {
    if a != [] {
      var all := a + b;
      assert all[0] == a[0] && all[1..] == a[1..] + b;
      RenderAppend(a[1..], b, fmt);
      AppendAssoc(BlockText(a[0], fmt), Render(a[1..], fmt), Render(b, fmt));
    } else {
      assert a + b == b;
    }
  }

  /** The text of the entries of a section, entry by entry. */
  function EntriesText(records: seq<TrendRecord>, s: Status, fmt: Formatter): string {
    if records == [] then ""
    else EntriesText(records[..|records| - 1], s, fmt) + BlockText(Entry(s, records[|records| - 1]), fmt)
  }

  lemma {:induction false} RenderEntries(records: seq<TrendRecord>, s: Status, fmt: Formatter)
    ensures Render(EntryBlocks(records, s), fmt) == EntriesText(records, s, fmt)
    decreases |records|
  {
    if records != [] {
      var init := records[..|records| - 1];
      RenderEntries(init, s, fmt);
      EntryBlocksSnoc(records, |records| - 1, s);
      assert records[..|records|] == records;
      RenderSnoc(EntryBlocks(init, s), Entry(s, records[|records| - 1]), fmt);
    } else {
      assert EntryBlocks(records, s) == [];
    }
  }

  lemma RenderSection(records: seq<TrendRecord>, s: Status, fmt: Formatter)
    requires records != []
    ensures Render(Section(records, s), fmt) ==
      BlockText(Heading(s), fmt) + EntriesText(records, s, fmt) + (if s == Yes then BlockText(SectionEnd, fmt) else "")
  {
    var tail: seq<Block> := if s == Yes then [SectionEnd] else [];
    RenderAppend([Heading(s)], EntryBlocks(records, s), fmt);
    RenderAppend([Heading(s)] + EntryBlocks(records, s), tail, fmt);
    RenderEntries(records, s, fmt);
    assert Render([Heading(s)], fmt) == BlockText(Heading(s), fmt) by {
      assert [Heading(s)][1..] == [];
    }
    if s == Yes {
      assert Render(tail, fmt) == BlockText(SectionEnd, fmt) by {
        assert tail[1..] == [];
      }
    }
  }

  /** `'status-yes'` exactly for a YES row, `'status-no'` otherwise. */
  function StatusClass(s: Status): (c: string)
    ensures c == "status-yes" <==> s.Yes?
    ensures c == "status-no" <==> s.No?
  {
    if s == Yes then "status-yes" else "status-no"
  }

  /** `'positive'` exactly for a value at or above zero, `'negative'`
      otherwise. */
  function SignClass(x: real): (c: string)
    ensures c == "positive" <==> x >= 0.0
    ensures c == "negative" <==> x < 0.0
  {
    if x >= 0.0 then "positive" else "negative"
  }

  /** The reporter; `outbox` holds the messages handed to the notifier's
      `add_message`, in order. */
  class Reporter {
    const hasNotifier: bool
    var outbox: seq<string>

    constructor (hasNotifier: bool)
      ensures this.hasNotifier == hasNotifier && outbox == []
    {
      this.hasNotifier := hasNotifier;
      outbox := [];
    }

    /** `generate_simple_report`, appending to the report text piece by
        piece. */
    method GenerateSimpleReport(results: seq<TrendRecord>, summary: Option<StatusSummary>, today: Date, fmt: Formatter)
      returns (report: string)
      ensures report == Render(SimpleReport(results, summary, today), fmt)
    {
      report := BlockText(Title(today), fmt);
      report := AppendSummary(report, summary, fmt);
      var yes := WithStatus(results, Yes);
      var no := WithStatus(results, No);
      report := AppendSection(report, yes, Yes, fmt);
      report := AppendSection(report, no, No, fmt);
      var head := [Title(today)] + SummaryBlocks(summary);
      assert Render([Title(today)], fmt) == BlockText(Title(today), fmt) by {
        assert [Title(today)][1..] == [];
      }
      RenderAppend([Title(today)], SummaryBlocks(summary), fmt);
      RenderAppend(head, Section(yes, Yes), fmt);
      RenderAppend(head + Section(yes, Yes), Section(no, No), fmt);
    }

    /** The summary part of `generate_simple_report`. */
    method AppendSummary(report: string, summary: Option<StatusSummary>, fmt: Formatter) returns (report': string)
      ensures report' == report + Render(SummaryBlocks(summary), fmt)
    {
      if summary.None? {
        assert report + Render(SummaryBlocks(summary), fmt) == report + "";
        return report;
      }
      var s := summary.value;
      ghost var shown: seq<Block> := [];
      report' := report;
      assert report' == report + Render(shown, fmt);
      report', shown := AppendBlock(report, report', shown, Overview(s.total, s.yesCount, s.noCount), fmt);
      if s.newYes != [] {
        report', shown := AppendBlock(report, report', shown, NewYesLine(s.newYes), fmt);
      }
      assert shown == [Overview(s.total, s.yesCount, s.noCount)] + YesLines(s);
      if s.newNo != [] {
        report', shown := AppendBlock(report, report', shown, NewNoLine(s.newNo), fmt);
      }
      assert shown == [Overview(s.total, s.yesCount, s.noCount)] + YesLines(s) + NoLines(s);
      report', shown := AppendBlock(report, report', shown, Rule, fmt);
    }

    /** One `report += ...` of a block. */
    method AppendBlock(base: string, report: string, ghost shown: seq<Block>, b: Block, fmt: Formatter)
      returns (report': string, ghost shown': seq<Block>)
      requires report == base + Render(shown, fmt)
      ensures shown' == shown + [b]
      ensures report' == base + Render(shown', fmt)
    {
      var piece := BlockText(b, fmt);
      RenderSnoc(shown, b, fmt);
      AppendAssoc(base, Render(shown, fmt), piece);
      report' := report + piece;
      shown' := shown + [b];
    }

    /** One status section of `generate_simple_report`: the heading, the
        entry loop and, for YES, the closing empty line. */
    method AppendSection(report: string, records: seq<TrendRecord>, s: Status, fmt: Formatter) returns (report': string)
      ensures report' == report + Render(Section(records, s), fmt)
    {
      if records == [] {
        assert report + Render(Section(records, s), fmt) == report + "";
        return report;
      }
      var heading := BlockText(Heading(s), fmt);
      report' := report + heading;
      for i := 0 to |records|
        invariant report' == report + heading + EntriesText(records[..i], s, fmt)
      {
        assert records[..i + 1][..i] == records[..i];
        ghost var done := EntriesText(records[..i], s, fmt);
        var entry := BlockText(Entry(s, records[i]), fmt);
        assert EntriesText(records[..i + 1], s, fmt) == done + entry;
        AppendAssoc(report + heading, done, entry);
        report' := report' + entry;
      }
      assert records[..|records|] == records;
      ghost var entries := EntriesText(records, s, fmt);
      AppendAssoc(report, heading, entries);
      if s == Yes {
        var end := BlockText(SectionEnd, fmt);
        AppendAssoc(report, heading + entries, end);
        report' := report' + end;
      } else {
        assert heading + entries + "" == heading + entries;
      }
      RenderSection(records, s, fmt);
    }

    /** `send_wechat_report`: nothing without a notifier; otherwise the simple
        report goes out as the messages `Messages` describes. */
    method SendWechatReport(results: seq<TrendRecord>, summary: Option<StatusSummary>, today: Date, fmt: Formatter)
      modifies this
      ensures outbox == old(outbox) + if hasNotifier then Messages(Render(SimpleReport(results, summary, today), fmt)) else []
    {
      if !hasNotifier {
        return;
      }
      var report := GenerateSimpleReport(results, summary, today, fmt);
      if |report| > MaxLength {
        SendParts(Chunks(report, MaxLength));
      } else {
        outbox := outbox + [report];
      }
    }

    /** The part loop of `send_wechat_report`: every part behind its
        numbered header, in order. */
    method SendParts(parts: seq<string>)
      modifies this
      ensures outbox == old(outbox) + Numbered(parts)
    {
      ghost var msgs := Numbered(parts);
      for i := 0 to |parts|
        invariant outbox == old(outbox) + msgs[..i]
      {
        assert msgs[..i + 1] == msgs[..i] + [msgs[i]];
        outbox := outbox + [PartHeader(i + 1, |parts|) + parts[i]];
      }
      assert msgs[..|parts|] == msgs;
    }
  }
}
