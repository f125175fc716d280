/** Calendar dates and the strftime layouts the program writes them in. */
module Calendar {
  import opened Text

  /** A calendar day, as `datetime.now()` or a parsed trade date gives it. */
  datatype Date = Date(year: nat, month: nat, day: nat)

  predicate ValidDate(d: Date) {
    1000 <= d.year <= 9999 && 1 <= d.month <= 12 && 1 <= d.day <= 31
  }

  /** Chronological order of dates (the order pandas sorts `trade_date` in). */
  predicate DateLe(a: Date, b: Date) {
    a.year < b.year
    || (a.year == b.year && a.month < b.month)
    || (a.year == b.year && a.month == b.month && a.day <= b.day)
  }

  /** `strftime('%Y-%m-%d')`, the layout of the requested start and end dates. */
  function IsoText(d: Date): string {
    NatText(d.year) + "-" + Pad2(d.month) + "-" + Pad2(d.day)
  }

  /** `end_date.replace('-', '')`, the date part of a quote cache file name. */
  function CompactText(d: Date): (r: string)
    ensures '-' !in r
  {
    NoDashes(IsoText(d));
    ReplaceAll(IsoText(d), "-", "")
  }

  lemma {:induction false} NoDashes(s: string)
    ensures '-' !in ReplaceAll(s, "-", "")
    decreases |s|
  {
    if |s| >= 1 {
      NoDashes(s[1..]);
    }
  }

  /** A leading dash is dropped and the scan goes on after it. */
  lemma DropDash(u: string)
    ensures ReplaceAll("-" + u, "-", "") == ReplaceAll(u, "-", "")
  {
    var s := "-" + u;
    assert s[..1] == "-" && s[1..] == u;
  }

  lemma DigitsHaveNoDash(s: string)
    requires forall i :: 0 <= i < |s| ==> IsDigit(s[i])
    ensures '-' !in s
  {
  }

  /** Removing the dashes of "y-m-d" from dash-free fields joins them. */
  lemma DashesRemoved(y: string, m: string, d: string)
    requires '-' !in y && '-' !in m && '-' !in d
    ensures ReplaceAll(y + ("-" + (m + ("-" + d))), "-", "") == y + m + d
  {
    ReplaceAllSkips(y, "-" + (m + ("-" + d)), "-", "");
    DropDash(m + ("-" + d));
    ReplaceAllSkips(m, "-" + d, "-", "");
    DropDash(d);
    ReplaceAllSkips(d, "", "-", "");
    assert d + "" == d;
    assert ReplaceAll("", "-", "") == "";
  }

  /** The cache key's date part is the year, month and day as four, two and
      two digits, with nothing between them. */
  lemma CompactPieces(d: Date)
    requires ValidDate(d)
    ensures CompactText(d) == NatText(d.year) + Pad2(d.month) + Pad2(d.day)
  {
    var y, pm, pd := NatText(d.year), Pad2(d.month), Pad2(d.day);
    Pad2Value(d.month);
    Pad2Value(d.day);
    DigitsHaveNoDash(y);
    DigitsHaveNoDash(pm);
    DigitsHaveNoDash(pd);
    assert IsoText(d) == y + ("-" + (pm + ("-" + pd)));
    DashesRemoved(y, pm, pd);
  }

  /** Reading the eight digits of the cache key's date part back gives the
      date. */
  lemma CompactDigits(d: Date)
    requires ValidDate(d)
    ensures var r := CompactText(d);
      && |r| == 8
      && DigitsValue(r[..4]) == d.year && DigitsValue(r[4..6]) == d.month && DigitsValue(r[6..]) == d.day
  {
    var y, pm, pd := NatText(d.year), Pad2(d.month), Pad2(d.day);
    CompactPieces(d);
    NatTextLength(d.year);
    NatTextValue(d.year);
    Pad2Value(d.month);
    Pad2Value(d.day);
    var r := y + pm + pd;
    assert r[..4] == y && r[4..6] == pm && r[6..] == pd;
  }

  /** Different valid end dates give different cache keys. */
  lemma CompactTextInjective(d: Date, e: Date)
    requires ValidDate(d) && ValidDate(e)
    ensures CompactText(d) == CompactText(e) ==> d == e
  {
    CompactDigits(d);
    CompactDigits(e);
  }

  /** `strftime('%Y.%m.%d')`. */
  function DottedText(d: Date): string {
    NatText(d.year) + "." + Pad2(d.month) + "." + Pad2(d.day)
  }

  /** `strftime('%Y.%m.%d').replace('.0', '.')`: how a status change time and
      "today" are written by the trend analyzer. */
  function ChangeTimeText(d: Date): string {
    ReplaceAll(DottedText(d), ".0", ".")
  }

  /** `strftime('%Y.%-m.%-d')`: the layout the analyzer falls back to when it
      stores a change time that was missing. */
  function UnpaddedText(d: Date): string {
    NatText(d.year) + "." + NatText(d.month) + "." + NatText(d.day)
  }

  lemma DigitsHaveNoDot(k: nat)
    ensures '.' !in NatText(k)
  {
  }

  /** A leading ".0" is replaced by "." and the scan goes on after it. */
  lemma ReplaceDotZero(u: string)
    ensures ReplaceAll(".0" + u, ".0", ".") == "." + ReplaceAll(u, ".0", ".")
  {
    var s := ".0" + u;
    assert s[..2] == ".0" && s[2..] == u;
  }

  /** A dot not followed by '0' is copied and the scan goes on after it. */
  lemma KeepDot(u: string)
    requires u == [] || u[0] != '0'
    ensures ReplaceAll("." + u, ".0", ".") == "." + ReplaceAll(u, ".0", ".")
  {
    var s := "." + u;
    assert s[1..] == u;
    if u != [] {
      assert s[..2] == ['.', u[0]];
      assert s[..2] != ".0" by {
        assert s[..2][1] != ".0"[1];
      }
    }
  }

  /** A dot, a padding zero, a number field and the rest: the zero is
      dropped and the scan goes on after the field. */
  lemma StripZero(n: string, t: string)
    requires '.' !in n
    ensures ReplaceAll("." + ("0" + n) + t, ".0", ".") == "." + n + ReplaceAll(t, ".0", ".")
  {
    var u := n + t;
    assert "." + ("0" + n) + t == ".0" + u;
    ReplaceDotZero(u);
    ReplaceAllSkips(n, t, ".0", ".");
  }

  /** A dot, an unpadded number field and the rest: nothing is dropped and
      the scan goes on after the field. */
  lemma KeepField(n: string, t: string)
    requires n != [] && n[0] != '0' && '.' !in n
    ensures ReplaceAll("." + n + t, ".0", ".") == "." + n + ReplaceAll(t, ".0", ".")
  {
    var u := n + t;
    assert "." + n + t == "." + u;
    KeepDot(u);
    ReplaceAllSkips(n, t, ".0", ".");
  }

  lemma StripPad(p: string, n: string, t: string)
    requires p == "0" + n || p == n
    requires n != [] && n[0] != '0' && '.' !in n
    ensures ReplaceAll("." + p + t, ".0", ".") == "." + n + ReplaceAll(t, ".0", ".")
  {
    if p == "0" + n {
      StripZero(n, t);
    } else {
      KeepField(n, t);
    }
  }

  lemma StripLast(p: string, n: string)
    requires p == "0" + n || p == n
    requires n != [] && n[0] != '0' && '.' !in n
    ensures ReplaceAll("." + p, ".0", ".") == "." + n
  {
    StripPad(p, n, "");
    assert "." + p + "" == "." + p;
    assert ReplaceAll("", ".0", ".") == "";
    assert "." + n + "" == "." + n;
  }

  lemma Regroup(y: string, a: string, b: string, c: string, e: string)
    ensures y + a + b + c + e == y + (a + b + (c + e))
  {
  }

  /** The padded dotted layout with ".0" stripped is the unpadded one. */
  lemma DottedToUnpadded(y: string, pm: string, m: string, pd: string, dd: string)
    requires '.' !in y
    requires pm == "0" + m || pm == m
    requires pd == "0" + dd || pd == dd
    requires m != [] && m[0] != '0' && '.' !in m
    requires dd != [] && dd[0] != '0' && '.' !in dd
    ensures ReplaceAll(y + "." + pm + "." + pd, ".0", ".") == y + "." + m + "." + dd
  {
    var tail := "." + pd;
    StripLast(pd, dd);
    StripPad(pm, m, tail);
    ReplaceAllSkips(y, "." + pm + tail, ".0", ".");
    Regroup(y, ".", pm, ".", pd);
    Regroup(y, ".", m, ".", dd);
  }

  /** Stripping ".0" from the zero-padded layout gives exactly the unpadded
      layout: the two ways the analyzer writes a change time agree, so a
      summary comparing against today's text finds both. */
  lemma ChangeTimeIsUnpadded(d: Date)
    requires ValidDate(d)
    ensures ChangeTimeText(d) == UnpaddedText(d)
  {
    DigitsHaveNoDot(d.year);
    DigitsHaveNoDot(d.month);
    DigitsHaveNoDot(d.day);
    DottedToUnpadded(NatText(d.year), Pad2(d.month), NatText(d.month), Pad2(d.day), NatText(d.day));
  }
}
