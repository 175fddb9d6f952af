/** The view logic of the dashboard screen: the status steps of the live
    boards, the live-board filters, the Stock tab's search and sort, the
    figures shown per tab, the stock CSV export and the pallet and pick
    lists of the vehicle modal. Every list here is data the screen was
    given; nothing is changed in place except the export's row buffer. */
module Dashboard {
  import opened Wrappers
  import opened JsText
  import opened JsDate
  import opened Rows
  import opened Seqs
  import opened Aggregate
  import opened App
  import opened Csv

  // ---------------------------------------------------------------------------
  // Status steps

  /** `String(val).toLowerCase().trim()`; an absent value prints as
      "undefined". */
  function StatusText(val: Option<string>): string {
    Trim(ToLower(JsString(val)))
  }

  /** `isActive`: a step is done unless its cell reads as one of the
      "not done" words. */
  predicate IsActive(val: Option<string>) {
    var s := StatusText(val);
    s != "" && s != "false" && s != "n/a" && s != "unchecked" && s != "-" && s != "0"
  }

  /** Whether a step is done does not depend on the case of its cell. */
  lemma IsActiveIgnoresCase(s: string)
    ensures IsActive(Some(ToUpper(s))) == IsActive(Some(s))
  {
    LowerOfUpper(s);
  }

  /** A missing cell reads as "undefined", which counts as done. */
  lemma IsActiveMissing()
    ensures IsActive(None)
  {
    MissingStatus();
    assert StatusText(None)[2] == 'd';
  }

  lemma MissingStatus()
    ensures StatusText(None) == "undefined"
  {
    assert JsString(None) == "undefined";
    LowerOfLower("undefined");
    TrimNoSpace("undefined");
  }

  /** Text without upper-case letters is its own lower case. */
  lemma LowerOfLower(s: string)
    requires forall i :: 0 <= i < |s| ==> !IsUpper(s[i])
    ensures ToLower(s) == s
  {
  }

  /** `showLine` of a `StatusItem`. */
  predicate ShowLine(active: Option<string>, previousActive: Option<string>, isFirst: bool) {
    !isFirst && IsActive(previousActive) && IsActive(active)
  }

  /** The step columns of the inward board. */
  const InwardSteps: seq<string> :=
    ["Vehicle Arrived", "Vehicle Docked", "Unloading in Progress", "Unloading Completed", "Putaway Completed", "GRN Issued"]

  /** The step columns of the outbound board. */
  const OutboundSteps: seq<string> :=
    ["Order Created", "Picklist Generated", "Picking In-Progress", "Picking Completed", "Loading In-Progress", "Dispatched"]

  /** The connecting lines along one board row: the first step gets no
      `previousActive` and is marked `isFirst`. */
  function StepLines(row: Row, steps: seq<string>): (r: seq<bool>)
    ensures |r| == |steps|
    ensures forall i :: 0 <= i < |steps| ==>
      (r[i] <==> i > 0 && IsActive(Lookup(row, steps[i - 1])) && IsActive(Lookup(row, steps[i])))
  {
    seq(|steps|, i requires 0 <= i < |steps| =>
      ShowLine(Lookup(row, steps[i]), if i == 0 then None else Lookup(row, steps[i - 1]), i == 0))
  }

  // ---------------------------------------------------------------------------
  // normalizeSheetDate

  /** `normalizeSheetDate`: the sheet date rebuilt as `y-mm-dd` text, month
      and day padded to two characters; in day-month-year order a year field
      of two characters gets the prefix "20". Null on empty text or when the
      date token does not have three fields. */
  function NormalizeSheetDate(dateStr: string): (r: Option<string>)
    ensures r.None? <==> dateStr == "" || |DatePieces(dateStr)| != 3
  {
    if dateStr == "" then None
    else
      var parts := DatePieces(dateStr);
      if |parts| != 3 then None
      else if |parts[0]| == 4 then
        Some(parts[0] + "-" + PadStart(parts[1], 2) + "-" + PadStart(parts[2], 2))
      else
        var y := if |parts[2]| == 2 then "20" + parts[2] else parts[2];
        Some(y + "-" + PadStart(parts[1], 2) + "-" + PadStart(parts[0], 2))
  }

  /** Padding a digit string keeps it a digit string of the same value. */
  lemma PadDigits(s: string, n: nat)
    requires AllDigits(s)
    ensures AllDigits(PadStart(s, n)) && JsNumber(PadStart(s, n)) == JsNumber(s)
  {
    var p := PadStart(s, n);
    var z := p[..|p| - |s|];
    assert p == z + s;
    DigitsLeadingZeros(z, s);
    if s != [] {
      NumberOfDigits(s);
      NumberOfDigits(p);
    } else if p != [] {
      DigitsZeros(p);
      NumberOfDigits(p);
    }
  }

  /** "20" before two digits reads as 2000 more than the two digits. */
  lemma CenturyPrefix(e: string)
    requires |e| == 2 && AllDigits(e)
    ensures AllDigits("20" + e) && JsNumber("20" + e) == Some(2000 + DigitsValue(e))
  {
    CenturyValue(e);
    NumberOfDigits("20" + e);
  }

  lemma CenturyValue(e: string)
    requires |e| == 2 && AllDigits(e)
    ensures AllDigits("20" + e) && DigitsValue("20" + e) == 2000 + DigitsValue(e)
  {
    var t := "20" + e;
    var u := t[1..];
    assert u == "0" + e && u[1..] == e;
    DigitsSplitFirst(t);
    DigitsSplitFirst(u);
  }

  /** `normalizeSheetDate` on three digit fields joined by separators. */
  lemma NormalizeOfDigits(a: string, c1: char, b: string, c2: char, e: string)
    requires a != [] && e != [] && AllDigits(a) && AllDigits(b) && AllDigits(e)
    requires c1 in DateSeparators && c2 in DateSeparators
    ensures NormalizeSheetDate(a + [c1] + b + [c2] + e) ==
      if |a| == 4 then Some(a + "-" + PadStart(b, 2) + "-" + PadStart(e, 2))
      else Some((if |e| == 2 then "20" + e else e) + "-" + PadStart(b, 2) + "-" + PadStart(a, 2))
  {
    DateTokenOfDigits(a, c1, b, c2, e);
  }

  /** Year-month-day fields: both readings give the date of the fields. */
  lemma NormalizeAgreesYmd(a: string, c1: char, b: string, c2: char, e: string)
    requires |a| == 4 && e != [] && AllDigits(a) && AllDigits(b) && AllDigits(e)
    requires c1 in DateSeparators && c2 in DateSeparators
    ensures var text := a + [c1] + b + [c2] + e;
      NormalizeSheetDate(text).Some? && ParseInputDate(NormalizeSheetDate(text).value) == ParseSheetDate(text)
  {
    NormalizeOfDigits(a, c1, b, c2, e);
    SheetDateOfDigits(a, c1, b, c2, e);
    PadDigits(b, 2);
    PadDigits(e, 2);
    var pb, pe := PadStart(b, 2), PadStart(e, 2);
    assert a + "-" + pb + "-" + pe == a + ['-'] + pb + ['-'] + pe;
    InputDateOfDigits(a, pb, pe);
  }

  /** Day-month-year fields with a two-character year: both readings give
      the date of the fields in the 2000s. */
  lemma NormalizeAgreesCentury(a: string, c1: char, b: string, c2: char, e: string)
    requires a != [] && |a| != 4 && |e| == 2 && AllDigits(a) && AllDigits(b) && AllDigits(e)
    requires c1 in DateSeparators && c2 in DateSeparators
    ensures var text := a + [c1] + b + [c2] + e;
      NormalizeSheetDate(text).Some? && ParseInputDate(NormalizeSheetDate(text).value) == ParseSheetDate(text)
  {
    NormalizeOfDigits(a, c1, b, c2, e);
    SheetDateOfDigits(a, c1, b, c2, e);
    NumberOfDigits(e);
    CenturyPrefix(e);
    DmyFieldsRead("20" + e, b, a);
  }

  /** Day-month-year fields with a year of another width. */
  lemma NormalizeAgreesDmy(a: string, c1: char, b: string, c2: char, e: string)
    requires a != [] && |a| != 4 && e != [] && |e| != 2 && AllDigits(a) && AllDigits(b) && AllDigits(e)
    requires c1 in DateSeparators && c2 in DateSeparators
    ensures var text := a + [c1] + b + [c2] + e;
      NormalizeSheetDate(text).Some? && ParseInputDate(NormalizeSheetDate(text).value) == ParseSheetDate(text)
  {
    NormalizeOfDigits(a, c1, b, c2, e);
    SheetDateOfDigits(a, c1, b, c2, e);
    DmyFieldsRead(e, b, a);
  }

  /** The picker reads `y-mm-dd` built from day-month-year digit fields. */
  lemma DmyFieldsRead(y: string, b: string, a: string)
    requires y != [] && a != [] && AllDigits(y) && AllDigits(b) && AllDigits(a)
    ensures ParseInputDate(y + "-" + PadStart(b, 2) + "-" + PadStart(a, 2))
      == DateFromNumbers(JsNumber(y), JsNumber(b), JsNumber(a))
  {
    PadDigits(b, 2);
    PadDigits(a, 2);
    var pb, pa := PadStart(b, 2), PadStart(a, 2);
    assert y + "-" + pb + "-" + pa == y + ['-'] + pb + ['-'] + pa;
    InputDateOfDigits(y, pb, pa);
  }

  /** On three digit fields the rebuilt text parses, as the picker's value,
      to the date the sheet parser reads: `normalizeSheetDate` and the
      corrected `parseSheetDate` agree. */
  lemma NormalizeAgreesWithParse(a: string, c1: char, b: string, c2: char, e: string)
    requires a != [] && e != [] && AllDigits(a) && AllDigits(b) && AllDigits(e)
    requires c1 in DateSeparators && c2 in DateSeparators
    ensures var text := a + [c1] + b + [c2] + e;
      NormalizeSheetDate(text).Some? && ParseInputDate(NormalizeSheetDate(text).value) == ParseSheetDate(text)
  {
    if |a| == 4 {
      NormalizeAgreesYmd(a, c1, b, c2, e);
    } else if |e| == 2 {
      NormalizeAgreesCentury(a, c1, b, c2, e);
    } else {
      NormalizeAgreesDmy(a, c1, b, c2, e);
    }
  }

  /** Equal-length digit strings of equal value are equal. */
  lemma DigitsInjective(a: string, b: string)
    requires |a| == |b| && AllDigits(a) && AllDigits(b) && DigitsValue(a) == DigitsValue(b)
    ensures a == b
  {
    StrLeDigits(a, b);
    StrLeDigits(b, a);
    StrLeAntisymmetric(a, b);
  }

  /** Two-character digit fields compare as text exactly as they compare
      as numbers. */
  lemma FieldOrder(m1: string, m2: string)
    requires |m1| == |m2| && AllDigits(m1) && AllDigits(m2)
    ensures StrLe(m1, m2) <==> DigitsValue(m1) <= DigitsValue(m2)
    ensures m1 == m2 <==> DigitsValue(m1) == DigitsValue(m2)
  {
    StrLeDigits(m1, m2);
    if DigitsValue(m1) == DigitsValue(m2) { DigitsInjective(m1, m2); }
  }

  /** The `-mm-dd` tail of a `yyyy-mm-dd` text. */
  function MonthDayText(m: string, d: string): string {
    "-" + (m + ("-" + d))
  }

  /** `-mm-dd` tails of equal-width fields compare as (month, day) pairs. */
  lemma MonthDayTextOrder(m1: string, d1: string, m2: string, d2: string, month1: int, day1: int, month2: int, day2: int)
    requires |m1| == |m2| && |d1| == |d2|
    requires AllDigits(m1) && AllDigits(d1) && AllDigits(m2) && AllDigits(d2)
    requires month1 == DigitsValue(m1) && day1 == DigitsValue(d1) && month2 == DigitsValue(m2) && day2 == DigitsValue(d2)
    ensures StrLe(MonthDayText(m1, d1), MonthDayText(m2, d2)) <==> month1 < month2 || (month1 == month2 && day1 <= day2)
  {
    var t1, t2 := "-" + d1, "-" + d2;
    DashFieldOrder(d1, d2);
    FieldThenTail(m1, t1, m2, t2, day1 <= day2);
    SameHead("-", m1 + t1, m2 + t2);
  }

  /** Equal-width digit fields decide first; the tails decide between equal
      fields. */
  lemma FieldThenTail(m1: string, t1: string, m2: string, t2: string, tailLe: bool)
    requires |m1| == |m2| && AllDigits(m1) && AllDigits(m2)
    requires StrLe(t1, t2) <==> tailLe
    ensures StrLe(m1 + t1, m2 + t2) <==>
      DigitsValue(m1) < DigitsValue(m2) || (DigitsValue(m1) == DigitsValue(m2) && tailLe)
  {
    StrLeConcat(m1, t1, m2, t2);
    FieldOrder(m1, m2);
  }

  /** A common head does not change the order of two texts. */
  lemma SameHead(h: string, a: string, b: string)
    ensures StrLe(h + a, h + b) <==> StrLe(a, b)
  {
    StrLeConcat(h, a, h, b);
  }

  /** `-dd` tails of equal-width fields compare as their numbers. */
  lemma DashFieldOrder(d1: string, d2: string)
    requires |d1| == |d2| && AllDigits(d1) && AllDigits(d2)
    ensures StrLe("-" + d1, "-" + d2) <==> DigitsValue(d1) <= DigitsValue(d2)
  {
    SameHead("-", d1, d2);
    FieldOrder(d1, d2);
  }

  /** Equal-width years decide first; the tails decide between equal years. */
  lemma YearFirst(y1: string, t1: string, y2: string, t2: string, m1: int, d1: int, m2: int, d2: int)
    requires |y1| == |y2| && AllDigits(y1) && AllDigits(y2)
    requires StrLe(t1, t2) <==> m1 < m2 || (m1 == m2 && d1 <= d2)
    ensures StrLe(y1 + t1, y2 + t2) <==> DateLe(DigitsValue(y1), m1, d1, DigitsValue(y2), m2, d2)
  {
    StrLeConcat(y1, t1, y2, t2);
    FieldOrder(y1, y2);
  }

  /** `x >= y` on `yyyy-mm-dd` texts is date order: string comparison of
      fixed-width digit fields compares year, then month, then day. */
  lemma IsoTextOrder(y1: string, m1: string, d1: string, y2: string, m2: string, d2: string,
                     month1: int, day1: int, month2: int, day2: int)
    requires |y1| == |y2| && |m1| == |m2| && |d1| == |d2|
    requires AllDigits(y1) && AllDigits(m1) && AllDigits(d1) && AllDigits(y2) && AllDigits(m2) && AllDigits(d2)
    requires month1 == DigitsValue(m1) && day1 == DigitsValue(d1) && month2 == DigitsValue(m2) && day2 == DigitsValue(d2)
    ensures StrLe(y1 + MonthDayText(m1, d1), y2 + MonthDayText(m2, d2))
      <==> DateLe(DigitsValue(y1), month1, day1, DigitsValue(y2), month2, day2)
  {
    MonthDayTextOrder(m1, d1, m2, d2, month1, day1, month2, day2);
    YearFirst(y1, MonthDayText(m1, d1), y2, MonthDayText(m2, d2), month1, day1, month2, day2);
  }

  lemma Reassociate(y: string, m: string, d: string)
    ensures y + "-" + m + "-" + d == y + MonthDayText(m, d)
  {
  }

  /** The two-character spelling of a number below 100. */
  lemma TwoCharFields(n: nat)
    requires n < 100
    ensures var p := PadStart(NatToString(n), 2);
      |p| == 2 && AllDigits(p) && DigitsValue(p) == n
  {
    TwoDigits(n);
    var s := NatToString(n);
    var p := PadStart(s, 2);
    assert p == p[..|p| - |s|] + s;
    DigitsLeadingZeros(p[..|p| - |s|], s);
  }

  /** On the picker's texts with four-digit years, string order is date order. */
  lemma InputDateTextOrder(y1: nat, m1: nat, d1: nat, y2: nat, m2: nat, d2: nat)
    requires 1000 <= y1 <= 9999 && 1000 <= y2 <= 9999 && m1 < 100 && d1 < 100 && m2 < 100 && d2 < 100
    ensures StrLe(FormatInputDate(y1, m1, d1), FormatInputDate(y2, m2, d2)) <==> DateLe(y1, m1, d1, y2, m2, d2)
  {
    YearDigits(y1);
    YearDigits(y2);
    TwoCharFields(m1);
    TwoCharFields(d1);
    TwoCharFields(m2);
    TwoCharFields(d2);
    IsoTextOrder(NatToString(y1), PadStart(NatToString(m1), 2), PadStart(NatToString(d1), 2),
                 NatToString(y2), PadStart(NatToString(m2), 2), PadStart(NatToString(d2), 2), m1, d1, m2, d2);
    Reassociate(NatToString(y1), PadStart(NatToString(m1), 2), PadStart(NatToString(d1), 2));
    Reassociate(NatToString(y2), PadStart(NatToString(m2), 2), PadStart(NatToString(d2), 2));
  }

  /** A `dd/mm/yyyy` sheet date normalises to the picker's text of that date. */
  lemma NormalizeSheetText(day: nat, month: nat, year: nat)
    requires day < 100 && month < 100 && 1000 <= year <= 9999
    ensures NormalizeSheetDate(FormatSheetDate(day, month, NatToString(year))) == Some(FormatInputDate(year, month, day))
  {
    var dd, mm, yy := PadStart(NatToString(day), 2), PadStart(NatToString(month), 2), NatToString(year);
    TwoCharFields(day);
    TwoCharFields(month);
    YearDigits(year);
    NormalizeLongFields(dd, mm, yy);
    assert FormatSheetDate(day, month, yy) == dd + ['/'] + mm + ['/'] + yy;
  }

  /** Day-month-year text with two-character day and month and a
      four-character year normalises to the `yyyy-mm-dd` text. */
  lemma NormalizeLongFields(dd: string, mm: string, yy: string)
    requires |dd| == 2 && |mm| == 2 && |yy| == 4 && AllDigits(dd) && AllDigits(mm) && AllDigits(yy)
    ensures NormalizeSheetDate(dd + ['/'] + mm + ['/'] + yy) == Some(yy + "-" + mm + "-" + dd)
  {
    NormalizeOfDigits(dd, '/', mm, '/', yy);
    assert PadStart(dd, 2) == dd && PadStart(mm, 2) == mm;
  }

  /** `2000 + n` is spelt "20" followed by the two-character spelling of n. */
  lemma CenturySpelling(n: nat)
    requires n < 100
    ensures NatToString(2000 + n) == "20" + PadStart(NatToString(n), 2)
  {
    var hi, lo := n / 10, n % 10;
    assert (2000 + n) / 10 == 200 + hi && (2000 + n) % 10 == lo;
    assert (200 + hi) / 10 == 20 && (200 + hi) % 10 == hi;
    assert NatToString(20) == "20";
    assert NatToString(200 + hi) == "20" + [DigitChar(hi)];
    if n < 10 {
      assert NatToString(n) == [DigitChar(n)];
      assert PadStart(NatToString(n), 2) == "0" + [DigitChar(n)];
      assert DigitChar(0) == '0';
    } else {
      assert NatToString(n) == NatToString(hi) + [DigitChar(lo)];
      assert NatToString(hi) == [DigitChar(hi)];
    }
  }

  /** Day-month-year text of two-character fields normalises to the
      `20yy-mm-dd` text. */
  lemma NormalizeShortFields(dd: string, mm: string, yy: string)
    requires |dd| == 2 && |mm| == 2 && |yy| == 2 && AllDigits(dd) && AllDigits(mm) && AllDigits(yy)
    ensures NormalizeSheetDate(dd + ['/'] + mm + ['/'] + yy) == Some("20" + yy + "-" + mm + "-" + dd)
  {
    NormalizeOfDigits(dd, '/', mm, '/', yy);
    assert PadStart(dd, 2) == dd && PadStart(mm, 2) == mm;
  }

  /** A `dd/mm/yy` sheet date normalises to the picker's text of that date
      in the 2000s. */
  lemma NormalizeTwoDigitYear(day: nat, month: nat, year: nat)
    requires day < 100 && month < 100 && year < 100
    ensures NormalizeSheetDate(FormatSheetDate(day, month, PadStart(NatToString(year), 2)))
      == Some(FormatInputDate(2000 + year, month, day))
  {
    var dd, mm, yy := PadStart(NatToString(day), 2), PadStart(NatToString(month), 2), PadStart(NatToString(year), 2);
    TwoCharFields(day);
    TwoCharFields(month);
    TwoCharFields(year);
    NormalizeShortFields(dd, mm, yy);
    assert FormatSheetDate(day, month, yy) == dd + ['/'] + mm + ['/'] + yy;
    CenturySpelling(year);
    assert FormatInputDate(2000 + year, month, day) == "20" + yy + "-" + mm + "-" + dd;
  }

  // ---------------------------------------------------------------------------
  // Live boards

  /** `String(row[idKey]).trim()`: an absent id reads as "undefined". */
  function IdText(row: Row, idKey: string): string {
    Trim(JsString(Lookup(row, idKey)))
  }

  /** `refRows.find(g => String(g[idKey]).trim() === id)`: the first
      reference row with that trimmed id (`Seqs.FindFirst` carries the
      contract). */
  function FindLinked(refRows: seq<Row>, idKey: string, id: string): Option<Row> {
    var k := FindFirst(refRows, (g: Row) => IdText(g, idKey) == id);
    if k.None? then None else Some(refRows[k.value])
  }

  /** Which columns a live board joins on and reads its dates from. */
  datatype Board = Board(idKey: string, dateKeys: seq<string>, searchDateKey: string)

  /** The inward board: rows of the live inward sheet joined to the GRN sheet. */
  const InwardBoard: Board := Board("GRN_ID", ["Date", "Arrival_Date", "Arrival_Time"], "Arrival_Time")

  /** The outbound board: rows of the live outbound sheet joined to the
      filtered outbound rows. */
  const OutboundBoard: Board := Board("DN_ID", ["Actual_Date", "Order_Date"], "Order_Date")

  /** The linked row's `rawDate`: the first truthy date column, `""` when
      there is no linked row or no date. */
  function LinkedDate(board: Board, refRows: seq<Row>, row: Row): string {
    var g := FindLinked(refRows, board.idKey, IdText(row, board.idKey));
    if g.None? then "" else FirstTruthy(g.value, board.dateKeys, "")
  }

  /** The date condition of a live board: the linked date normalises and the
      normalised text lies between the picker's texts, compared as strings. */
  predicate InBoardRange(board: Board, refRows: seq<Row>, range: DateRange, row: Row) {
    var n := NormalizeSheetDate(LinkedDate(board, refRows, row));
    n.Some? && StrLe(range.start, n.value) && StrLe(n.value, range.end)
  }

  /** `boardSearch.toLowerCase().trim()` */
  function BoardQuery(search: string): string {
    Trim(ToLower(search))
  }

  /** The search condition: the row's id, or the linked row's search-date
      column, lower-cased, contains the query. */
  predicate MatchesBoardSearch(board: Board, refRows: seq<Row>, q: string, row: Row) {
    var g := FindLinked(refRows, board.idKey, IdText(row, board.idKey));
    var linked := if g.None? then "" else FirstTruthy(g.value, [board.searchDateKey], "");
    Contains(ToLower(FirstTruthy(row, [board.idKey], "")), q) || Contains(ToLower(linked), q)
  }

  /** The first filter of a live board. */
  function BoardByDate(board: Board, live: seq<Row>, refRows: seq<Row>, range: DateRange): (r: seq<Row>)
    ensures IsSubseq(r, live)
    ensures forall row :: multiset(r)[row] == if InBoardRange(board, refRows, range, row) then multiset(live)[row] else 0
  {
    var keep := (row: Row) => InBoardRange(board, refRows, range, row);
    FilterIsSubseq(live, keep);
    FilterCount(live, keep);
    Filter(live, keep)
  }

  /** The search filter of a live board. */
  function BoardBySearch(board: Board, rows: seq<Row>, refRows: seq<Row>, q: string): (r: seq<Row>)
    ensures IsSubseq(r, rows)
    ensures forall row :: multiset(r)[row] == if MatchesBoardSearch(board, refRows, q, row) then multiset(rows)[row] else 0
  {
    var keep := (row: Row) => MatchesBoardSearch(board, refRows, q, row);
    FilterIsSubseq(rows, keep);
    FilterCount(rows, keep);
    Filter(rows, keep)
  }

  /** A live row stays on the board: its date is in range and, when a
      search is typed, it matches the query. */
  predicate OnBoard(board: Board, refRows: seq<Row>, range: DateRange, search: string, row: Row) {
    InBoardRange(board, refRows, range, row)
    && (search == "" || MatchesBoardSearch(board, refRows, BoardQuery(search), row))
  }

  /** `filteredLiveInward` / `filteredLiveOutbound`: the live rows in the date
      range, then, when a search is typed, those that match it; order kept. */
  function LiveBoard(board: Board, live: seq<Row>, refRows: seq<Row>, range: DateRange, search: string): (r: seq<Row>)
    ensures IsSubseq(r, live)
    ensures forall row :: multiset(r)[row] == if OnBoard(board, refRows, range, search, row) then multiset(live)[row] else 0
  {
    var dated := BoardByDate(board, live, refRows, range);
    if search == "" then dated
    else
      var r := BoardBySearch(board, dated, refRows, BoardQuery(search));
      SubseqTransitive(r, dated, live);
      r
  }

  function LiveInward(liveInward: seq<Row>, grnData: seq<Row>, range: DateRange, search: string): seq<Row> {
    LiveBoard(InwardBoard, liveInward, grnData, range, search)
  }

  function LiveOutbound(liveOutbound: seq<Row>, outboundData: seq<Row>, range: DateRange, search: string): seq<Row> {
    LiveBoard(OutboundBoard, liveOutbound, outboundData, range, search)
  }

  /** A search of nothing but white space filters nothing out: the trimmed
      query is empty and every text contains it. */
  lemma BlankSearchKeepsAll(board: Board, live: seq<Row>, refRows: seq<Row>, range: DateRange, search: string)
    requires BoardQuery(search) == ""
    ensures LiveBoard(board, live, refRows, range, search) == LiveBoard(board, live, refRows, range, "")
  {
    if search != "" {
      var dated := BoardByDate(board, live, refRows, range);
      var keep := (row: Row) => MatchesBoardSearch(board, refRows, "", row);
      forall i | 0 <= i < |dated| ensures keep(dated[i]) {
        ContainsEmpty(ToLower(FirstTruthy(dated[i], [board.idKey], "")));
      }
      FilterAll(dated, keep);
    }
  }

  /** For a well-formed `dd/mm/yyyy` linked date and picker bounds, the
      string comparison the board makes is calendar order on both sides. */
  lemma BoardDateOrder(board: Board, refRows: seq<Row>, row: Row, day: nat, month: nat, year: nat,
                       ys: nat, ms: nat, ds: nat, ye: nat, me: nat, de: nat)
    requires LinkedDate(board, refRows, row) == FormatSheetDate(day, month, NatToString(year))
    requires day < 100 && month < 100 && 1000 <= year <= 9999
    requires ms < 100 && ds < 100 && 1000 <= ys <= 9999 && me < 100 && de < 100 && 1000 <= ye <= 9999
    ensures InBoardRange(board, refRows, DateRange(FormatInputDate(ys, ms, ds), FormatInputDate(ye, me, de)), row)
      <==> DateLe(ys, ms, ds, year, month, day) && DateLe(year, month, day, ye, me, de)
  {
    NormalizeSheetText(day, month, year);
    InputDateTextOrder(ys, ms, ds, year, month, day);
    InputDateTextOrder(year, month, day, ye, me, de);
  }

  // ---------------------------------------------------------------------------
  // Stock tab

  /** `row[key] && row[key].toLowerCase().includes(q)` */
  predicate FieldContains(row: Row, key: string, q: string) {
    Truthy(Lookup(row, key)) && Contains(ToLower(Lookup(row, key).value), q)
  }

  /** The Stock tab's search condition on the lower-cased query. */
  predicate StockMatches(q: string, row: Row) {
    FieldContains(row, "SKU_ID", q) || FieldContains(row, "SKU_Description", q)
  }

  /** The Stock tab's search: everything when the box is empty, otherwise
      the rows whose SKU id or description contains the lower-cased query
      (not trimmed). */
  function StockSearch(rows: seq<Row>, search: string): (r: seq<Row>)
    ensures IsSubseq(r, rows)
    ensures forall row :: multiset(r)[row] == if search == "" || StockMatches(ToLower(search), row) then multiset(rows)[row] else 0
  {
    if search == "" then
      SubseqOfSelf(rows);
      rows
    else
      var keep := (row: Row) => StockMatches(ToLower(search), row);
      FilterIsSubseq(rows, keep);
      FilterCount(rows, keep);
      Filter(rows, keep)
  }

  /** `Number(row.Total_Qty) || 0` */
  function TotalQty(row: Row): int {
    NumberOrZero(JsString(Lookup(row, "Total_Qty")))
  }

  /** The Stock tab's list: the search result sorted by quantity on a copy,
      ascending or descending, the rows of any one quantity in their
      earlier order. */
  function StockView(rows: seq<Row>, search: string, ascending: bool): (r: seq<Row>)
    ensures multiset(r) == multiset(StockSearch(rows, search))
    ensures SortedBy(r, TotalQty, ascending)
    ensures forall q :: Filter(r, KeyIs(TotalQty, q)) == Filter(StockSearch(rows, search), KeyIs(TotalQty, q))
  {
    SortBySorted(StockSearch(rows, search), TotalQty, ascending);
    SortByStableAll(StockSearch(rows, search), TotalQty, ascending);
    SortBy(StockSearch(rows, search), TotalQty, ascending)
  }

  /** A SKU total shown as a row reads back as its quantity. */
  lemma StockRowQty(e: StockEntry)
    ensures TotalQty(StockRow(e)) == e.totalQty
  {
    GetFirst(StockRow(e), "Total_Qty", 2);
    NumberOfString(e.totalQty);
  }

  /** With the search box empty, the Stock tab's total quantity, the figure
      its stat card shows, is the sum of the quantities of all stock records
      that carry a SKU, whichever way the list is sorted. */
  lemma StockTabTotal(stockRows: seq<Row>, ascending: bool, totalOccupiedPallets: int)
    ensures SumOf(StockView(StockData(stockRows), "", ascending), TotalQty) == SumOf(stockRows, CountedQty)
    ensures DisplayStats(StockTab, CurrentData(StockTab, [], [], StockData(stockRows), [], "", ascending),
                         totalOccupiedPallets).totalQty == SumOf(stockRows, CountedQty)
  {
    var data := StockData(stockRows);
    var view := StockView(data, "", ascending);
    SumPermutation(view, data, TotalQty);
    forall e ensures TotalQty(StockRow(e)) == EntryQty(e) {
      StockRowQty(e);
    }
    SumOfMap(Values(StockMapOf(stockRows)), StockRow, TotalQty, EntryQty);
    SumValuesOfValues(StockMapOf(stockRows), EntryQty);
    StockConservation(stockRows);
    assert CurrentData(StockTab, [], [], data, [], "", ascending) == view;
  }

  // ---------------------------------------------------------------------------
  // Tabs and their figures

  datatype Tab = LiveControl | InboundTab | OutboundTab | StockTab | DangerTab | LocationsTab

  /** `row.Customer_Name && row.Customer_Name.includes('CUS-0001')` */
  predicate IsCustomerOne(row: Row) {
    Truthy(Lookup(row, "Customer_Name")) && Contains(Lookup(row, "Customer_Name").value, "CUS-0001")
  }

  /** The outbound tab lists only the first customer's rows. */
  function CustomerOneRows(outbound: seq<Row>): (r: seq<Row>)
    ensures IsSubseq(r, outbound)
    ensures forall row :: multiset(r)[row] == if IsCustomerOne(row) then multiset(outbound)[row] else 0
  {
    FilterIsSubseq(outbound, IsCustomerOne);
    FilterCount(outbound, IsCustomerOne);
    Filter(outbound, IsCustomerOne)
  }

  /** `currentData`: the list behind the active tab. */
  function CurrentData(tab: Tab, inbound: seq<Row>, outbound: seq<Row>, stock: seq<Row>, danger: seq<Row>,
                       stockSearch: string, ascending: bool): (r: seq<Row>)
    ensures tab == LiveControl || tab == LocationsTab ==> r == []
    ensures tab == InboundTab ==> r == inbound
    ensures tab == DangerTab ==> r == danger
    ensures tab == OutboundTab ==> IsSubseq(r, outbound) && forall i :: 0 <= i < |r| ==> IsCustomerOne(r[i])
    ensures tab == OutboundTab ==> forall row :: multiset(r)[row] == if IsCustomerOne(row) then multiset(outbound)[row] else 0
    ensures tab == StockTab ==> multiset(r) == multiset(StockSearch(stock, stockSearch)) && SortedBy(r, TotalQty, ascending)
  {
    match tab
    case InboundTab => inbound
    case OutboundTab => CustomerOneRows(outbound)
    case StockTab => StockView(stock, stockSearch, ascending)
    case DangerTab => danger
    case _ => []
  }

  /** The figures of the stat cards. `DangerTotals.freeQty` (the `totalQty` of the danger tab) is `None` when
      some row's free quantity is not a number, which makes the JavaScript
      sum `NaN`. */
  datatype TabStats =
    | AllZero
    | StockTotals(count: int, totalQty: int, palletCount: int)
    | DangerTotals(count: int, freeQty: Option<int>, palletCount: int)
    | FlowTotals(count: int, palletCount: int, boxCount: int)

  /** `Number(row.Free_Qty || row.free_qty || 0)` */
  function FreeQty(row: Row): Option<int> {
    JsNumber(FirstTruthy(row, ["Free_Qty", "free_qty"], "0"))
  }

  function FreeQtyOrZero(row: Row): int {
    FreeQty(row).GetOr(0)
  }

  /** The danger tab's `reduce` of free quantities: `NaN` as soon as one
      row's quantity is not a number, otherwise the plain sum. */
  lemma DangerQtyTotal(rows: seq<Row>)
    ensures SumOptions(rows, FreeQty).None? <==> exists i :: 0 <= i < |rows| && FreeQty(rows[i]).None?
    ensures SumOptions(rows, FreeQty).Some? ==> SumOptions(rows, FreeQty).value == SumOf(rows, FreeQtyOrZero)
  {
    SumOptionsValue(rows, FreeQty, FreeQtyOrZero);
  }

  /** `displayStats` on the active tab's data. The inbound tab reads
      `Sum_of_Pallet` and `Sum_of_Box`, every other tab the dispatched
      columns, each by `Number(v) || 0`. */
  function DisplayStats(tab: Tab, data: seq<Row>, totalOccupiedPallets: int): (r: TabStats)
    ensures tab == LocationsTab <==> r == AllZero
    ensures tab == DangerTab ==>
      (r.DangerTotals? && r.count == r.palletCount == |data|
       && (r.freeQty.Some? <==> forall i :: 0 <= i < |data| ==> FreeQty(data[i]).Some?))
    ensures tab == StockTab ==>
      (r.StockTotals? && r.count == |data| && r.totalQty == SumOf(data, TotalQty) && r.palletCount == totalOccupiedPallets)
    ensures tab == DangerTab ==> r.DangerTotals? && r.freeQty == SumOptions(data, FreeQty)
    ensures tab == InboundTab ==> r == FlowTotals(|data|, SumOf(data, InboundPallets), SumOf(data, InboundBoxes))
    ensures tab == OutboundTab || tab == LiveControl ==>
      r == FlowTotals(|data|, SumOf(data, OutboundPallets), SumOf(data, OutboundBoxes))
  {
    match tab
    case LocationsTab => AllZero
    case StockTab => StockTotals(|data|, SumOf(data, TotalQty), totalOccupiedPallets)
    case DangerTab => DangerTotals(|data|, SumOptions(data, FreeQty), |data|)
    case InboundTab => FlowTotals(|data|, SumOf(data, InboundPallets), SumOf(data, InboundBoxes))
    case _ => FlowTotals(|data|, SumOf(data, OutboundPallets), SumOf(data, OutboundBoxes))
  }

  /** The inbound tab shows the figures of `stats.inbound`. */
  lemma InboundTabMatchesStats(rawInbound: seq<Row>, rawOutbound: seq<Row>, range: DateRange, pallets: int)
    ensures var st := ComputeStats(rawInbound, rawOutbound, range).inbound;
      DisplayStats(InboundTab, FilteredInbound(rawInbound, range), pallets) == FlowTotals(st.count, st.palletCount, st.boxCount)
  {
    assert |FilteredInbound(rawInbound, range)| == |FilteredInboundRaw(rawInbound, range)|;
  }

  /** When every filtered outbound row belongs to the first customer, the
      outbound tab shows the figures of `stats.outbound`; otherwise it counts
      fewer rows. */
  lemma OutboundTabMatchesStats(rawInbound: seq<Row>, rawOutbound: seq<Row>, range: DateRange, pallets: int)
    ensures var outbound := FilteredOutbound(rawOutbound, range);
      var st := ComputeStats(rawInbound, rawOutbound, range).outbound;
      var shown := DisplayStats(OutboundTab, CurrentData(OutboundTab, [], outbound, [], [], "", true), pallets);
      shown.FlowTotals? && shown.count <= st.count
      && ((forall i :: 0 <= i < |outbound| ==> IsCustomerOne(outbound[i]))
          ==> shown == FlowTotals(st.count, st.palletCount, st.boxCount))
  {
    var outbound := FilteredOutbound(rawOutbound, range);
    var st := ComputeStats(rawInbound, rawOutbound, range).outbound;
    assert st == FlowStats(|outbound|, SumOf(outbound, OutboundPallets), SumOf(outbound, OutboundBoxes));
    var data := CurrentData(OutboundTab, [], outbound, [], [], "", true);
    assert data == Filter(outbound, IsCustomerOne);
    var shown := DisplayStats(OutboundTab, data, pallets);
    assert shown == FlowTotals(|data|, SumOf(data, OutboundPallets), SumOf(data, OutboundBoxes));
    if forall i :: 0 <= i < |outbound| ==> IsCustomerOne(outbound[i]) {
      FilterAll(outbound, IsCustomerOne);
    }
  }


  // ---------------------------------------------------------------------------
  // Stock export

  function ExportHeader(isDanger: bool): (r: seq<string>)
    ensures |r| == if isDanger then 8 else 3
  {
    if isDanger then ["Pallet ID", "GRN ID", "SKU ID", "Description", "Expiry Date", "Days Remaining", "Free Qty", "Location"]
    else ["SKU ID", "Description", "Total Current Qty"]
  }

  /** `row.Expiry_Date || row.expiry_date || ''` */
  function ExpiryOf(row: Row): string {
    FirstTruthy(row, ["Expiry_Date", "expiry_date"], "")
  }

  /** The "Days Remaining" cell: empty unless the expiry has three
      `/`-separated parts; the day count itself depends on the clock and is
      the parameter `daysRemaining`. */
  function DaysColumn(expiry: string, daysRemaining: string -> string): string {
    if expiry != "" && |SplitAny(expiry, {'/'})| == 3 then daysRemaining(expiry) else ""
  }

  /** The cells pushed for one row of the active tab. */
  function ExportFields(row: Row, isDanger: bool, daysRemaining: string -> string): (r: seq<string>)
    ensures |r| == |ExportHeader(isDanger)|
  {
    if isDanger then
      [Quote(FirstTruthy(row, ["Pallet_ID", "pallet_id"], "")),
       Quote(FirstTruthy(row, ["GRN_ID", "grn_id"], "")),
       Quote(FirstTruthy(row, ["SKU_ID", "sku_id"], "")),
       Quote(FirstTruthy(row, ["SKU_Description", "sku_description"], "")),
       Quote(ExpiryOf(row)),
       DaysColumn(ExpiryOf(row), daysRemaining),
       FirstTruthy(row, ["Free_Qty", "free_qty"], "0"),
       Quote(FirstTruthy(row, ["Location_ID", "location_id"], ""))]
    else
      [Quote(FirstTruthy(row, ["SKU_ID"], "")),
       Quote(FirstTruthy(row, ["SKU_Description"], "")),
       FirstTruthy(row, ["Total_Qty"], "0")]
  }

  /** The cells of one data row, as a function of the row. */
  function RowCells(isDanger: bool, daysRemaining: string -> string): Row -> seq<string> {
    row => ExportFields(row, isDanger, daysRemaining)
  }

  /** The `rows` array: the header, then one line of cells per data row. */
  function ExportTable(data: seq<Row>, isDanger: bool, daysRemaining: string -> string): (t: seq<seq<string>>)
    ensures |t| == |data| + 1 && t[0] == ExportHeader(isDanger)
    ensures forall k :: 0 <= k < |data| ==> t[k + 1] == ExportFields(data[k], isDanger, daysRemaining)
  {
    var lines := Map(data, RowCells(isDanger, daysRemaining));
    assert forall k :: 0 <= k < |data| ==> lines[k] == ExportFields(data[k], isDanger, daysRemaining);
    [ExportHeader(isDanger)] + lines
  }

  /** `handleStockExport`: nothing for an empty list, otherwise the CSV text
      of the header and one line per row. */
  method StockExport(data: seq<Row>, isDanger: bool, daysRemaining: string -> string) returns (csv: Option<string>)
    ensures csv.None? <==> data == []
    ensures csv.Some? ==> csv.value == CsvText(ExportTable(data, isDanger, daysRemaining))
  {
    if data == [] {
      return None;
    }
    var rows := PushRows(ExportHeader(isDanger), data, RowCells(isDanger, daysRemaining));
    return Some(CsvText(rows));
  }

  /** The `rows` array of `handleStockExport`: the header, then the cells of
      each data row pushed in turn. */
  method PushRows(header: seq<string>, data: seq<Row>, cells: Row -> seq<string>) returns (rows: seq<seq<string>>)
    ensures rows == [header] + Map(data, cells)
  {
    rows := [header];
    var i := 0;
    while i < |data|
      invariant 0 <= i <= |data|
      invariant |rows| == i + 1 && rows[0] == header
      invariant forall k :: 0 <= k < i ==> rows[k + 1] == cells(data[k])
    {
      rows := rows + [cells(data[i])];
      i := i + 1;
    }
    HeadedMap(rows, header, data, cells);
  }

  /** No header cell holds a line break. */
  lemma HeaderUnbroken(isDanger: bool)
    ensures forall j :: 0 <= j < |ExportHeader(isDanger)| ==> '\n' !in ExportHeader(isDanger)[j]
  {
  }

  /** When no cell holds a line break, splitting the exported text at line
      breaks gives back exactly the header line and one line per data row,
      in order. */
  lemma ExportLines(data: seq<Row>, isDanger: bool, daysRemaining: string -> string)
    requires forall k, j :: 0 <= k < |data| && 0 <= j < |ExportHeader(isDanger)| ==>
      '\n' !in ExportFields(data[k], isDanger, daysRemaining)[j]
    ensures var lines := SplitAny(CsvText(ExportTable(data, isDanger, daysRemaining)), {'\n'});
      |lines| == |data| + 1 && lines[0] == CsvLine(ExportHeader(isDanger))
      && forall k :: 0 <= k < |data| ==> lines[k + 1] == CsvLine(ExportFields(data[k], isDanger, daysRemaining))
  {
    var table := ExportTable(data, isDanger, daysRemaining);
    HeaderUnbroken(isDanger);
    forall i, j | 0 <= i < |table| && 0 <= j < |table[i]| ensures '\n' !in table[i][j] {
      if i > 0 {
        assert table[(i - 1) + 1] == ExportFields(data[i - 1], isDanger, daysRemaining);
      }
    }
    CsvLines(table);
  }

  // ---------------------------------------------------------------------------
  // Pallet and pick details of the vehicle modal

  /** `String(v || '').trim().toUpperCase()` over the first truthy column. */
  function NormCell(row: Row, keys: seq<string>): string {
    ToUpper(Trim(FirstTruthy(row, keys, "")))
  }

  function VehicleOf(row: Row): string { NormCell(row, ["Vehicle_Number"]) }
  function GrnOf(row: Row): string { NormCell(row, ["GRN_ID"]) }
  function PalletGrnOf(row: Row): string { NormCell(row, ["GRN_ID", "grn_id"]) }

  /** GRN row `g` has vehicle number `v` and GRN id `x`. */
  predicate GrnRowOf(v: string, g: Row, x: string) {
    VehicleOf(g) == v && GrnOf(g) == x
  }

  /** `matchingGrnsFromAux`: the GRN ids of the GRN rows with the selected
      vehicle number, in order. */
  function AuxGrns(selVehicle: string, grnData: seq<Row>): (r: seq<string>)
    ensures forall x :: x in r <==> exists g :: g in grnData && GrnRowOf(selVehicle, g, x)
  {
    var sameVehicle := (g: Row) => VehicleOf(g) == selVehicle;
    forall x ensures x in Map(Filter(grnData, sameVehicle), GrnOf) <==> exists g :: g in grnData && sameVehicle(g) && GrnOf(g) == x {
      MapFilterMember(grnData, sameVehicle, GrnOf, x);
    }
    Map(Filter(grnData, sameVehicle), GrnOf)
  }

  /** `allPossibleGrns`: the selected GRN and the auxiliary ones. */
  function PossibleGrns(selected: Row, grnData: seq<Row>): (r: set<string>)
    ensures forall x :: x in r <==> x == GrnOf(selected) || x in AuxGrns(VehicleOf(selected), grnData)
  {
    var aux := AuxGrns(VehicleOf(selected), grnData);
    {GrnOf(selected)} + Elems(aux)
  }

  /** The pallet filter of the modal, as the code writes it. */
  predicate PalletMatches(selVehicle: string, grns: set<string>, p: Row) {
    (VehicleOf(p) != "" && VehicleOf(p) == selVehicle) || (PalletGrnOf(p) != "" && PalletGrnOf(p) in grns)
  }

  /** A pallet belongs to the selected vehicle: same non-empty vehicle
      number, or a non-empty GRN id that is the selected one or that of a
      GRN row with the selected vehicle number. */
  predicate PalletOfVehicle(selected: Row, grnData: seq<Row>, p: Row) {
    (VehicleOf(p) != "" && VehicleOf(p) == VehicleOf(selected))
    || (PalletGrnOf(p) != "" && GrnOfVehicle(selected, grnData, PalletGrnOf(p)))
  }

  /** The selected GRN id, or that of a GRN row with the selected vehicle. */
  predicate GrnOfVehicle(selected: Row, grnData: seq<Row>, x: string) {
    x == GrnOf(selected) || exists g :: g in grnData && GrnRowOf(VehicleOf(selected), g, x)
  }

  /** `filteredPallets`: the pallets of the selected vehicle, in order. */
  function MatchingPallets(selected: Row, grnData: seq<Row>, pallets: seq<Row>): (r: seq<Row>)
    ensures IsSubseq(r, pallets)
    ensures forall p :: multiset(r)[p] == if PalletOfVehicle(selected, grnData, p) then multiset(pallets)[p] else 0
  {
    var grns := PossibleGrns(selected, grnData);
    var keep := (p: Row) => PalletMatches(VehicleOf(selected), grns, p);
    forall p ensures keep(p) == PalletOfVehicle(selected, grnData, p) {
      var x := PalletGrnOf(p);
      assert x in AuxGrns(VehicleOf(selected), grnData) <==> exists g :: g in grnData && GrnRowOf(VehicleOf(selected), g, x);
      assert x in grns <==> GrnOfVehicle(selected, grnData, x);
    }
    FilterIsSubseq(pallets, keep);
    FilterCount(pallets, keep);
    Filter(pallets, keep)
  }

  /** `pPickId && pPickId.includes(selDnId)` */
  predicate PickMatches(dn: string, p: Row) {
    var id := NormCell(p, ["Pick_ID"]);
    id != "" && Contains(id, dn)
  }

  /** `filteredPicks`: the picks whose id contains the selected DN id. */
  function MatchingPicks(selected: Row, picks: seq<Row>): (r: seq<Row>)
    ensures IsSubseq(r, picks)
    ensures forall p :: multiset(r)[p] == if PickMatches(NormCell(selected, ["DN_ID"]), p) then multiset(picks)[p] else 0
  {
    var dn := NormCell(selected, ["DN_ID"]);
    var keep := (p: Row) => PickMatches(dn, p);
    FilterIsSubseq(picks, keep);
    FilterCount(picks, keep);
    Filter(picks, keep)
  }

  /** A vehicle without a DN id lists every pick that has an id. */
  lemma EmptyDnMatchesAllPicks(selected: Row, picks: seq<Row>)
    requires NormCell(selected, ["DN_ID"]) == ""
    ensures forall p :: multiset(MatchingPicks(selected, picks))[p] == if NormCell(p, ["Pick_ID"]) != "" then multiset(picks)[p] else 0
  {
    forall p ensures PickMatches("", p) <==> NormCell(p, ["Pick_ID"]) != "" {
      ContainsEmpty(NormCell(p, ["Pick_ID"]));
    }
  }
}
