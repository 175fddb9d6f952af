/** The data step of the dashboard's top-level component: loose column
    lookup, the two date parsers, the stock and occupancy aggregation with
    its danger filter, the date-range filter and the inbound/outbound
    totals. Rows arrive already parsed from the spreadsheet; the clock
    ("today") is a parameter. */
module App {
  import opened Wrappers
  import opened JsText
  import opened JsDate
  import opened Rows
  import opened Seqs
  import opened Aggregate

  // ---------------------------------------------------------------------------
  // Loose column lookup

  /** A normalised column name matches a normalised target when they are
      equal or either one contains the other. */
  predicate LooseMatch(cleanKey: string, target: string) {
    cleanKey == target || Contains(cleanKey, target) || Contains(target, cleanKey)
  }

  /** Position `i` holds the first column of `row` whose name matches. */
  predicate FirstLooseMatch(row: Row, target: string, i: int) {
    0 <= i < |row| && LooseMatch(NormalizeKey(row[i].0), target)
    && forall j :: 0 <= j < i ==> !LooseMatch(NormalizeKey(row[j].0), target)
  }

  /** `Object.keys(row).find(...)` as a position. */
  function LooseMatchIndex(row: Row, target: string): (r: Option<nat>)
    ensures r.Some? ==> FirstLooseMatch(row, target, r.value)
    ensures r.None? ==> forall j :: 0 <= j < |row| ==> !LooseMatch(NormalizeKey(row[j].0), target)
  {
    if row == [] then None
    else if LooseMatch(NormalizeKey(row[0].0), target) then Some(0)
    else
      match LooseMatchIndex(row[1..], target)
      case None => None
      case Some(i) => Some(i + 1)
  }

  /** `getRowValue(row, targetKeyPart)`: the value of the first column, in
      key order, whose normalised name matches the normalised target in
      either direction; `''` for a missing row, when nothing matches, and
      when the matching column's name is the empty text (a falsy key). */
  function GetRowValue(row: Option<Row>, targetKeyPart: string): (r: string)
    ensures row.None? ==> r == ""
    ensures row.Some? ==>
      ((forall j :: 0 <= j < |row.value| ==> !LooseMatch(NormalizeKey(row.value[j].0), NormalizeKey(targetKeyPart))) ==> r == "")
    ensures forall i :: (row.Some? && FirstLooseMatch(row.value, NormalizeKey(targetKeyPart), i)
                         ==> r == (if row.value[i].0 == "" then "" else row.value[i].1))
  {
    if row.None? then ""
    else
      match LooseMatchIndex(row.value, NormalizeKey(targetKeyPart))
      case None => ""
      case Some(i) => if row.value[i].0 == "" then "" else row.value[i].1
  }

  /** `getRowValue` on a row that is present. */
  function Col(row: Row, targetKeyPart: string): string {
    GetRowValue(Some(row), targetKeyPart)
  }

  /** A column whose name has no letter or digit (say "#") normalises to the
      empty text, which every target contains: placed first, it answers
      every lookup. */
  lemma BlankNameAnswersEverything(row: Row, targetKeyPart: string)
    requires row != [] && row[0].0 != "" && NormalizeKey(row[0].0) == ""
    ensures Col(row, targetKeyPart) == row[0].1
  {
    assert StartsWith(NormalizeKey(targetKeyPart), "");
    assert FirstLooseMatch(row, NormalizeKey(targetKeyPart), 0);
  }

  // ---------------------------------------------------------------------------
  // Dates

  /** What the date parsers return: `null`, an Invalid Date (some field read
      as `NaN`), or `new Date(year, month - 1, day)` on the numbers read. */
  datatype SheetDate = NullDate | InvalidDate | DateOf(year: int, month: int, day: int)

  /** `date.getTime()` as a day number; `None` stands for `NaN`. */
  function TimeOf(d: SheetDate): (t: Option<int>)
    ensures t.Some? <==> d.DateOf?
  {
    match d
    case DateOf(y, m, day) => Some(MakeDay(y, m - 1, day))
    case _ => None
  }

  /** `a.getTime() <= b.getTime()`: false whenever either side is `NaN`. */
  predicate TimeLe(a: SheetDate, b: SheetDate) {
    TimeOf(a).Some? && TimeOf(b).Some? && TimeOf(a).value <= TimeOf(b).value
  }

  /** `new Date(y, m - 1, d)` on three parsed numbers. */
  function DateFromNumbers(y: Option<int>, m: Option<int>, d: Option<int>): (r: SheetDate)
    ensures r != NullDate
    ensures r.DateOf? <==> y.Some? && m.Some? && d.Some?
    ensures r.DateOf? ==> r == DateOf(y.value, m.value, d.value)
  {
    if y.Some? && m.Some? && d.Some? then DateOf(y.value, m.value, d.value) else InvalidDate
  }

  const DateSeparators: set<char> := {'/', '.', '-'}

  /** `dateStr.trim().split(' ')[0].split(/[/.-]/)` */
  function DatePieces(dateStr: string): seq<string> {
    SplitAny(FirstToken(Trim(dateStr)), DateSeparators)
  }

  /** `parseSheetDate` as written: in day-month-year order the year gets
      2000 added when the NUMBER read has two digits, so a year field "05"
      is read as 5, which `new Date` takes as 1905. */
  function ParseSheetDateAsWritten(dateStr: string): (r: SheetDate)
    ensures r == NullDate <==> dateStr == "" || |DatePieces(dateStr)| != 3
  {
    if dateStr == "" then NullDate
    else
      var parts := DatePieces(dateStr);
      if |parts| != 3 then NullDate
      else if |parts[0]| == 4 then
        DateFromNumbers(JsNumber(parts[0]), JsNumber(parts[1]), JsNumber(parts[2]))
      else
        var yyyy := JsNumber(parts[2]);
        var fullYear := if yyyy.Some? && |IntToString(yyyy.value)| == 2 then Some(2000 + yyyy.value) else yyyy;
        DateFromNumbers(fullYear, JsNumber(parts[1]), JsNumber(parts[0]))
  }

  /** `parseSheetDate` with the two-digit-year rule it evidently intends,
      the one `normalizeSheetDate` applies: a year FIELD of two characters
      is a year of this century. A first field of four characters means
      year-month-day order, anything else day-month-year. */
  function ParseSheetDate(dateStr: string): (r: SheetDate)
    ensures r == NullDate <==> dateStr == "" || |DatePieces(dateStr)| != 3
    ensures r != NullDate ==>
      var p := DatePieces(dateStr);
      |p| == 3 && r == DateOfFields(p[0], p[1], p[2])
  {
    if dateStr == "" then NullDate
    else
      var parts := DatePieces(dateStr);
      if |parts| != 3 then NullDate
      else DateOfFields(parts[0], parts[1], parts[2])
  }

  /** The date the corrected `parseSheetDate` reads from three fields. */
  function DateOfFields(first: string, middle: string, last: string): (r: SheetDate)
    ensures r != NullDate
    ensures r.DateOf? && |first| == 4 ==>
      JsNumber(first) == Some(r.year) && JsNumber(middle) == Some(r.month) && JsNumber(last) == Some(r.day)
    ensures r.DateOf? && |first| != 4 ==>
      JsNumber(first) == Some(r.day) && JsNumber(middle) == Some(r.month)
      && JsNumber(last) == Some(if |last| == 2 then r.year - 2000 else r.year)
  {
    if |first| == 4 then
      DateFromNumbers(JsNumber(first), JsNumber(middle), JsNumber(last))
    else
      var yyyy := JsNumber(last);
      var fullYear := if yyyy.Some? && |last| == 2 then Some(2000 + yyyy.value) else yyyy;
      DateFromNumbers(fullYear, JsNumber(middle), JsNumber(first))
  }

  /** `parseInputDate`: `dateStr.split('-').map(Number)` destructured into
      year, month and day; a missing field is `undefined`, read as `NaN`. */
  function ParseInputDate(dateStr: string): (r: SheetDate)
    ensures r == NullDate <==> dateStr == ""
  {
    if dateStr == "" then NullDate
    else
      var parts := SplitAny(dateStr, {'-'});
      DateFromNumbers(JsNumber(parts[0]),
                      if |parts| > 1 then JsNumber(parts[1]) else None,
                      if |parts| > 2 then JsNumber(parts[2]) else None)
  }

  /** `getTodayInputFormat` on the given calendar fields: `yyyy-mm-dd` with
      month and day zero-padded to two characters. */
  function FormatInputDate(year: nat, month: nat, day: nat): string {
    NatToString(year) + "-" + PadStart(NatToString(month), 2) + "-" + PadStart(NatToString(day), 2)
  }

  /** A digit string holds digits only. */
  lemma DigitsOnly(s: string)
    requires AllDigits(s)
    ensures forall c :: c in s ==> IsDigit(c)
  {
    forall c | c in s ensures IsDigit(c) {
      var i :| 0 <= i < |s| && s[i] == c;
    }
  }

  /** Splitting three digit fields joined by separators gives them back. */
  lemma {:induction false} SplitThree(a: string, c1: char, b: string, c2: char, e: string, seps: set<char>)
    requires AllDigits(a) && AllDigits(b) && AllDigits(e)
    requires forall c :: c in seps ==> !IsDigit(c)
    requires c1 in seps && c2 in seps
    ensures SplitAny(a + [c1] + b + [c2] + e, seps) == [a, b, e]
  {
    DigitsOnly(a);
    DigitsOnly(b);
    DigitsOnly(e);
    assert forall i :: 0 <= i < |a| ==> a[i] in a;
    assert forall i :: 0 <= i < |b| ==> b[i] in b;
    assert forall i :: 0 <= i < |e| ==> e[i] in e;
    assert a + [c1] + b + [c2] + e == a + [c1] + (b + [c2] + e);
    SplitFirst(a, c1, b + [c2] + e, seps);
    SplitFirst(b, c2, e, seps);
    SplitNone(e, seps);
  }

  /** Text made of three digit fields and two separators is its own date
      token: trimming and cutting at the first space change nothing. */
  lemma DateTokenOfDigits(a: string, c1: char, b: string, c2: char, e: string)
    requires a != [] && e != [] && AllDigits(a) && AllDigits(b) && AllDigits(e)
    requires c1 in DateSeparators && c2 in DateSeparators
    ensures DatePieces(a + [c1] + b + [c2] + e) == [a, b, e]
  {
    var s := a + [c1] + b + [c2] + e;
    DigitsTextTrimmed(a, c1, b, c2, e);
    DigitsTextNoSpace(a, c1, b, c2, e);
    FirstTokenNoSpace(s);
    SplitThree(a, c1, b, c2, e, DateSeparators);
  }

  lemma DigitsTextTrimmed(a: string, c1: char, b: string, c2: char, e: string)
    requires a != [] && e != [] && AllDigits(a) && AllDigits(e)
    ensures Trim(a + [c1] + b + [c2] + e) == a + [c1] + b + [c2] + e
  {
    var s := a + [c1] + b + [c2] + e;
    assert s[0] == a[0] && s[|s| - 1] == e[|e| - 1];
    assert IsDigit(s[0]) && IsDigit(s[|s| - 1]);
    TrimNoSpace(s);
  }

  lemma DigitsTextNoSpace(a: string, c1: char, b: string, c2: char, e: string)
    requires AllDigits(a) && AllDigits(b) && AllDigits(e)
    requires c1 in DateSeparators && c2 in DateSeparators
    ensures ' ' !in a + [c1] + b + [c2] + e
  {
    DigitsOnly(a);
    DigitsOnly(b);
    DigitsOnly(e);
  }

  /** `parseInputDate` on three digit fields joined by '-'. */
  lemma InputDateOfDigits(y: string, m: string, d: string)
    requires y != [] && AllDigits(y) && AllDigits(m) && AllDigits(d)
    ensures ParseInputDate(y + ['-'] + m + ['-'] + d) == DateFromNumbers(JsNumber(y), JsNumber(m), JsNumber(d))
  {
    SplitThree(y, '-', m, '-', d, {'-'});
  }

  /** `parseSheetDate` on three digit fields joined by separators. */
  lemma SheetDateOfDigits(a: string, c1: char, b: string, c2: char, e: string)
    requires a != [] && e != [] && AllDigits(a) && AllDigits(b) && AllDigits(e)
    requires c1 in DateSeparators && c2 in DateSeparators
    ensures ParseSheetDate(a + [c1] + b + [c2] + e) ==
      if |a| == 4 then DateFromNumbers(JsNumber(a), JsNumber(b), JsNumber(e))
      else DateFromNumbers(if |e| == 2 && JsNumber(e).Some? then Some(2000 + JsNumber(e).value) else JsNumber(e),
                           JsNumber(b), JsNumber(a))
  {
    var text := a + [c1] + b + [c2] + e;
    assert text != "" by { assert text[0] == a[0]; }
    DateTokenOfDigits(a, c1, b, c2, e);
    SheetDateOfPieces(text, a, b, e);
  }

  /** `parseSheetDate` on any text whose date token has the three given fields. */
  lemma SheetDateOfPieces(text: string, a: string, b: string, e: string)
    requires text != "" && DatePieces(text) == [a, b, e]
    ensures ParseSheetDate(text) ==
      if |a| == 4 then DateFromNumbers(JsNumber(a), JsNumber(b), JsNumber(e))
      else DateFromNumbers(if |e| == 2 && JsNumber(e).Some? then Some(2000 + JsNumber(e).value) else JsNumber(e),
                           JsNumber(b), JsNumber(a))
  {
    var parts := DatePieces(text);
    assert parts[0] == a && parts[1] == b && parts[2] == e;
    assert ParseSheetDate(text) == DateOfFields(a, b, e);
  }

  /** The as-written parser on day-month-year digit fields. */
  lemma SheetDateAsWrittenOfDmyFields(dd: string, mm: string, yy: string, year: int, month: int, day: int)
    requires dd != [] && |dd| != 4 && AllDigits(dd) && AllDigits(mm) && AllDigits(yy) && yy != []
    requires JsNumber(yy) == Some(year) && JsNumber(mm) == Some(month) && JsNumber(dd) == Some(day)
    ensures ParseSheetDateAsWritten(dd + ['/'] + mm + ['/'] + yy)
      == DateOf(if |IntToString(year)| == 2 then 2000 + year else year, month, day)
  {
    DateTokenOfDigits(dd, '/', mm, '/', yy);
  }

  /** Year-month-day fields with a four-character year. */
  lemma SheetDateOfYmdFields(y: string, m: string, d: string, year: int, month: int, day: int)
    requires |y| == 4 && AllDigits(y) && AllDigits(m) && AllDigits(d) && d != []
    requires JsNumber(y) == Some(year) && JsNumber(m) == Some(month) && JsNumber(d) == Some(day)
    ensures ParseSheetDate(y + ['-'] + m + ['-'] + d) == DateOf(year, month, day)
  {
    SheetDateOfDigits(y, '-', m, '-', d);
  }

  /** Day-month-year fields: a two-character year field means 20yy. */
  lemma SheetDateOfDmyFields(dd: string, mm: string, yy: string, year: int, month: int, day: int)
    requires dd != [] && |dd| != 4 && AllDigits(dd) && AllDigits(mm) && AllDigits(yy) && yy != []
    requires JsNumber(yy) == Some(year) && JsNumber(mm) == Some(month) && JsNumber(dd) == Some(day)
    ensures ParseSheetDate(dd + ['/'] + mm + ['/'] + yy) == DateOf(if |yy| == 2 then 2000 + year else year, month, day)
  {
    SheetDateOfDigits(dd, '/', mm, '/', yy);
  }

  /** The date picker's value reads back as the date it was built from. */
  lemma InputDateRoundTrip(year: nat, month: nat, day: nat)
    ensures ParseInputDate(FormatInputDate(year, month, day)) == DateOf(year, month, day)
  {
    var y, m, d := NatToString(year), PadStart(NatToString(month), 2), PadStart(NatToString(day), 2);
    NumberOfPadded(month, 2);
    NumberOfPadded(day, 2);
    NumberOfDigits(y);
    assert FormatInputDate(year, month, day) == y + ['-'] + m + ['-'] + d;
    InputDateOfDigits(y, m, d);
  }

  /** A padded `yyyy-mm-dd` with a four-digit year reads, as a sheet date,
      as that date. */
  lemma SheetDateOfIso(year: nat, month: nat, day: nat)
    requires 1000 <= year <= 9999
    ensures ParseSheetDate(FormatInputDate(year, month, day)) == DateOf(year, month, day)
  {
    var y, m, d := NatToString(year), PadStart(NatToString(month), 2), PadStart(NatToString(day), 2);
    YearDigits(year);
    NumberOfPadded(month, 2);
    NumberOfPadded(day, 2);
    NumberOfDigits(y);
    assert FormatInputDate(year, month, day) == y + ['-'] + m + ['-'] + d;
    SheetDateOfYmdFields(y, m, d, year, month, day);
  }

  /** A year in 1000..9999 is written with four digits. */
  lemma YearDigits(year: nat)
    requires 1000 <= year <= 9999
    ensures |NatToString(year)| == 4
  {
    var q1, q2, q3 := year / 10, year / 100, year / 1000;
    assert q1 / 10 == q2 && q2 / 10 == q3;
    assert 100 <= q1 && 10 <= q2 && 1 <= q3 < 10;
    assert |NatToString(q3)| == 1;
    assert |NatToString(q2)| == 2;
    assert |NatToString(q1)| == 3;
  }

  /** A number below 100 is written with at most two digits. */
  lemma TwoDigits(n: nat)
    requires n < 100
    ensures |NatToString(n)| <= 2 && |PadStart(NatToString(n), 2)| == 2
  {
    if n >= 10 {
      assert n / 10 < 10;
      assert |NatToString(n / 10)| == 1;
    }
  }

  /** `dd/mm/yyyy` with zero-padded day and month, as sheets write dates. */
  function FormatSheetDate(day: nat, month: nat, yearText: string): string {
    PadStart(NatToString(day), 2) + "/" + PadStart(NatToString(month), 2) + "/" + yearText
  }

  /** Day-month-year text reads back as its fields; a two-character year
      field is a year of the 2000s. */
  lemma SheetDateOfDmy(day: nat, month: nat, year: nat, width: nat)
    requires day < 100
    ensures var yearText := PadStart(NatToString(year), width);
      ParseSheetDate(FormatSheetDate(day, month, yearText))
      == DateOf(if |yearText| == 2 then 2000 + year else year, month, day)
  {
    var dd, mm, yy := PadStart(NatToString(day), 2), PadStart(NatToString(month), 2), PadStart(NatToString(year), width);
    DmyFields(day, month, yy);
    NumberOfPadded(year, width);
    SheetDateOfDmyFields(dd, mm, yy, year, month, day);
  }

  /** The year rule as written reads "dd/mm/05" as the year 5, which
      `new Date` turns into 1905, where the corrected rule gives 2005. */
  lemma TwoDigitYearAsWritten(day: nat, month: nat, year: nat)
    requires day < 100 && year < 10
    ensures var text := FormatSheetDate(day, month, PadStart(NatToString(year), 2));
      ParseSheetDateAsWritten(text) == DateOf(year, month, day)
      && ParseSheetDate(text) == DateOf(2000 + year, month, day)
      && FullYear(ParseSheetDateAsWritten(text).year) == 1900 + year
  {
    TwoDigits(year);
    SheetDateOfDmy(day, month, year, 2);
    SingleDigitYearAsWritten(day, month, year);
  }

  /** The rule as written keeps a one-digit year padded to two characters. */
  lemma SingleDigitYearAsWritten(day: nat, month: nat, year: nat)
    requires day < 100 && year < 10
    ensures ParseSheetDateAsWritten(FormatSheetDate(day, month, PadStart(NatToString(year), 2))) == DateOf(year, month, day)
  {
    var dd, mm, yy := PadStart(NatToString(day), 2), PadStart(NatToString(month), 2), PadStart(NatToString(year), 2);
    DmyFields(day, month, yy);
    NumberOfPadded(year, 2);
    SingleDigitText(year);
    SheetDateAsWrittenOfDmyFields(dd, mm, yy, year, month, day);
  }

  /** The day and month fields of a formatted sheet date. */
  lemma DmyFields(day: nat, month: nat, yearText: string)
    requires day < 100
    ensures var dd, mm := PadStart(NatToString(day), 2), PadStart(NatToString(month), 2);
      FormatSheetDate(day, month, yearText) == dd + ['/'] + mm + ['/'] + yearText
      && dd != [] && |dd| == 2 && AllDigits(dd) && JsNumber(dd) == Some(day)
      && AllDigits(mm) && JsNumber(mm) == Some(month)
  {
    NumberOfPadded(day, 2);
    NumberOfPadded(month, 2);
    TwoDigits(day);
  }

  /** `String(n)` of a single digit is that digit. */
  lemma SingleDigitText(n: nat)
    requires n < 10
    ensures IntToString(n) == [DigitChar(n)]
  {
  }

  // ---------------------------------------------------------------------------
  // Date-range filter

  /** The date text `filterByDate` reads: `actual_date`, else the given column. */
  function RowDateText(row: Row, dateFieldKey: string): string {
    var actual := Col(row, "actual_date");
    if actual != "" then actual else Col(row, dateFieldKey)
  }

  /** The test `filterByDate` applies to a parsed row date: it must be
      present (an Invalid Date counts as present), a `null` bound does not
      constrain, and a comparison involving an Invalid Date is false. */
  predicate WithinBounds(rowDate: SheetDate, start: SheetDate, end: SheetDate) {
    rowDate != NullDate
    && (start == NullDate || TimeLe(start, rowDate))
    && (end == NullDate || TimeLe(rowDate, end))
  }

  /** The test of `filterByDate` on one row, with the sheet parser as written. */
  predicate InDateRange(row: Row, dateFieldKey: string, start: SheetDate, end: SheetDate) {
    WithinBounds(ParseSheetDateAsWritten(RowDateText(row, dateFieldKey)), start, end)
  }

  /** The same test with the corrected year rule. */
  predicate InDateRangeIntended(row: Row, dateFieldKey: string, start: SheetDate, end: SheetDate) {
    WithinBounds(ParseSheetDate(RowDateText(row, dateFieldKey)), start, end)
  }

  /** `filterByDate(data, dateFieldKey)` under the parsed picker bounds: the
      rows in range, in their order, each as often as it occurs. */
  function FilterByDate(rows: seq<Row>, dateFieldKey: string, start: SheetDate, end: SheetDate): (r: seq<Row>)
    ensures IsSubseq(r, rows)
    ensures forall row :: multiset(r)[row] == if InDateRange(row, dateFieldKey, start, end) then multiset(rows)[row] else 0
  {
    var keep := (row: Row) => InDateRange(row, dateFieldKey, start, end);
    FilterIsSubseq(rows, keep);
    FilterCount(rows, keep);
    Filter(rows, keep)
  }

  /** `filterByDate` with the corrected year rule. */
  function FilterByDateIntended(rows: seq<Row>, dateFieldKey: string, start: SheetDate, end: SheetDate): (r: seq<Row>)
    ensures IsSubseq(r, rows)
    ensures forall row :: multiset(r)[row] == if InDateRangeIntended(row, dateFieldKey, start, end) then multiset(rows)[row] else 0
  {
    var keep := (row: Row) => InDateRangeIntended(row, dateFieldKey, start, end);
    FilterIsSubseq(rows, keep);
    FilterCount(rows, keep);
    Filter(rows, keep)
  }

  /** The two year rules read a date text alike: in day-month-year order a
      year field that reads as a number has two characters exactly when that
      number is written with two digits (so not "05", not "+27"). */
  predicate YearRulesAgree(dateStr: string) {
    var p := DatePieces(dateStr);
    |p| == 3 && |p[0]| != 4 && JsNumber(p[2]).Some? ==>
      (|p[2]| == 2 <==> |IntToString(JsNumber(p[2]).value)| == 2)
  }

  /** Where the year rules agree, the parser as written and the corrected
      one read the same date. */
  lemma ParsersAgree(dateStr: string)
    requires YearRulesAgree(dateStr)
    ensures ParseSheetDateAsWritten(dateStr) == ParseSheetDate(dateStr)
  {
  }

  /** When every row's date text is read alike by both year rules, the
      filter as written keeps exactly the rows the corrected one keeps. */
  lemma FiltersAgree(rows: seq<Row>, dateFieldKey: string, start: SheetDate, end: SheetDate)
    requires forall i :: 0 <= i < |rows| ==> YearRulesAgree(RowDateText(rows[i], dateFieldKey))
    ensures FilterByDate(rows, dateFieldKey, start, end) == FilterByDateIntended(rows, dateFieldKey, start, end)
  {
    forall i | 0 <= i < |rows|
      ensures InDateRange(rows[i], dateFieldKey, start, end) == InDateRangeIntended(rows[i], dateFieldKey, start, end)
    {
      ParsersAgree(RowDateText(rows[i], dateFieldKey));
    }
    FilterSame(rows, (row: Row) => InDateRange(row, dateFieldKey, start, end),
                     (row: Row) => InDateRangeIntended(row, dateFieldKey, start, end));
  }

  /** A bound that is an Invalid Date rejects every row. */
  lemma InvalidBoundKeepsNothing(rows: seq<Row>, dateFieldKey: string, start: SheetDate, end: SheetDate)
    requires start == InvalidDate || end == InvalidDate
    ensures FilterByDate(rows, dateFieldKey, start, end) == []
  {
    var r := FilterByDate(rows, dateFieldKey, start, end);
    forall row ensures multiset(r)[row] == 0 {
      InvalidBoundRejects(row, dateFieldKey, start, end);
    }
    assert multiset(r) == multiset{};
  }

  lemma InvalidBoundRejects(row: Row, dateFieldKey: string, start: SheetDate, end: SheetDate)
    requires start == InvalidDate || end == InvalidDate
    ensures !InDateRange(row, dateFieldKey, start, end)
  {
    assert TimeOf(InvalidDate).None?;
  }

  /** On real calendar dates from year 100 on, the range test is the
      calendar order: start <= row date <= end. */
  lemma WithinBoundsIsCalendarOrder(y: int, m: int, d: int, ys: int, ms: int, ds: int, ye: int, me: int, de: int)
    requires ValidDate(y, m, d) && y >= 100
    requires ValidDate(ys, ms, ds) && ys >= 100 && ValidDate(ye, me, de) && ye >= 100
    ensures WithinBounds(DateOf(y, m, d), DateOf(ys, ms, ds), DateOf(ye, me, de))
      <==> DateLe(ys, ms, ds, y, m, d) && DateLe(y, m, d, ye, me, de)
  {
    TimeOfCalendar(y, m, d);
    TimeOfCalendar(ys, ms, ds);
    TimeOfCalendar(ye, me, de);
    DayOrder(ys, ms, ds, y, m, d);
    DayOrder(y, m, d, ye, me, de);
  }

  lemma TimeOfCalendar(y: int, m: int, d: int)
    requires y >= 100 && 1 <= m <= 12
    ensures TimeOf(DateOf(y, m, d)) == Some(DaysFromCivil(y, m, d))
  {
    MakeDayOfCalendar(y, m, d);
  }

  // ---------------------------------------------------------------------------
  // Stock and occupancy aggregation

  function SkuOf(row: Row): string {
    Col(row, "sku_id")
  }

  /** `parseFloat(String(getRowValue(row, 'current_qty') || 0).replace(/,/g, '')) || 0` */
  function QtyOf(row: Row): int {
    Quantity(Col(row, "current_qty"))
  }

  /** `desc || 'N/A'` */
  function DescriptionOf(row: Row): string {
    var desc := Col(row, "sku_description");
    if desc != "" then desc else "N/A"
  }

  function LocationIdOf(row: Row): string {
    Col(row, "location_id")
  }

  /** The key a row is filed under in `locationOccupancyMap`: its location id
      trimmed and upper-cased, or none when the id is empty. */
  function OccupancyKey(row: Row): Option<string> {
    var locId := LocationIdOf(row);
    if locId == "" then None else Some(ToUpper(Trim(locId)))
  }

  /** `stockMap` after the loop has seen `rows`. */
  function StockMapOf(rows: seq<Row>): Dict<StockEntry> {
    StockMapBy(rows, SkuOf, DescriptionOf, QtyOf)
  }

  /** `locationOccupancyMap` after the loop has seen `rows`. */
  function OccupancyOf(rows: seq<Row>): Dict<seq<Row>> {
    GroupBy(rows, OccupancyKey)
  }

  /** The `stockRawData.forEach` loop: the total per SKU in `stockMap` and
      the rows of each location in `locationOccupancyMap`, both objects
      updated in place row by row. */
  method AggregateStock(stockRows: seq<Row>) returns (stockMap: Dict<StockEntry>, occupancy: Dict<seq<Row>>)
    ensures stockMap == StockMapOf(stockRows)
    ensures occupancy == OccupancyOf(stockRows)
  {
    stockMap := [];
    occupancy := [];
    var i := 0;
    assert stockRows[..i] == [];
    while i < |stockRows|
      invariant 0 <= i <= |stockRows|
      invariant stockMap == StockMapOf(stockRows[..i])
      invariant occupancy == OccupancyOf(stockRows[..i])
    {
      stockMap, occupancy := VisitStockRow(stockMap, occupancy, stockRows, i);
      i := i + 1;
    }
    assert stockRows[..|stockRows|] == stockRows;
  }

  /** One pass of the `forEach` body: the row at `i` added to both maps. */
  method VisitStockRow(stockMap: Dict<StockEntry>, occupancy: Dict<seq<Row>>, stockRows: seq<Row>, i: nat)
    returns (stockMap': Dict<StockEntry>, occupancy': Dict<seq<Row>>)
    requires i < |stockRows|
    requires stockMap == StockMapOf(stockRows[..i]) && occupancy == OccupancyOf(stockRows[..i])
    ensures stockMap' == StockMapOf(stockRows[..i + 1]) && occupancy' == OccupancyOf(stockRows[..i + 1])
  {
    var row := stockRows[i];
    StockMapPrefix(stockRows, SkuOf, DescriptionOf, QtyOf, i);
    GroupByPrefix(stockRows, OccupancyKey, i);
    var sku := SkuOf(row);
    var desc := DescriptionOf(row);
    var qty := QtyOf(row);
    var locId := LocationIdOf(row);
    stockMap' := AddStockRow(stockMap, sku, desc, qty);
    occupancy' := occupancy;
    if locId != "" {
      var normLocId := ToUpper(Trim(locId));
      occupancy' := AddOccupant(occupancy, normLocId, row);
    }
  }

  /** The stock half of the loop body: create the entry the first time a
      SKU is seen, then add the quantity to it. */
  method AddStockRow(stockMap: Dict<StockEntry>, sku: string, desc: string, qty: int) returns (r: Dict<StockEntry>)
    ensures r == AddStock(stockMap, sku, desc, qty)
  {
    r := stockMap;
    if sku != "" {
      if Get(r, sku).None? {
        var created := StockEntry(sku, desc, 0);
        PutTwice(r, sku, created, created.(totalQty := qty));
        r := Put(r, sku, created);
      }
      var entry := Get(r, sku).value;
      r := Put(r, sku, entry.(totalQty := entry.totalQty + qty));
    }
  }

  /** The occupancy half: create the location's list the first time, then
      push the row onto it. */
  method AddOccupant(occupancy: Dict<seq<Row>>, normLocId: string, row: Row) returns (r: Dict<seq<Row>>)
    ensures r == AddMember(occupancy, Some(normLocId), row)
  {
    r := occupancy;
    if Get(r, normLocId).None? {
      PutTwice(r, normLocId, [], [row]);
      r := Put(r, normLocId, []);
      assert Get(r, normLocId).value + [row] == [row] == Get(occupancy, normLocId).GetOr([]) + [row];
    }
    r := Put(r, normLocId, Get(r, normLocId).value + [row]);
  }

  /** A `stockMap` value as the row the Stock tab receives. */
  function StockRow(e: StockEntry): Row {
    [("SKU_ID", e.skuId), ("SKU_Description", e.description), ("Total_Qty", NumberText(e.totalQty))]
  }

  /** `Object.values(stockMap)`, the Stock tab's data. */
  function StockData(stockRows: seq<Row>): seq<Row> {
    Map(Values(StockMapOf(stockRows)), StockRow)
  }

  /** Some row carries `sku`. */
  predicate HasSku(rows: seq<Row>, sku: string) {
    HasSkuBy(rows, SkuOf, sku)
  }

  /** Each SKU's entry in `stockMap`: present exactly when some row carries
      the SKU (the empty SKU never), with the description of the first such
      row and the quantities of all of them added up. */
  lemma StockEntryOf(rows: seq<Row>, sku: string)
    ensures Get(StockMapOf(rows), sku) ==
      if sku != "" && HasSku(rows, sku)
      then Some(StockEntry(sku, FirstDescriptionBy(rows, SkuOf, DescriptionOf, sku), SkuTotalBy(rows, SkuOf, QtyOf, sku)))
      else None
  {
    StockEntryBy(rows, SkuOf, DescriptionOf, QtyOf, sku);
  }

  /** Each SKU is a key of `stockMap` once. */
  lemma StockKeysDistinct(rows: seq<Row>)
    ensures DistinctKeys(StockMapOf(rows))
  {
    StockKeysDistinctBy(rows, SkuOf, DescriptionOf, QtyOf);
  }

  /** What a row adds to the stock totals. */
  function CountedQty(row: Row): int {
    if SkuOf(row) != "" then QtyOf(row) else 0
  }

  /** The totals of all SKUs add up to the quantities of all rows that
      carry a SKU. */
  lemma StockConservation(rows: seq<Row>)
    ensures SumValues(StockMapOf(rows), EntryQty) == SumOf(rows, CountedQty)
  {
    StockConservationBy(rows, SkuOf, DescriptionOf, QtyOf, CountedQty);
  }

  /** Each location's list holds exactly the rows whose normalised location
      id is that key, in input order, and keeps their order; a location no
      row names is absent. */
  lemma OccupancyGroups(rows: seq<Row>, key: string)
    ensures Get(OccupancyOf(rows), key) ==
      if Members(rows, OccupancyKey, key) == [] then None else Some(Members(rows, OccupancyKey, key))
    ensures IsSubseq(Members(rows, OccupancyKey, key), rows)
  {
    GroupByGet(rows, OccupancyKey, key);
    MembersSubseq(rows, OccupancyKey, key);
  }

  predicate HasLocation(row: Row) {
    LocationIdOf(row) != ""
  }

  /** Every row with a location id is filed exactly once, under one key. */
  lemma OccupancyPartition(rows: seq<Row>)
    ensures DistinctKeys(OccupancyOf(rows))
    ensures SumValues(OccupancyOf(rows), Length) == Count(rows, HasLocation)
  {
    GroupByDistinct(rows, OccupancyKey);
    GroupByPartition(rows, OccupancyKey, HasLocation);
  }

  // ---------------------------------------------------------------------------
  // Occupied count and danger stock

  /** `status && String(status).toLowerCase().includes('occupied')` */
  predicate IsOccupied(row: Row) {
    var status := Col(row, "occupancy_status");
    status != "" && Contains(ToLower(status), "occupied")
  }

  /** `occupiedCount`: the number of occupied rows. */
  function OccupiedCount(rows: seq<Row>): (n: nat)
    ensures n <= |rows|
    ensures n == |Filter(rows, IsOccupied)|
  {
    FilterLength(rows, IsOccupied);
    Count(rows, IsOccupied)
  }

  /** An occupied row whose expiry date is a real date no later than the
      cutoff, `today` + 30 days (`today` is a day number). */
  predicate IsDanger(row: Row, today: int) {
    IsOccupied(row) && ExpiresBy(row, today + 30)
  }

  /** The row's expiry date, read by the sheet parser as written, is a real
      date no later than day `cutoff`. */
  predicate ExpiresBy(row: Row, cutoff: int) {
    var expiry := ParseSheetDateAsWritten(Col(row, "expiry_date"));
    expiry.DateOf? && TimeOf(expiry).value <= cutoff
  }

  /** The danger test with the corrected year rule. */
  predicate IsDangerIntended(row: Row, today: int) {
    var expiry := ParseSheetDate(Col(row, "expiry_date"));
    IsOccupied(row) && expiry.DateOf? && TimeOf(expiry).value <= today + 30
  }

  /** `dangerStock`: the occupied rows that expire within thirty days,
      a subsequence of the occupied rows. */
  function DangerStock(rows: seq<Row>, today: int): (r: seq<Row>)
    ensures IsSubseq(r, Filter(rows, IsOccupied))
    ensures forall row :: multiset(r)[row] == if IsDanger(row, today) then multiset(rows)[row] else 0
    ensures |r| <= OccupiedCount(rows)
  {
    var keep := (row: Row) => IsDanger(row, today);
    FilterNarrower(rows, keep, IsOccupied);
    FilterCount(rows, keep);
    DangerCount(rows, today);
    Filter(rows, keep)
  }

  /** `dangerStock` with the corrected year rule. */
  function DangerStockIntended(rows: seq<Row>, today: int): (r: seq<Row>)
    ensures IsSubseq(r, Filter(rows, IsOccupied))
    ensures forall row :: multiset(r)[row] == if IsDangerIntended(row, today) then multiset(rows)[row] else 0
  {
    var keep := (row: Row) => IsDangerIntended(row, today);
    FilterNarrower(rows, keep, IsOccupied);
    FilterCount(rows, keep);
    Filter(rows, keep)
  }

  /** When both year rules read every expiry date alike, the danger list as
      written is the corrected one. */
  lemma DangerAgrees(rows: seq<Row>, today: int)
    requires forall i :: 0 <= i < |rows| ==> YearRulesAgree(Col(rows[i], "expiry_date"))
    ensures DangerStock(rows, today) == DangerStockIntended(rows, today)
  {
    forall i | 0 <= i < |rows|
      ensures IsDanger(rows[i], today) == IsDangerIntended(rows[i], today)
    {
      ParsersAgree(Col(rows[i], "expiry_date"));
    }
    FilterSame(rows, (row: Row) => IsDanger(row, today), (row: Row) => IsDangerIntended(row, today));
  }

  lemma DangerCount(rows: seq<Row>, today: int)
    ensures |Filter(rows, (row: Row) => IsDanger(row, today))| <= OccupiedCount(rows)
  {
    var keep := (row: Row) => IsDanger(row, today);
    FilterLength(rows, keep);
    CountImplies(rows, keep, IsOccupied);
    assert OccupiedCount(rows) == Count(rows, IsOccupied);
  }

  // ---------------------------------------------------------------------------
  // Normalised rows and the totals

  /** Numbers the code stores in a row are kept as their decimal text. */
  function NumberText(n: int): string {
    IntToString(n)
  }

  /** The named fields of an inbound row, before the row's own columns are
      spread over them. */
  function InboundNamed(grnId: string, arrivalTime: string, vehicleNumber: string, driverName: string,
                        invoiceNumber: string, customer: string, actualDate: string, pallets: int, boxes: int): Row {
    [("type", "inbound"),
     ("GRN_ID", grnId),
     ("Arrival_Time", arrivalTime),
     ("Vehicle_Number", vehicleNumber),
     ("Driver_Name", driverName),
     ("Invoice_Number", invoiceNumber),
     ("Customer_Name", customer),
     ("Actual_Date", actualDate),
     ("Sum_of_Pallet", NumberText(pallets)),
     ("Sum_of_Box", NumberText(boxes))]
  }

  function InboundFields(row: Row): Row {
    InboundNamed(Col(row, "grn_id"), Col(row, "arrival_time"), Col(row, "vehicle_number"), Col(row, "driver_name"),
                 Col(row, "invoice_number"), Col(row, "customer"), Col(row, "actual_date"),
                 Quantity(Col(row, "sum_of_pallet")), Quantity(Col(row, "sum_of_box")))
  }

  /** `{ type: 'inbound', GRN_ID: ..., ...row }` */
  function NormalizeInbound(row: Row): Row {
    Spread(InboundFields(row), row)
  }

  /** The named fields of an outbound row. */
  function OutboundNamed(actualDate: string, dnId: string, orderDate: string, status: string, customer: string,
                         pallets: int, boxes: int): Row {
    [("type", "outbound"),
     ("Actual_Date", actualDate),
     ("DN_ID", dnId),
     ("Order_Date", orderDate),
     ("Status", status),
     ("Customer_Name", customer),
     ("Sum_of_Dispatched_Pallet", NumberText(pallets)),
     ("Sum_of_Dispatched_Boxes", NumberText(boxes))]
  }

  function OutboundFields(row: Row): Row {
    OutboundNamed(Col(row, "actual_date"), Col(row, "dn_id"), Col(row, "order_date"), Col(row, "status"),
                  Col(row, "customer"), Quantity(Col(row, "sum_of_dispatched_pallet")),
                  Quantity(Col(row, "sum_of_dispatched_boxes")))
  }

  /** `{ type: 'outbound', Actual_Date: ..., ...row }` */
  function NormalizeOutbound(row: Row): Row {
    Spread(OutboundFields(row), row)
  }

  lemma InboundNamedNumbers(grnId: string, arrivalTime: string, vehicleNumber: string, driverName: string,
                            invoiceNumber: string, customer: string, actualDate: string, pallets: int, boxes: int)
    ensures var named := InboundNamed(grnId, arrivalTime, vehicleNumber, driverName, invoiceNumber, customer, actualDate, pallets, boxes);
      Lookup(named, "Sum_of_Pallet") == Some(NumberText(pallets)) && Lookup(named, "Sum_of_Box") == Some(NumberText(boxes))
  {
    var named := InboundNamed(grnId, arrivalTime, vehicleNumber, driverName, invoiceNumber, customer, actualDate, pallets, boxes);
    GetFirst(named, "Sum_of_Pallet", 8);
    GetFirst(named, "Sum_of_Box", 9);
  }

  lemma OutboundNamedNumbers(actualDate: string, dnId: string, orderDate: string, status: string, customer: string,
                             pallets: int, boxes: int)
    ensures var named := OutboundNamed(actualDate, dnId, orderDate, status, customer, pallets, boxes);
      Lookup(named, "Sum_of_Dispatched_Pallet") == Some(NumberText(pallets))
      && Lookup(named, "Sum_of_Dispatched_Boxes") == Some(NumberText(boxes))
  {
    var named := OutboundNamed(actualDate, dnId, orderDate, status, customer, pallets, boxes);
    GetFirst(named, "Sum_of_Dispatched_Pallet", 6);
    GetFirst(named, "Sum_of_Dispatched_Boxes", 7);
  }

  /** `Number(row[key]) || 0` */
  function NumberField(row: Row, key: string): int {
    NumberOrZero(JsString(Lookup(row, key)))
  }

  /** What a total reads from one raw row for field `key`: the row's own
      column of exactly that name when it has one (read by `Number`, with no
      comma stripping), otherwise the loosely matched column's quantity. */
  function OwnOrParsed(row: Row, key: string, column: string): int {
    if Lookup(row, key).Some? then NumberOrZero(Lookup(row, key).value) else Quantity(Col(row, column))
  }

  /** A named number field after the spread reads as OwnOrParsed. */
  lemma SpreadNumberField(named: Row, row: Row, key: string, column: string)
    requires Lookup(named, key) == Some(NumberText(Quantity(Col(row, column))))
    ensures NumberField(Spread(named, row), key) == OwnOrParsed(row, key, column)
  {
    NumberOfString(Quantity(Col(row, column)));
  }

  function RawInboundPallets(row: Row): int { OwnOrParsed(row, "Sum_of_Pallet", "sum_of_pallet") }
  function RawInboundBoxes(row: Row): int { OwnOrParsed(row, "Sum_of_Box", "sum_of_box") }
  function RawOutboundPallets(row: Row): int { OwnOrParsed(row, "Sum_of_Dispatched_Pallet", "sum_of_dispatched_pallet") }
  function RawOutboundBoxes(row: Row): int { OwnOrParsed(row, "Sum_of_Dispatched_Boxes", "sum_of_dispatched_boxes") }

  function InboundPallets(row: Row): int { NumberField(row, "Sum_of_Pallet") }
  function InboundBoxes(row: Row): int { NumberField(row, "Sum_of_Box") }
  function OutboundPallets(row: Row): int { NumberField(row, "Sum_of_Dispatched_Pallet") }
  function OutboundBoxes(row: Row): int { NumberField(row, "Sum_of_Dispatched_Boxes") }

  lemma InboundPalletsRead(row: Row)
    ensures InboundPallets(NormalizeInbound(row)) == RawInboundPallets(row)
  {
    var named := InboundFields(row);
    InboundNamedNumbers(Col(row, "grn_id"), Col(row, "arrival_time"), Col(row, "vehicle_number"), Col(row, "driver_name"),
      Col(row, "invoice_number"), Col(row, "customer"), Col(row, "actual_date"),
      Quantity(Col(row, "sum_of_pallet")), Quantity(Col(row, "sum_of_box")));
    SpreadNumberField(named, row, "Sum_of_Pallet", "sum_of_pallet");
  }

  lemma InboundBoxesRead(row: Row)
    ensures InboundBoxes(NormalizeInbound(row)) == RawInboundBoxes(row)
  {
    var named := InboundFields(row);
    InboundNamedNumbers(Col(row, "grn_id"), Col(row, "arrival_time"), Col(row, "vehicle_number"), Col(row, "driver_name"),
      Col(row, "invoice_number"), Col(row, "customer"), Col(row, "actual_date"),
      Quantity(Col(row, "sum_of_pallet")), Quantity(Col(row, "sum_of_box")));
    SpreadNumberField(named, row, "Sum_of_Box", "sum_of_box");
  }

  lemma OutboundPalletsRead(row: Row)
    ensures OutboundPallets(NormalizeOutbound(row)) == RawOutboundPallets(row)
  {
    var named := OutboundFields(row);
    OutboundNamedNumbers(Col(row, "actual_date"), Col(row, "dn_id"), Col(row, "order_date"), Col(row, "status"),
      Col(row, "customer"), Quantity(Col(row, "sum_of_dispatched_pallet")),
      Quantity(Col(row, "sum_of_dispatched_boxes")));
    SpreadNumberField(named, row, "Sum_of_Dispatched_Pallet", "sum_of_dispatched_pallet");
  }

  lemma OutboundBoxesRead(row: Row)
    ensures OutboundBoxes(NormalizeOutbound(row)) == RawOutboundBoxes(row)
  {
    var named := OutboundFields(row);
    OutboundNamedNumbers(Col(row, "actual_date"), Col(row, "dn_id"), Col(row, "order_date"), Col(row, "status"),
      Col(row, "customer"), Quantity(Col(row, "sum_of_dispatched_pallet")),
      Quantity(Col(row, "sum_of_dispatched_boxes")));
    SpreadNumberField(named, row, "Sum_of_Dispatched_Boxes", "sum_of_dispatched_boxes");
  }

  /** The picker's `dateRange` as typed. */
  datatype DateRange = DateRange(start: string, end: string)

  function FilteredInboundRaw(rawInbound: seq<Row>, range: DateRange): seq<Row> {
    FilterByDate(rawInbound, "arrival_time", ParseInputDate(range.start), ParseInputDate(range.end))
  }

  function FilteredOutboundRaw(rawOutbound: seq<Row>, range: DateRange): seq<Row> {
    FilterByDate(rawOutbound, "actual_date", ParseInputDate(range.start), ParseInputDate(range.end))
  }

  /** `inboundNormalized` */
  function FilteredInbound(rawInbound: seq<Row>, range: DateRange): seq<Row> {
    Map(FilteredInboundRaw(rawInbound, range), NormalizeInbound)
  }

  /** `outboundNormalized` */
  function FilteredOutbound(rawOutbound: seq<Row>, range: DateRange): seq<Row> {
    Map(FilteredOutboundRaw(rawOutbound, range), NormalizeOutbound)
  }

  datatype FlowStats = FlowStats(count: int, palletCount: int, boxCount: int)

  /** `stats`: `inbound.vehicleCount` and `outbound.entryCount` are the counts. */
  datatype Stats = Stats(inbound: FlowStats, outbound: FlowStats)

  /** The `stats` totals: counts of the filtered rows and `reduce` sums of
      the normalised pallet and box fields. */
  function ComputeStats(rawInbound: seq<Row>, rawOutbound: seq<Row>, range: DateRange): Stats {
    var inbound := FilteredInbound(rawInbound, range);
    var outbound := FilteredOutbound(rawOutbound, range);
    Stats(FlowStats(|FilteredInboundRaw(rawInbound, range)|, SumOf(inbound, InboundPallets), SumOf(inbound, InboundBoxes)),
          FlowStats(|FilteredOutboundRaw(rawOutbound, range)|, SumOf(outbound, OutboundPallets), SumOf(outbound, OutboundBoxes)))
  }

  /** The totals count the rows in range and add up, row by row, the value
      each raw row supplies for the field. */
  lemma StatsTotals(rawInbound: seq<Row>, rawOutbound: seq<Row>, range: DateRange)
    ensures var s := ComputeStats(rawInbound, rawOutbound, range);
      var inRows, outRows := FilteredInboundRaw(rawInbound, range), FilteredOutboundRaw(rawOutbound, range);
      s.inbound.count == |FilteredInbound(rawInbound, range)|
      && s.outbound.count == |FilteredOutbound(rawOutbound, range)|
      && s.inbound.palletCount == SumOf(inRows, RawInboundPallets)
      && s.inbound.boxCount == SumOf(inRows, RawInboundBoxes)
      && s.outbound.palletCount == SumOf(outRows, RawOutboundPallets)
      && s.outbound.boxCount == SumOf(outRows, RawOutboundBoxes)
  {
    forall row: Row ensures InboundPallets(NormalizeInbound(row)) == RawInboundPallets(row) {
      InboundPalletsRead(row);
    }
    forall row: Row ensures InboundBoxes(NormalizeInbound(row)) == RawInboundBoxes(row) {
      InboundBoxesRead(row);
    }
    forall row: Row ensures OutboundPallets(NormalizeOutbound(row)) == RawOutboundPallets(row) {
      OutboundPalletsRead(row);
    }
    forall row: Row ensures OutboundBoxes(NormalizeOutbound(row)) == RawOutboundBoxes(row) {
      OutboundBoxesRead(row);
    }
    var inRows, outRows := FilteredInboundRaw(rawInbound, range), FilteredOutboundRaw(rawOutbound, range);
    SumOfMap(inRows, NormalizeInbound, InboundPallets, RawInboundPallets);
    SumOfMap(inRows, NormalizeInbound, InboundBoxes, RawInboundBoxes);
    SumOfMap(outRows, NormalizeOutbound, OutboundPallets, RawOutboundPallets);
    SumOfMap(outRows, NormalizeOutbound, OutboundBoxes, RawOutboundBoxes);
  }
}
