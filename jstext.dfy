/** The JavaScript string and number built-ins the dashboard uses, over
    `seq<char>`. Case mapping is ASCII-only; numbers are integers (`Number`,
    `parseFloat` and `parseInt` on text with a fraction or an exponent are
    outside this model, see README). `None` stands for `NaN`. */
module JsText {
  import opened Wrappers

  predicate IsDigit(c: char) { '0' <= c <= '9' }
  predicate IsUpper(c: char) { 'A' <= c <= 'Z' }
  predicate IsLower(c: char) { 'a' <= c <= 'z' }

  /** The characters `String.prototype.trim` and the number parsers skip:
      ECMAScript WhiteSpace and LineTerminator code points. */
  predicate IsSpace(c: char) {
    var n := c as int;
    (9 <= n <= 13) || n == 32 || n == 0xA0 || n == 0x1680 || (0x2000 <= n <= 0x200A)
    || n == 0x2028 || n == 0x2029 || n == 0x202F || n == 0x205F || n == 0x3000 || n == 0xFEFF
  }

  function LowerChar(c: char): char {
    if IsUpper(c) then (c as int + 32) as char else c
  }

  function UpperChar(c: char): char {
    if IsLower(c) then (c as int - 32) as char else c
  }

  /** `s.toLowerCase()` */
  function ToLower(s: string): (r: string)
    ensures |r| == |s|
    ensures forall i :: 0 <= i < |r| ==> !IsUpper(r[i])
  {
    seq(|s|, i requires 0 <= i < |s| => LowerChar(s[i]))
  }

  /** `s.toUpperCase()` */
  function ToUpper(s: string): (r: string)
    ensures |r| == |s|
    ensures forall i :: 0 <= i < |r| ==> !IsLower(r[i])
  {
    seq(|s|, i requires 0 <= i < |s| => UpperChar(s[i]))
  }

  /** Lower-casing forgets an earlier upper-casing. */
  lemma LowerOfUpper(s: string)
    ensures ToLower(ToUpper(s)) == ToLower(s)
  {
    forall i | 0 <= i < |s| ensures ToLower(ToUpper(s))[i] == ToLower(s)[i] {
      assert ToUpper(s)[i] == UpperChar(s[i]);
    }
  }

  /** The leading white space removed. */
  function TrimStart(s: string): (r: string)
    ensures |r| <= |s| && r == s[|s| - |r|..]
    ensures r == [] || !IsSpace(r[0])
    ensures forall i :: 0 <= i < |s| - |r| ==> IsSpace(s[i])
  {
    if s != [] && IsSpace(s[0]) then TrimStart(s[1..]) else s
  }

  /** The trailing white space removed. */
  function TrimEnd(s: string): (r: string)
    ensures |r| <= |s| && r == s[..|r|]
    ensures r == [] || !IsSpace(r[|r| - 1])
    ensures forall i :: |r| <= i < |s| ==> IsSpace(s[i])
  {
    if s != [] && IsSpace(s[|s| - 1]) then TrimEnd(s[..|s| - 1]) else s
  }

  /** `s.trim()` */
  function Trim(s: string): string {
    TrimEnd(TrimStart(s))
  }

  /** `t` occurs in `s` starting at position `i`. */
  predicate OccursAt(s: string, t: string, i: int) {
    0 <= i <= |s| - |t| && s[i..i + |t|] == t
  }

  /** `s.trim()` is the infix of `s` between white-space margins and
      neither starts nor ends with white space. */
  lemma TrimIsInfix(s: string)
    ensures var r := Trim(s);
      && (r == [] || (!IsSpace(r[0]) && !IsSpace(r[|r| - 1])))
      && exists i :: OccursAt(s, r, i)
           && (forall j :: 0 <= j < i ==> IsSpace(s[j]))
           && (forall j :: i + |r| <= j < |s| ==> IsSpace(s[j]))
  {
    var t := TrimStart(s);
    var r := TrimEnd(t);
    var i := |s| - |t|;
    assert s[i..i + |r|] == t[..|r|];
    assert OccursAt(s, r, i);
    assert r != [] ==> r[0] == t[0];
    forall j | i + |r| <= j < |s| ensures IsSpace(s[j]) {
      assert s[j] == t[j - i];
    }
  }

  /** Text without white space at either end is its own trim. */
  lemma TrimNoSpace(s: string)
    requires s == [] || (!IsSpace(s[0]) && !IsSpace(s[|s| - 1]))
    ensures Trim(s) == s
  {
  }

  predicate StartsWith(s: string, p: string) {
    |p| <= |s| && s[..|p|] == p
  }

  /** `s.includes(t)`, scanning start positions left to right. */
  predicate Contains(s: string, t: string)
    decreases |s|
  {
    StartsWith(s, t) || (s != [] && Contains(s[1..], t))
  }

  /** Contains agrees with the positional definition of an occurrence. */
  lemma {:induction false} ContainsIff(s: string, t: string)
    ensures Contains(s, t) <==> exists i :: OccursAt(s, t, i)
    decreases |s|
  {
    if StartsWith(s, t) {
      assert OccursAt(s, t, 0);
    }
    if s != [] {
      ContainsIff(s[1..], t);
      if Contains(s[1..], t) {
        var i :| OccursAt(s[1..], t, i);
        assert s[i + 1..i + 1 + |t|] == s[1..][i..i + |t|];
        assert OccursAt(s, t, i + 1);
      }
      if exists i :: OccursAt(s, t, i) {
        var i :| OccursAt(s, t, i);
        if i > 0 {
          assert s[1..][i - 1..i - 1 + |t|] == s[i..i + |t|];
          assert OccursAt(s[1..], t, i - 1);
        }
      }
    }
  }

  /** Every text includes the empty text. */
  lemma ContainsEmpty(s: string)
    ensures Contains(s, "")
  {
  }

  /** `s.split(c)` for a single-character separator `c`, and `s.split(re)` for
      a one-character class `re`: the pieces between separators, at least one. */
  function SplitAny(s: string, seps: set<char>): (parts: seq<string>)
    ensures |parts| >= 1
    ensures forall i, j :: 0 <= i < |parts| && 0 <= j < |parts[i]| ==> parts[i][j] !in seps
  {
    if s == [] then [[]]
    else
      var rest := SplitAny(s[1..], seps);
      if s[0] in seps then [[]] + rest else [[s[0]] + rest[0]] + rest[1..]
  }

  /** `parts.join(sep)` */
  function Join(parts: seq<string>, sep: string): string {
    if parts == [] then ""
    else if |parts| == 1 then parts[0]
    else parts[0] + sep + Join(parts[1..], sep)
  }

  /** A character in neither the pieces nor the separator is not in the
      joined text. */
  lemma {:induction false} JoinAvoids(parts: seq<string>, sep: string, c: char)
    requires c !in sep && forall i :: 0 <= i < |parts| ==> c !in parts[i]
    ensures c !in Join(parts, sep)
    decreases |parts|
  {
    if |parts| > 1 {
      JoinAvoids(parts[1..], sep, c);
    }
  }

  /** Splitting on one separator and joining the pieces back gives the input. */
  lemma {:induction false} JoinSplit(s: string, c: char)
    ensures Join(SplitAny(s, {c}), [c]) == s
    decreases |s|
  {
    if s != [] {
      var rest := SplitAny(s[1..], {c});
      JoinSplit(s[1..], c);
      if s[0] == c {
        assert SplitAny(s, {c}) == [[]] + rest;
        assert ([[]] + rest)[1..] == rest;
      } else {
        var parts := [[s[0]] + rest[0]] + rest[1..];
        assert SplitAny(s, {c}) == parts;
        if |rest| == 1 {
          assert Join(parts, [c]) == [s[0]] + rest[0];
        } else {
          assert parts[1..] == rest[1..];
          assert Join(rest, [c]) == rest[0] + [c] + Join(rest[1..], [c]);
        }
      }
    }
  }

  /** Text without a separator is a single piece. */
  lemma {:induction false} SplitNone(s: string, seps: set<char>)
    requires forall i :: 0 <= i < |s| ==> s[i] !in seps
    ensures SplitAny(s, seps) == [s]
    decreases |s|
  {
    if s != [] {
      SplitNone(s[1..], seps);
      assert s[0] !in seps;
      assert [s[0]] + s[1..] == s;
    }
  }

  /** A piece without separators followed by a separator splits off first. */
  lemma {:induction false} SplitFirst(a: string, c: char, rest: string, seps: set<char>)
    requires forall i :: 0 <= i < |a| ==> a[i] !in seps
    requires c in seps
    ensures SplitAny(a + [c] + rest, seps) == [a] + SplitAny(rest, seps)
    decreases |a|
  {
    var s := a + [c] + rest;
    if a == [] {
      assert s[1..] == rest;
    } else {
      assert s[1..] == a[1..] + [c] + rest;
      SplitFirst(a[1..], c, rest, seps);
      var tail := SplitAny(s[1..], seps);
      assert tail == [a[1..]] + SplitAny(rest, seps);
      assert s[0] == a[0] && s[0] !in seps;
      assert SplitAny(s, seps) == [[a[0]] + tail[0]] + tail[1..];
      assert [a[0]] + a[1..] == a;
    }
  }

  /** Joining pieces that hold no separator and splitting the result gives
      the pieces back. */
  lemma {:induction false} SplitJoin(parts: seq<string>, c: char)
    requires |parts| >= 1
    requires forall i :: 0 <= i < |parts| ==> c !in parts[i]
    ensures SplitAny(Join(parts, [c]), {c}) == parts
    decreases |parts|
  {
    assert forall j :: 0 <= j < |parts[0]| ==> parts[0][j] in parts[0];
    if |parts| == 1 {
      SplitNone(parts[0], {c});
    } else {
      SplitJoin(parts[1..], c);
      SplitFirst(parts[0], c, Join(parts[1..], [c]), {c});
      assert parts[0] + [c] + Join(parts[1..], [c]) == Join(parts, [c]);
      assert [parts[0]] + parts[1..] == parts;
    }
  }

  /** The number of separators in `s` is one less than the number of pieces. */
  lemma {:induction false} SplitCount(s: string, seps: set<char>)
    ensures |SplitAny(s, seps)| == 1 + |SeparatorsOf(s, seps)|
    decreases |s|
  {
    if s != [] {
      SplitCount(s[1..], seps);
    }
  }

  /** The separators of `s`, in order. */
  function SeparatorsOf(s: string, seps: set<char>): string {
    if s == [] then [] else (if s[0] in seps then [s[0]] else []) + SeparatorsOf(s[1..], seps)
  }

  /** The text before the first space (`s.split(' ')[0]`). */
  function FirstToken(s: string): (r: string)
    ensures StartsWith(s, r) && ' ' !in r
    ensures |r| == |s| || s[|r|] == ' '
  {
    var parts := SplitAny(s, {' '});
    FirstTokenPrefix(s);
    parts[0]
  }

  lemma {:induction false} FirstTokenPrefix(s: string)
    ensures var r := SplitAny(s, {' '})[0];
      StartsWith(s, r) && (|r| == |s| || s[|r|] == ' ')
    decreases |s|
  {
    if s != [] && s[0] != ' ' {
      FirstTokenPrefix(s[1..]);
    }
  }

  /** Text without a space is its own first token. */
  lemma FirstTokenNoSpace(s: string)
    requires ' ' !in s
    ensures FirstToken(s) == s
  {
    assert forall i :: 0 <= i < |s| ==> s[i] in s;
    SplitNone(s, {' '});
  }

  /** `s.replace(/c/g, '')` */
  function RemoveAll(s: string, c: char): (r: string)
    ensures c !in r
    ensures |r| <= |s|
  {
    if s == [] then [] else (if s[0] == c then [] else [s[0]]) + RemoveAll(s[1..], c)
  }

  /** `s.padStart(n, '0')` */
  function PadStart(s: string, n: nat): (r: string)
    ensures |r| == if |s| >= n then |s| else n
    ensures r[|r| - |s|..] == s
    ensures forall i :: 0 <= i < |r| - |s| ==> r[i] == '0'
  {
    if |s| >= n then s else seq(n - |s|, _ => '0') + s
  }

  // ---------------------------------------------------------------------------
  // Decimal digits

  predicate AllDigits(s: string) {
    forall i :: 0 <= i < |s| ==> IsDigit(s[i])
  }

  function DigitValue(c: char): nat
    requires IsDigit(c)
  {
    c as int - '0' as int
  }

  function DigitChar(d: nat): (c: char)
    requires d < 10
    ensures IsDigit(c) && DigitValue(c) == d
  {
    ('0' as int + d) as char
  }

  /** The value of a string of decimal digits (leading zeros allowed). */
  function DigitsValue(s: string): nat
    requires AllDigits(s)
  {
    if s == [] then 0 else 10 * DigitsValue(s[..|s| - 1]) + DigitValue(s[|s| - 1])
  }

  /** `String(n)` for a non-negative integer: the shortest decimal spelling. */
  function NatToString(n: nat): (r: string)
    ensures r != [] && AllDigits(r)
    ensures DigitsValue(r) == n
    ensures r[0] == '0' ==> n == 0
  {
    if n < 10 then [DigitChar(n)]
    else
      var r := NatToString(n / 10) + [DigitChar(n % 10)];
      assert r[..|r| - 1] == NatToString(n / 10);
      r
  }

  /** `String(i)` */
  function IntToString(i: int): (r: string)
    ensures r != [] && !IsSpace(r[0]) && !IsSpace(r[|r| - 1])
  {
    if i < 0 then "-" + NatToString(-i) else NatToString(i)
  }

  /** Leading zeros do not change the value of a digit string. */
  lemma {:induction false} DigitsLeadingZeros(z: string, s: string)
    requires AllDigits(s) && forall i :: 0 <= i < |z| ==> z[i] == '0'
    ensures AllDigits(z + s) && DigitsValue(z + s) == DigitsValue(s)
    decreases |s|
  {
    if s == [] {
      DigitsZeros(z);
      assert z + s == z;
    } else {
      assert (z + s)[..|z + s| - 1] == z + s[..|s| - 1];
      DigitsLeadingZeros(z, s[..|s| - 1]);
    }
  }

  lemma {:induction false} DigitsZeros(z: string)
    requires forall i :: 0 <= i < |z| ==> z[i] == '0'
    ensures AllDigits(z) && DigitsValue(z) == 0
    decreases |z|
  {
    if z != [] {
      DigitsZeros(z[..|z| - 1]);
    }
  }

  // ---------------------------------------------------------------------------
  // Number parsing

  /** `Number(s)` on text: white space trimmed, empty text is 0, otherwise an
      optionally signed run of decimal digits; anything else is `NaN`. */
  function JsNumber(s: string): Option<int>
  {
    var t := Trim(s);
    if t == [] then Some(0)
    else if |t| > 1 && t[0] == '+' && AllDigits(t[1..]) then Some(DigitsValue(t[1..]))
    else if |t| > 1 && t[0] == '-' && AllDigits(t[1..]) then Some(0 - DigitsValue(t[1..]))
    else if AllDigits(t) then Some(DigitsValue(t))
    else None
  }

  /** `Number(x) || 0` on text: `NaN` counts as 0. */
  function NumberOrZero(s: string): int {
    JsNumber(s).GetOr(0)
  }

  /** `Number(String(i)) == i`. */
  lemma NumberOfString(i: int)
    ensures JsNumber(IntToString(i)) == Some(i)
  {
    var r := IntToString(i);
    TrimNoSpace(r);
    if i < 0 {
      assert r[1..] == NatToString(-i);
    }
  }

  /** A zero-padded decimal is a digit string that `Number` reads as its
      value. */
  lemma NumberOfPadded(n: nat, width: nat)
    ensures var p := PadStart(NatToString(n), width);
      p != [] && AllDigits(p) && JsNumber(p) == Some(n)
  {
    var s := NatToString(n);
    var p := PadStart(s, width);
    var z := p[..|p| - |s|];
    assert p == z + s;
    DigitsLeadingZeros(z, s);
    NumberOfDigits(p);
  }

  /** `Number` reads a non-empty digit string by its value. */
  lemma NumberOfDigits(d: string)
    requires d != [] && AllDigits(d)
    ensures JsNumber(d) == Some(DigitsValue(d))
  {
    assert IsDigit(d[0]) && IsDigit(d[|d| - 1]);
    TrimNoSpace(d);
  }

  /** The longest prefix of `s` made of digits. */
  function LeadingDigits(s: string): (d: string)
    ensures AllDigits(d) && StartsWith(s, d)
    ensures |d| == |s| || !IsDigit(s[|d|])
  {
    if s != [] && IsDigit(s[0]) then [s[0]] + LeadingDigits(s[1..]) else []
  }

  /** `parseFloat(s)` / `parseInt(s, 10)` on integers: leading white space,
      an optional sign, then the longest run of digits; no digits is `NaN`. */
  function ParsePrefixInt(s: string): Option<int>
  {
    var t := TrimStart(s);
    if t != [] && (t[0] == '+' || t[0] == '-') then
      var d := LeadingDigits(t[1..]);
      var v: int := if t[0] == '-' then 0 - DigitsValue(d) else DigitsValue(d);
      if d == [] then None else Some(v)
    else
      var d := LeadingDigits(t);
      if d == [] then None else Some(DigitsValue(d))
  }

  /** Whatever follows a number that does not start with a digit is ignored
      by the prefix parse. */
  lemma ParsePrefixStops(i: int, rest: string)
    requires rest == [] || !IsDigit(rest[0])
    ensures ParsePrefixInt(IntToString(i) + rest) == Some(i)
  {
    var s := IntToString(i) + rest;
    if i < 0 {
      var digits := NatToString(-i);
      assert s == "-" + digits + rest;
      assert s[0] == '-' && s[1..] == digits + rest;
      ParseSignedStops(s, digits, rest);
    } else {
      ParseUnsignedStops(NatToString(i), rest);
    }
  }

  lemma TrimStartUnspaced(s: string)
    requires s != [] && !IsSpace(s[0])
    ensures TrimStart(s) == s
  {
  }

  lemma ParseUnsignedStops(digits: string, rest: string)
    requires digits != [] && AllDigits(digits)
    requires rest == [] || !IsDigit(rest[0])
    ensures ParsePrefixInt(digits + rest) == Some(DigitsValue(digits))
  {
    var s := digits + rest;
    assert s[0] == digits[0];
    TrimStartUnspaced(s);
    LeadingDigitsOf(digits, rest);
  }

  lemma ParseSignedStops(s: string, digits: string, rest: string)
    requires digits != [] && AllDigits(digits)
    requires rest == [] || !IsDigit(rest[0])
    requires s != [] && s[0] == '-' && s[1..] == digits + rest
    ensures ParsePrefixInt(s) == Some(0 - DigitsValue(digits))
  {
    TrimStartUnspaced(s);
    LeadingDigitsOf(digits, rest);
  }

  lemma {:induction false} LeadingDigitsOf(d: string, rest: string)
    requires AllDigits(d)
    requires rest == [] || !IsDigit(rest[0])
    ensures LeadingDigits(d + rest) == d
    decreases |d|
  {
    if d != [] {
      assert (d + rest)[1..] == d[1..] + rest;
      LeadingDigitsOf(d[1..], rest);
    }
  }

  /** `parseFloat(String(x).replace(/,/g, '')) || 0`: a quantity read with
      thousands separators dropped; unreadable text counts as 0. */
  function Quantity(s: string): int {
    ParsePrefixInt(RemoveAll(s, ',')).GetOr(0)
  }

  // ---------------------------------------------------------------------------
  // String order

  /** `a <= b` on strings: lexicographic by character. */
  predicate StrLe(a: string, b: string)
    decreases |a|
  {
    a == [] || (b != [] && (a[0] < b[0] || (a[0] == b[0] && StrLe(a[1..], b[1..]))))
  }

  lemma {:induction false} StrLeReflexive(a: string)
    ensures StrLe(a, a)
    decreases |a|
  {
    if a != [] {
      StrLeReflexive(a[1..]);
    }
  }

  lemma {:induction false} StrLeTotal(a: string, b: string)
    ensures StrLe(a, b) || StrLe(b, a)
    decreases |a|
  {
    if a != [] && b != [] && a[0] == b[0] {
      StrLeTotal(a[1..], b[1..]);
    }
  }

  lemma {:induction false} StrLeTransitive(a: string, b: string, c: string)
    requires StrLe(a, b) && StrLe(b, c)
    ensures StrLe(a, c)
    decreases |a|
  {
    if a != [] && a[0] == b[0] && b[0] == c[0] {
      StrLeTransitive(a[1..], b[1..], c[1..]);
    }
  }

  lemma {:induction false} StrLeAntisymmetric(a: string, b: string)
    requires StrLe(a, b) && StrLe(b, a)
    ensures a == b
    decreases |a|
  {
    if a != [] {
      StrLeAntisymmetric(a[1..], b[1..]);
    }
  }

  /** Texts with heads of one length compare by their heads, and by their
      tails when the heads are equal. */
  lemma {:induction false} StrLeConcat(a1: string, b1: string, a2: string, b2: string)
    requires |a1| == |a2|
    ensures StrLe(a1 + b1, a2 + b2) <==> if a1 == a2 then StrLe(b1, b2) else StrLe(a1, a2)
    decreases |a1|
  {
    if a1 != [] {
      assert (a1 + b1)[0] == a1[0] && (a2 + b2)[0] == a2[0];
      assert (a1 + b1)[1..] == a1[1..] + b1 && (a2 + b2)[1..] == a2[1..] + b2;
      StrLeConcat(a1[1..], b1, a2[1..], b2);
      if a1[0] == a2[0] && a1[1..] == a2[1..] {
        assert a1 == [a1[0]] + a1[1..] && a2 == [a2[0]] + a2[1..];
      }
    } else {
      assert a1 + b1 == b1 && a2 + b2 == b2;
    }
  }

  /** On digit strings of one length, string order is numeric order. */
  lemma {:induction false} StrLeDigits(a: string, b: string)
    requires |a| == |b| && AllDigits(a) && AllDigits(b)
    ensures StrLe(a, b) <==> DigitsValue(a) <= DigitsValue(b)
    decreases |a|
  {
    if a != [] {
      StrLeDigits(a[1..], b[1..]);
      DigitsSplitFirst(a);
      DigitsSplitFirst(b);
      DigitsBound(a[1..]);
      DigitsBound(b[1..]);
      LeadingDigitOrder(DigitValue(a[0]), DigitValue(b[0]), DigitsValue(a[1..]), DigitsValue(b[1..]), Pow10(|a| - 1));
    }
  }

  /** Numbers with the same number of digits compare by their leading digit first. */
  lemma LeadingDigitOrder(x: nat, y: nat, rx: nat, ry: nat, p: nat)
    requires rx < p && ry < p
    ensures x * p + rx <= y * p + ry <==> x < y || (x == y && rx <= ry)
  {
    if x < y {
      MulLe(x + 1, y, p);
      assert (x + 1) * p == x * p + p;
    } else if x > y {
      MulLe(y + 1, x, p);
      assert (y + 1) * p == y * p + p;
    }
  }

  lemma MulLe(a: nat, b: nat, p: nat)
    requires a <= b
    ensures a * p <= b * p
  {
    var k := b - a;
    assert b * p == a * p + k * p;
  }

  /** The value of a digit string read from its first digit. */
  lemma {:induction false} DigitsSplitFirst(s: string)
    requires s != [] && AllDigits(s)
    ensures DigitsValue(s) == DigitValue(s[0]) * Pow10(|s| - 1) + DigitsValue(s[1..])
    decreases |s|
  {
    if |s| > 1 {
      var n := |s|;
      var init, tail := s[..n - 1], s[1..];
      DigitsSplitFirst(init);
      assert init[1..] == tail[..n - 2];
      assert tail[n - 2] == s[n - 1];
      ShiftDigitAlgebra(DigitsValue(s), DigitsValue(init), DigitsValue(tail), DigitValue(s[0]),
                        Pow10(n - 2), Pow10(n - 1), DigitsValue(init[1..]), DigitValue(s[n - 1]));
    }
  }

  /** The arithmetic step of DigitsSplitFirst: `10 * (a * p + mid) + l` read
      as `a * (10 * p) + (10 * mid + l)`. */
  lemma ShiftDigitAlgebra(whole: int, front: int, back: int, a: int, p: int, p10: int, mid: int, l: int)
    requires whole == 10 * front + l && front == a * p + mid
    requires back == 10 * mid + l && p10 == 10 * p
    ensures whole == a * p10 + back
  {
    assert a * (10 * p) == 10 * (a * p);
  }

  lemma {:induction false} DigitsBound(s: string)
    requires AllDigits(s)
    ensures DigitsValue(s) < Pow10(|s|)
    decreases |s|
  {
    if s != [] {
      DigitsBound(s[..|s| - 1]);
    }
  }

  function Pow10(n: nat): (p: nat)
    ensures p >= 1
  {
    if n == 0 then 1 else 10 * Pow10(n - 1)
  }

  /** `a.localeCompare(b)`, approximated by character order. */
  function StrCompare(a: string, b: string): (r: int)
    ensures r == 0 <==> a == b
    ensures r < 0 <==> StrLe(a, b) && a != b
    ensures r <= 0 <==> StrLe(a, b)
  {
    if a == b then StrLeReflexive(a); 0 else if StrLe(a, b) then -1 else 1
  }
}
