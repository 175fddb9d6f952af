/** Spreadsheet rows as the dashboard sees them: a JavaScript object from
    column name to cell text, kept as the ordered list of its (key, value)
    pairs because "the first key that matches" depends on key order. The
    objects the code builds itself (`stockMap`, the occupancy map, the
    blueprint, `skuCounts`) are ordered dictionaries of the same shape. */
module Rows {
  import opened Wrappers
  import opened JsText

  type Row = seq<(string, string)>

  /** An object built by the code: keys in insertion order, each once. */
  type Dict<V> = seq<(string, V)>

  predicate DistinctKeys<V>(d: Dict<V>) {
    forall i, j :: 0 <= i < j < |d| ==> d[i].0 != d[j].0
  }

  /** `o[key]` for an own property: the value stored under the first
      occurrence of `key`, or `undefined`. */
  function Get<V>(d: Dict<V>, key: string): (r: Option<V>)
  {
    if d == [] then None
    else if d[0].0 == key then Some(d[0].1)
    else Get(d[1..], key)
  }

  /** A key is absent exactly when no pair carries it. */
  lemma {:induction false} GetAbsent<V>(d: Dict<V>, key: string)
    ensures Get(d, key).None? <==> forall j :: 0 <= j < |d| ==> d[j].0 != key
    decreases |d|
  {
    if d != [] && d[0].0 != key {
      GetAbsent(d[1..], key);
      assert forall j :: 1 <= j < |d| ==> d[j] == d[1..][j - 1];
    }
  }

  /** In an object each key is stored once, so the value at a key's
      position is the value under that key. */
  lemma {:induction false} GetAt<V>(d: Dict<V>, i: nat)
    requires DistinctKeys(d) && i < |d|
    ensures Get(d, d[i].0) == Some(d[i].1)
  {
    if i > 0 {
      assert d[0].0 != d[i].0;
      assert d[1..][i - 1] == d[i];
      GetAt(d[1..], i - 1);
    }
  }

  /** The first pair with a key gives its value. */
  lemma {:induction false} GetFirst<V>(d: Dict<V>, key: string, i: nat)
    requires i < |d| && d[i].0 == key
    requires forall j :: 0 <= j < i ==> d[j].0 != key
    ensures Get(d, key) == Some(d[i].1)
  {
    if i > 0 {
      assert d[1..][i - 1] == d[i];
      GetFirst(d[1..], key, i - 1);
    }
  }

  /** `o[key] = value`: overwrite in place, or append a new key at the end. */
  function Put<V>(d: Dict<V>, key: string, value: V): (r: Dict<V>)
    ensures Get(r, key) == Some(value)
    ensures forall k :: k != key ==> Get(r, k) == Get(d, k)
    ensures |r| == if Get(d, key).Some? then |d| else |d| + 1
    ensures forall i :: 0 <= i < |d| ==> r[i].0 == d[i].0
    ensures Get(d, key).None? ==> r[|d|] == (key, value)
  {
    if d == [] then [(key, value)]
    else if d[0].0 == key then [(key, value)] + d[1..]
    else [d[0]] + Put(d[1..], key, value)
  }

  /** Put keeps every key stored once. */
  lemma PutDistinct<V>(d: Dict<V>, key: string, value: V)
    requires DistinctKeys(d)
    ensures DistinctKeys(Put(d, key, value))
  {
    var r := Put(d, key, value);
    forall i, j | 0 <= i < j < |r| ensures r[i].0 != r[j].0 {
      if j < |d| {
        assert r[i].0 == d[i].0 && r[j].0 == d[j].0;
      } else {
        GetAbsent(d, key);
        assert Get(d, key).None? && r[j] == (key, value) && r[i].0 == d[i].0;
      }
    }
  }

  /** Every value of `d` satisfies `p`. */
  predicate AllValues<V>(d: Dict<V>, p: V -> bool) {
    forall i :: 0 <= i < |d| ==> p(d[i].1)
  }

  /** A value read from `d` is one of its values. */
  lemma {:induction false} GetAll<V>(d: Dict<V>, key: string, p: V -> bool)
    requires AllValues(d, p) && Get(d, key).Some?
    ensures p(Get(d, key).value)
    decreases |d|
  {
    if d[0].0 != key {
      assert AllValues(d[1..], p) by {
        forall i | 0 <= i < |d[1..]| ensures p(d[1..][i].1) {
          assert d[1..][i] == d[i + 1];
        }
      }
      GetAll(d[1..], key, p);
    }
  }

  /** Writing a value that satisfies `p` keeps every value satisfying it. */
  lemma {:induction false} PutAll<V>(d: Dict<V>, key: string, value: V, p: V -> bool)
    requires AllValues(d, p) && p(value)
    ensures AllValues(Put(d, key, value), p)
    decreases |d|
  {
    if d != [] && d[0].0 != key {
      var tail := d[1..];
      assert AllValues(tail, p) by {
        forall i | 0 <= i < |tail| ensures p(tail[i].1) {
          assert tail[i] == d[i + 1];
        }
      }
      PutAll(tail, key, value, p);
      var r := Put(d, key, value);
      assert r == [d[0]] + Put(tail, key, value);
      forall i | 0 <= i < |r| ensures p(r[i].1) {
        if i > 0 {
          assert r[i] == Put(tail, key, value)[i - 1];
        }
      }
    } else if d != [] {
      var r := Put(d, key, value);
      forall i | 0 <= i < |r| ensures p(r[i].1) {
        if i > 0 {
          assert r[i] == d[i];
        }
      }
    }
  }

  /** Writing a key twice leaves only the second value. */
  lemma {:induction false} PutTwice<V>(d: Dict<V>, key: string, v1: V, v2: V)
    ensures Put(Put(d, key, v1), key, v2) == Put(d, key, v2)
    decreases |d|
  {
    if d != [] && d[0].0 != key {
      PutTwice(d[1..], key, v1, v2);
      var once := Put(d, key, v1);
      assert once == [d[0]] + Put(d[1..], key, v1);
      assert once[0] == d[0] && once[1..] == Put(d[1..], key, v1);
    }
  }

  /** The sum of `f` over the values of `d`. */
  function SumValues<V>(d: Dict<V>, f: V -> int): int {
    if d == [] then 0 else f(d[0].1) + SumValues(d[1..], f)
  }

  /** Summing functions that agree everywhere gives the same total. */
  lemma {:induction false} SumValuesSame<V>(d: Dict<V>, f: V -> int, g: V -> int)
    requires forall v :: f(v) == g(v)
    ensures SumValues(d, f) == SumValues(d, g)
    decreases |d|
  {
    if d != [] {
      SumValuesSame(d[1..], f, g);
    }
  }

  /** Put replaces one value's share of the sum, or adds a new one. */
  lemma {:induction false} PutSumValues<V>(d: Dict<V>, key: string, value: V, f: V -> int)
    ensures SumValues(Put(d, key, value), f) ==
      SumValues(d, f) - (if Get(d, key).Some? then f(Get(d, key).value) else 0) + f(value)
    decreases |d|
  {
    if d != [] && d[0].0 != key {
      PutSumValues(d[1..], key, value, f);
      assert Put(d, key, value)[1..] == Put(d[1..], key, value);
    } else if d != [] {
      assert Put(d, key, value)[1..] == d[1..];
    }
  }

  /** `Object.keys(o)` */
  function Keys<V>(d: Dict<V>): (ks: seq<string>)
    ensures |ks| == |d| && forall i :: 0 <= i < |d| ==> ks[i] == d[i].0
  {
    seq(|d|, i requires 0 <= i < |d| => d[i].0)
  }

  /** `Object.values(o)` */
  function Values<V>(d: Dict<V>): (vs: seq<V>)
    ensures |vs| == |d| && forall i :: 0 <= i < |d| ==> vs[i] == d[i].1
  {
    seq(|d|, i requires 0 <= i < |d| => d[i].1)
  }

  lemma {:induction false} GetAppend<V>(d: Dict<V>, e: Dict<V>, k: string)
    ensures Get(d + e, k) == if Get(d, k).Some? then Get(d, k) else Get(e, k)
    decreases |d|
  {
    if d != [] {
      assert (d + e)[1..] == d[1..] + e;
      GetAppend(d[1..], e, k);
    } else {
      assert d + e == e;
    }
  }

  // ---------------------------------------------------------------------------
  // Property access on rows

  /** `row.Key`: exact property access. */
  function Lookup(row: Row, key: string): Option<string> {
    Get(row, key)
  }

  /** `String(v)`: an absent property prints as "undefined". */
  function JsString(v: Option<string>): string {
    v.GetOr("undefined")
  }

  predicate Truthy(v: Option<string>) {
    v.Some? && v.value != ""
  }

  /** `a || b` on property values: the empty text and `undefined` are falsy. */
  function Or(a: Option<string>, b: Option<string>): (r: Option<string>)
    ensures r == a || r == b
    ensures Truthy(a) ==> r == a
    ensures !Truthy(a) ==> r == b
  {
    if Truthy(a) then a else b
  }

  /** `row.A || row.b || fallback` as text. */
  function FirstTruthy(row: Row, keys: seq<string>, fallback: string): (r: string)
    ensures r == fallback || exists k :: k in keys && Lookup(row, k) == Some(r)
  {
    if keys == [] then fallback
    else if Truthy(Lookup(row, keys[0])) then Lookup(row, keys[0]).value
    else FirstTruthy(row, keys[1..], fallback)
  }

  /** `{ ...named, ...row }`: the named fields first, each overridden by a
      property of the same name in `row`, then the rest of `row` in order. */
  function Spread(named: Row, row: Row): (r: Row)
    ensures forall k :: Lookup(r, k) == if Lookup(row, k).Some? then Lookup(row, k) else Lookup(named, k)
  {
    var head := Override(named, row);
    var tail := Unnamed(row, named);
    assert forall k :: Lookup(head + tail, k) == if Lookup(row, k).Some? then Lookup(row, k) else Lookup(named, k) by {
      forall k ensures Lookup(head + tail, k) == if Lookup(row, k).Some? then Lookup(row, k) else Lookup(named, k) {
        GetAppend(head, tail, k);
      }
    }
    head + tail
  }

  /** The named fields, each value replaced by `row`'s value for that key. */
  function Override(named: Row, row: Row): (r: Row)
    ensures forall k :: Get(r, k).Some? <==> Get(named, k).Some?
    ensures forall k :: Get(named, k).Some? ==> Get(r, k) == if Get(row, k).Some? then Get(row, k) else Get(named, k)
  {
    if named == [] then []
    else [(named[0].0, Get(row, named[0].0).GetOr(named[0].1))] + Override(named[1..], row)
  }

  /** The pairs of `row` whose key is not a key of `named`. */
  function Unnamed(row: Row, named: Row): (r: Row)
    ensures forall k :: Get(named, k).None? ==> Get(r, k) == Get(row, k)
    ensures forall k :: Get(named, k).Some? ==> Get(r, k).None?
  {
    if row == [] then []
    else
      var head: Row := if Get(named, row[0].0).Some? then [] else [row[0]];
      var tail := Unnamed(row[1..], named);
      assert forall k :: Get(head + tail, k) == if Get(head, k).Some? then Get(head, k) else Get(tail, k) by {
        forall k ensures Get(head + tail, k) == if Get(head, k).Some? then Get(head, k) else Get(tail, k) {
          GetAppend(head, tail, k);
        }
      }
      head + tail
  }

  // ---------------------------------------------------------------------------
  // Loose column matching

  predicate IsKeyChar(c: char) {
    IsLower(c) || IsDigit(c)
  }

  /** `k.toLowerCase().replace(/[^a-z0-9]/g, '')` */
  function NormalizeKey(k: string): (r: string)
    ensures forall i :: 0 <= i < |r| ==> IsKeyChar(r[i])
    ensures |r| <= |k|
  {
    if k == [] then []
    else (if IsKeyChar(LowerChar(k[0])) then [LowerChar(k[0])] else []) + NormalizeKey(k[1..])
  }

  /** One character survives, lower-cased, exactly when it is then a
      letter a-z or a digit. */
  lemma NormalizeKeyChar(c: char)
    ensures NormalizeKey([c]) == if IsKeyChar(LowerChar(c)) then [LowerChar(c)] else []
  {
    assert [c][1..] == [];
  }

  /** Normalising works character by character: it distributes over `+`. */
  lemma {:induction false} NormalizeKeyAppend(a: string, b: string)
    ensures NormalizeKey(a + b) == NormalizeKey(a) + NormalizeKey(b)
    decreases |a|
  {
    if a == [] {
      assert a + b == b;
    } else {
      assert (a + b)[0] == a[0] && (a + b)[1..] == a[1..] + b;
      NormalizeKeyAppend(a[1..], b);
    }
  }

  /** A name made only of lower-case letters and digits is its own normal form. */
  lemma {:induction false} NormalizeKeyOfKeyChars(k: string)
    requires forall i :: 0 <= i < |k| ==> IsKeyChar(k[i])
    ensures NormalizeKey(k) == k
    decreases |k|
  {
    if k != [] {
      assert LowerChar(k[0]) == k[0];
      NormalizeKeyOfKeyChars(k[1..]);
      assert k == [k[0]] + k[1..];
    }
  }

  /** Normalising is idempotent: a normalised name is its own normal form. */
  lemma {:induction false} NormalizeKeyIdempotent(k: string)
    ensures NormalizeKey(NormalizeKey(k)) == NormalizeKey(k)
    decreases |k|
  {
    if k != [] {
      NormalizeKeyIdempotent(k[1..]);
      var c := LowerChar(k[0]);
      if IsKeyChar(c) {
        var n := [c] + NormalizeKey(k[1..]);
        assert n[0] == c && n[1..] == NormalizeKey(k[1..]);
        assert LowerChar(c) == c;
        assert NormalizeKey(n) == [c] + NormalizeKey(n[1..]);
      } else {
        assert NormalizeKey(k) == NormalizeKey(k[1..]);
      }
    }
  }
}
