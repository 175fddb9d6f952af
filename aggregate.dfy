/** The two maps the dashboard builds from the stock sheet, as folds over a
    sequence of records read through column readers: a running total per
    SKU and the records grouped per location. Each fold adds the records
    in order, creating a key the first time it is seen, exactly as the
    `forEach` loop that fills a plain object does. */
module Aggregate {
  import opened Wrappers
  import opened Rows
  import opened Seqs

  // ---------------------------------------------------------------------------
  // Grouping

  /** `(groups[key] = groups[key] || []).push(x)` for every `x` of `s` that
      has a key; `x` without a key is skipped. */
  function GroupBy<T>(s: seq<T>, keyOf: T -> Option<string>): Dict<seq<T>> {
    if s == [] then []
    else
      AddMember(GroupBy(Init(s), keyOf), keyOf(Last(s)), Last(s))
  }

  /** Files `x` under `key`, when it has one. */
  function AddMember<T>(groups: Dict<seq<T>>, key: Option<string>, x: T): Dict<seq<T>> {
    match key
    case None => groups
    case Some(k) => Put(groups, k, Get(groups, k).GetOr([]) + [x])
  }

  /** The elements filed under `key`, in their order in `s`. */
  function Members<T>(s: seq<T>, keyOf: T -> Option<string>, key: string): seq<T> {
    if s == [] then []
    else Members(Init(s), keyOf, key) + (if keyOf(Last(s)) == Some(key) then [Last(s)] else [])
  }

  /** A key's list holds exactly the elements with that key, in order; a
      key no element has is absent. */
  lemma {:induction false} GroupByGet<T>(s: seq<T>, keyOf: T -> Option<string>, key: string)
    ensures Get(GroupBy(s, keyOf), key) == if Members(s, keyOf, key) == [] then None else Some(Members(s, keyOf, key))
    decreases |s|
  {
    if s != [] {
      GroupByGet(Init(s), keyOf, key);
      var g, x := GroupBy(Init(s), keyOf), Last(s);
      var before := Members(Init(s), keyOf, key);
      if keyOf(x) == Some(key) {
        var v := Get(g, key).GetOr([]) + [x];
        assert GroupBy(s, keyOf) == Put(g, key, v);
        assert v == before + [x];
      } else if keyOf(x).Some? {
        var k := keyOf(x).value;
        assert GroupBy(s, keyOf) == Put(g, k, Get(g, k).GetOr([]) + [x]);
        assert Members(s, keyOf, key) == before;
      } else {
        assert GroupBy(s, keyOf) == g;
        assert Members(s, keyOf, key) == before;
      }
    }
  }

  /** A group keeps the order of the input. */
  lemma {:induction false} MembersSubseq<T>(s: seq<T>, keyOf: T -> Option<string>, key: string)
    ensures IsSubseq(Members(s, keyOf, key), s)
    decreases |s|
  {
    if s != [] {
      MembersSubseq(Init(s), keyOf, key);
      var front, x := Members(Init(s), keyOf, key), Last(s);
      assert Init(s) + [x] == s;
      if keyOf(x) == Some(key) {
        SubseqBothExtend(front, Init(s), x);
      } else {
        assert front + [] == front;
        SubseqExtend(front, Init(s), x);
      }
    }
  }

  /** One more element extends the grouping of the prefix before it. */
  lemma GroupByPrefix<T>(s: seq<T>, keyOf: T -> Option<string>, i: nat)
    requires i < |s|
    ensures GroupBy(s[..i + 1], keyOf) == AddMember(GroupBy(s[..i], keyOf), keyOf(s[i]), s[i])
  {
    assert Init(s[..i + 1]) == s[..i] && Last(s[..i + 1]) == s[i];
  }

  /** Each key is stored once. */
  lemma {:induction false} GroupByDistinct<T>(s: seq<T>, keyOf: T -> Option<string>)
    ensures DistinctKeys(GroupBy(s, keyOf))
    decreases |s|
  {
    if s != [] {
      GroupByDistinct(Init(s), keyOf);
      var g := GroupBy(Init(s), keyOf);
      match keyOf(Last(s))
      case None =>
      case Some(k) => PutDistinct(g, k, Get(g, k).GetOr([]) + [Last(s)]);
    }
  }

  function Length<T>(s: seq<T>): int { |s| }

  /** Every element with a key is filed exactly once: the groups hold as
      many elements in all as there are elements with a key. */
  lemma {:induction false} GroupByPartition<T>(s: seq<T>, keyOf: T -> Option<string>, p: T -> bool)
    requires forall x :: p(x) <==> keyOf(x).Some?
    ensures SumValues(GroupBy(s, keyOf), Length) == Count(s, p)
    decreases |s|
  {
    if s != [] {
      GroupByPartition(Init(s), keyOf, p);
      var g := GroupBy(Init(s), keyOf);
      match keyOf(Last(s))
      case None =>
      case Some(k) => PutSumValues(g, k, Get(g, k).GetOr([]) + [Last(s)], Length);
    }
  }

  /** Summing over the values of an object is summing over `Object.values`. */
  lemma {:induction false} SumValuesOfValues<V>(d: Dict<V>, f: V -> int)
    ensures SumValues(d, f) == SumOf(Values(d), f)
    decreases |d|
  {
    if d != [] {
      SumValuesOfValues(d[1..], f);
      assert Values(d) == [d[0].1] + Values(d[1..]);
      SumAppend([d[0].1], Values(d[1..]), f);
      assert SumOf([d[0].1], f) == f(d[0].1) by {
        assert Init([d[0].1]) == [];
      }
    }
  }

  // ---------------------------------------------------------------------------
  // Running totals per SKU

  /** One value of `stockMap`. */
  datatype StockEntry = StockEntry(skuId: string, description: string, totalQty: int)

  /** The update for one record: a record with an empty SKU is skipped; a
      new SKU gets an entry with the record's description; the quantity is
      added to the SKU's total. */
  function AddStock(stock: Dict<StockEntry>, sku: string, description: string, qty: int): Dict<StockEntry> {
    if sku == "" then stock
    else
      var entry := match Get(stock, sku)
        case None => StockEntry(sku, description, qty)
        case Some(e) => e.(totalQty := e.totalQty + qty);
      Put(stock, sku, entry)
  }

  function AddStockBy<T>(stock: Dict<StockEntry>, x: T, sku: T -> string, desc: T -> string, qty: T -> int): Dict<StockEntry> {
    AddStock(stock, sku(x), desc(x), qty(x))
  }

  /** `stockMap` after the records of `s`. */
  function StockMapBy<T>(s: seq<T>, sku: T -> string, desc: T -> string, qty: T -> int): Dict<StockEntry> {
    if s == [] then [] else AddStockBy(StockMapBy(Init(s), sku, desc, qty), Last(s), sku, desc, qty)
  }

  /** One more record extends the totals of the prefix before it. */
  lemma StockMapPrefix<T>(s: seq<T>, sku: T -> string, desc: T -> string, qty: T -> int, i: nat)
    requires i < |s|
    ensures StockMapBy(s[..i + 1], sku, desc, qty) == AddStockBy(StockMapBy(s[..i], sku, desc, qty), s[i], sku, desc, qty)
  {
    assert Init(s[..i + 1]) == s[..i] && Last(s[..i + 1]) == s[i];
  }

  /** Some record of `s` carries SKU `k`. */
  predicate HasSkuBy<T>(s: seq<T>, sku: T -> string, k: string) {
    s != [] && (HasSkuBy(Init(s), sku, k) || sku(Last(s)) == k)
  }

  /** The quantities of the records carrying `k`, added up. */
  function SkuTotalBy<T>(s: seq<T>, sku: T -> string, qty: T -> int, k: string): int {
    if s == [] then 0
    else SkuTotalBy(Init(s), sku, qty, k) + (if sku(Last(s)) == k then qty(Last(s)) else 0)
  }

  /** The description of the first record carrying `k`. */
  function FirstDescriptionBy<T>(s: seq<T>, sku: T -> string, desc: T -> string, k: string): string
    requires HasSkuBy(s, sku, k)
  {
    if HasSkuBy(Init(s), sku, k) then FirstDescriptionBy(Init(s), sku, desc, k) else desc(Last(s))
  }

  /** One row's effect on the entry under `k`. */
  lemma AddStockGet<T>(m: Dict<StockEntry>, x: T, sku: T -> string, desc: T -> string, qty: T -> int, k: string)
    ensures Get(AddStockBy(m, x, sku, desc, qty), k) ==
      if sku(x) != k || k == "" then Get(m, k)
      else if Get(m, k).None? then Some(StockEntry(k, desc(x), qty(x)))
      else Some(Get(m, k).value.(totalQty := Get(m, k).value.totalQty + qty(x)))
  {
  }

  /** Each SKU's entry: present exactly when some record carries the SKU
      (the empty SKU never), with the description of the first such record
      and the total of all of them. */
  lemma {:induction false} StockEntryBy<T>(s: seq<T>, sku: T -> string, desc: T -> string, qty: T -> int, k: string)
    ensures Get(StockMapBy(s, sku, desc, qty), k) ==
      if k != "" && HasSkuBy(s, sku, k)
      then Some(StockEntry(k, FirstDescriptionBy(s, sku, desc, k), SkuTotalBy(s, sku, qty, k)))
      else None
    decreases |s|
  {
    if s != [] {
      var front, x := Init(s), Last(s);
      StockEntryBy(front, sku, desc, qty, k);
      AddStockGet(StockMapBy(front, sku, desc, qty), x, sku, desc, qty, k);
      assert StockMapBy(s, sku, desc, qty) == AddStockBy(StockMapBy(front, sku, desc, qty), x, sku, desc, qty);
      if k == "" {
      } else if sku(x) != k {
        assert HasSkuBy(s, sku, k) == HasSkuBy(front, sku, k);
        assert SkuTotalBy(s, sku, qty, k) == SkuTotalBy(front, sku, qty, k);
      } else if HasSkuBy(front, sku, k) {
        assert FirstDescriptionBy(s, sku, desc, k) == FirstDescriptionBy(front, sku, desc, k);
        assert SkuTotalBy(s, sku, qty, k) == SkuTotalBy(front, sku, qty, k) + qty(x);
      } else {
        NoSkuNoTotal(front, sku, qty, k);
        assert FirstDescriptionBy(s, sku, desc, k) == desc(x);
        assert SkuTotalBy(s, sku, qty, k) == qty(x);
      }
    }
  }

  lemma {:induction false} NoSkuNoTotal<T>(s: seq<T>, sku: T -> string, qty: T -> int, k: string)
    requires !HasSkuBy(s, sku, k)
    ensures SkuTotalBy(s, sku, qty, k) == 0
    decreases |s|
  {
    if s != [] {
      NoSkuNoTotal(Init(s), sku, qty, k);
    }
  }

  /** Each SKU is stored once. */
  lemma {:induction false} StockKeysDistinctBy<T>(s: seq<T>, sku: T -> string, desc: T -> string, qty: T -> int)
    ensures DistinctKeys(StockMapBy(s, sku, desc, qty))
    decreases |s|
  {
    if s != [] {
      StockKeysDistinctBy(Init(s), sku, desc, qty);
      var m, x := StockMapBy(Init(s), sku, desc, qty), Last(s);
      var k := sku(x);
      if k != "" {
        match Get(m, k)
        case None => PutDistinct(m, k, StockEntry(k, desc(x), qty(x)));
        case Some(e) => PutDistinct(m, k, e.(totalQty := e.totalQty + qty(x)));
      }
    }
  }

  function EntryQty(e: StockEntry): int { e.totalQty }

  /** One record adds its quantity to the totals, unless its SKU is empty. */
  lemma AddStockSum(m: Dict<StockEntry>, sku: string, description: string, qty: int)
    ensures SumValues(AddStock(m, sku, description, qty), EntryQty) == SumValues(m, EntryQty) + (if sku != "" then qty else 0)
  {
    if sku != "" {
      if Get(m, sku).None? {
        var e := StockEntry(sku, description, qty);
        assert AddStock(m, sku, description, qty) == Put(m, sku, e);
        PutSumValues(m, sku, e, EntryQty);
      } else {
        var prev := Get(m, sku).value;
        var e := prev.(totalQty := prev.totalQty + qty);
        assert AddStock(m, sku, description, qty) == Put(m, sku, e);
        PutSumValues(m, sku, e, EntryQty);
        assert EntryQty(e) == EntryQty(prev) + qty;
      }
    }
  }

  /** Nothing is lost or invented: the totals add up to the quantities of
      all records that carry a SKU. */
  lemma {:induction false} StockConservationBy<T>(s: seq<T>, sku: T -> string, desc: T -> string, qty: T -> int, counted: T -> int)
    requires forall x :: counted(x) == if sku(x) != "" then qty(x) else 0
    ensures SumValues(StockMapBy(s, sku, desc, qty), EntryQty) == SumOf(s, counted)
    decreases |s|
  {
    if s != [] {
      StockConservationBy(Init(s), sku, desc, qty, counted);
      var x := Last(s);
      AddStockSum(StockMapBy(Init(s), sku, desc, qty), sku(x), desc(x), qty(x));
    }
  }
}
