/** The warehouse map: the location sheet grouped aisle, bay, level; the key
    order the map is laid out in; the per-aisle occupancy statistics; and
    the CSV export of every location. Rows arrive already parsed; the
    occupancy map is the one the data step builds from the stock sheet. */
module Blueprint {
  import opened Wrappers
  import opened JsText
  import opened Rows
  import opened Seqs
  import opened Aggregate
  import opened Csv
  import App

  // ---------------------------------------------------------------------------
  // Column lookup by name part

  /** The column's normalised name contains the normalised target. */
  predicate NameContains(target: string, column: (string, string)) {
    Contains(NormalizeKey(column.0), target)
  }

  /** Position `i` holds the first column whose normalised name contains
      the normalised target. */
  predicate FirstContaining(row: Row, target: string, i: int) {
    0 <= i < |row| && NameContains(target, row[i])
    && forall j :: 0 <= j < i ==> !NameContains(target, row[j])
  }

  /** This component's `getRowValue`: the value of the first column, in key
      order, whose normalised name contains the normalised target; `null`
      when there is none or its name is the empty text (a falsy key). */
  function FindValue(row: Row, targetKeyPart: string): (r: Option<string>)
    ensures (forall j :: 0 <= j < |row| ==> !NameContains(NormalizeKey(targetKeyPart), row[j])) ==> r.None?
    ensures forall i :: FirstContaining(row, NormalizeKey(targetKeyPart), i) ==>
      r == if row[i].0 == "" then None else Some(row[i].1)
  {
    var target := NormalizeKey(targetKeyPart);
    match FindFirst(row, (column: (string, string)) => NameContains(target, column))
    case None => None
    case Some(i) => if row[i].0 == "" then None else Some(row[i].1)
  }

  /** `getRowValue(row, part) || fallback` */
  function ValueOr(row: Row, targetKeyPart: string, fallback: string): string {
    match FindValue(row, targetKeyPart)
    case Some(v) => if v != "" then v else fallback
    case None => fallback
  }

  /** When no column name is a proper part of the target, the loose lookup
      of the data step and this one agree (with `null` read as the empty
      text): they differ only in also matching names the target contains. */
  lemma ForwardMatchAgrees(row: Row, targetKeyPart: string)
    requires var t := NormalizeKey(targetKeyPart);
      forall j :: 0 <= j < |row| && Contains(t, NormalizeKey(row[j].0)) ==> Contains(NormalizeKey(row[j].0), t)
    ensures App.Col(row, targetKeyPart) == FindValue(row, targetKeyPart).GetOr("")
  {
    var t := NormalizeKey(targetKeyPart);
    forall j | 0 <= j < |row| ensures App.LooseMatch(NormalizeKey(row[j].0), t) <==> NameContains(t, row[j]) {
      if NormalizeKey(row[j].0) == t {
        ContainsSelf(t);
      }
    }
    match App.LooseMatchIndex(row, t)
    case None =>
    case Some(i) =>
      assert FirstContaining(row, t, i);
  }

  /** A text contains itself. */
  lemma ContainsSelf(s: string)
    ensures Contains(s, s)
  {
    ContainsIff(s, s);
    assert OccursAt(s, s, 0);
  }

  /** Unlike the data step's lookup, a column named by a part of the target
      does not answer: "SKU" answers `'sku_id'` there but not here. */
  lemma NoReverseMatch()
    ensures App.Col([("SKU", "A1")], "sku_id") == "A1"
    ensures FindValue([("SKU", "A1")], "sku_id") == None
  {
    var row := [("SKU", "A1")];
    assert NormalizeKey("SKU") == "sku";
    assert NormalizeKey("sku_id") == "skuid";
    ContainsIff("skuid", "sku");
    assert OccursAt("skuid", "sku", 0);
    ContainsIff("sku", "skuid");
    assert App.LooseMatch("sku", "skuid");
    assert App.FirstLooseMatch(row, "skuid", 0);
    assert !NameContains("skuid", row[0]);
  }

  // ---------------------------------------------------------------------------
  // Grouping locations aisle -> bay -> level

  /** `structure[aisle][bay][level]` is the list of location entries. */
  type Levels = Dict<seq<Row>>
  type Bays = Dict<Levels>
  type Structure = Dict<Bays>

  function AisleOf(row: Row): string { ValueOr(row, "aisle", "Unassigned") }
  function BayOf(row: Row): string { ValueOr(row, "bay", "0") }
  function LevelOf(row: Row): string { ValueOr(row, "level", "0") }
  function DepthOf(row: Row): string { ValueOr(row, "depth", "0") }
  function LocCodeOf(row: Row): Option<string> { FindValue(row, "location_code") }

  /** `if (!locCode) return`: rows without a location code are skipped. */
  predicate HasLocCode(row: Row) {
    LocCodeOf(row).Some? && LocCodeOf(row).value != ""
  }

  /** `{ locationCode: locCode, depth: depth, ...row }` */
  function Entry(row: Row): Row {
    Spread([("locationCode", LocCodeOf(row).GetOr("")), ("depth", DepthOf(row))], row)
  }

  /** The list at `structure[aisle][bay][level]`, empty when absent. */
  function Slot(s: Structure, aisle: string, bay: string, level: string): seq<Row> {
    var bays := Get(s, aisle).GetOr([]);
    var levels := Get(bays, bay).GetOr([]);
    Get(levels, level).GetOr([])
  }

  /** Create the aisle, bay and level objects that are missing, then push. */
  function AddLocation(s: Structure, aisle: string, bay: string, level: string, entry: Row): Structure {
    var bays := Get(s, aisle).GetOr([]);
    var levels := Get(bays, bay).GetOr([]);
    Put(s, aisle, Put(bays, bay, Put(levels, level, Get(levels, level).GetOr([]) + [entry])))
  }

  /** One row of the sheet. */
  function Place(s: Structure, row: Row): Structure {
    if HasLocCode(row) then AddLocation(s, AisleOf(row), BayOf(row), LevelOf(row), Entry(row)) else s
  }

  /** The structure after the rows of `rows`. */
  function BlueprintOf(rows: seq<Row>): Structure {
    if rows == [] then [] else Place(BlueprintOf(Init(rows)), Last(rows))
  }

  /** The `blueprint` memo: `locationData.forEach` filling the nested object
      in place. */
  method BuildBlueprint(locationData: seq<Row>) returns (structure: Structure)
    ensures structure == BlueprintOf(locationData)
  {
    structure := [];
    var i := 0;
    assert locationData[..i] == [];
    while i < |locationData|
      invariant 0 <= i <= |locationData|
      invariant structure == BlueprintOf(locationData[..i])
    {
      assert Init(locationData[..i + 1]) == locationData[..i] && Last(locationData[..i + 1]) == locationData[i];
      structure := PlaceRow(structure, locationData[i]);
      i := i + 1;
    }
    assert locationData[..|locationData|] == locationData;
  }

  /** The `forEach` body for one row. */
  method PlaceRow(structure: Structure, row: Row) returns (structure': Structure)
    ensures structure' == Place(structure, row)
  {
    structure' := structure;
    var aisle := AisleOf(row);
    var bay := BayOf(row);
    var level := LevelOf(row);
    var locCode := LocCodeOf(row);
    if locCode.Some? && locCode.value != "" {
      // the objects `if (!structure[aisle]) structure[aisle] = {}` and the
      // two below it create, then the push into the level's list
      var bays := Get(structure, aisle).GetOr([]);
      var levels := Get(bays, bay).GetOr([]);
      var locs := Get(levels, level).GetOr([]);
      structure' := Put(structure, aisle, Put(bays, bay, Put(levels, level, locs + [Entry(row)])));
    }
  }

  /** The row is filed under (aisle, bay, level). */
  predicate FiledAt(aisle: string, bay: string, level: string, row: Row) {
    HasLocCode(row) && AisleOf(row) == aisle && BayOf(row) == bay && LevelOf(row) == level
  }

  /** Adding an entry extends its own slot and leaves every other slot alone. */
  lemma SlotAfterAdd(s: Structure, aisle: string, bay: string, level: string, entry: Row, a: string, b: string, l: string)
    ensures Slot(AddLocation(s, aisle, bay, level, entry), a, b, l) ==
      Slot(s, a, b, l) + (if a == aisle && b == bay && l == level then [entry] else [])
  {
  }

  /** Every row with a location code lands in the list of its aisle, bay and
      level, as its entry, in input order; a slot holds nothing else. */
  lemma {:induction false} SlotContents(rows: seq<Row>, aisle: string, bay: string, level: string)
    ensures Slot(BlueprintOf(rows), aisle, bay, level) == Map(Filter(rows, (row: Row) => FiledAt(aisle, bay, level, row)), Entry)
    decreases |rows|
  {
    if rows != [] {
      var p := (row: Row) => FiledAt(aisle, bay, level, row);
      var front, x := Init(rows), Last(rows);
      SlotContents(front, aisle, bay, level);
      FilterLast(rows, p);
      if HasLocCode(x) {
        SlotAfterAdd(BlueprintOf(front), AisleOf(x), BayOf(x), LevelOf(x), Entry(x), aisle, bay, level);
        if p(x) {
          MapSnoc(Filter(front, p), x, Entry);
        } else {
          assert Filter(front, p) + [] == Filter(front, p);
        }
      } else {
        assert Filter(front, p) + [] == Filter(front, p);
      }
    }
  }

  function LevelsSize(levels: Levels): int { SumValues(levels, Length) }
  function BaysSize(bays: Bays): int { SumValues(bays, LevelsSize) }

  /** The number of location entries in the whole structure. */
  function EntryTotal(s: Structure): int { SumValues(s, BaysSize) }

  /** Each push adds one entry. */
  lemma AddLocationTotal(s: Structure, aisle: string, bay: string, level: string, entry: Row)
    ensures EntryTotal(AddLocation(s, aisle, bay, level, entry)) == EntryTotal(s) + 1
  {
    var bays := Get(s, aisle).GetOr([]);
    var levels := Get(bays, bay).GetOr([]);
    var locs := Get(levels, level).GetOr([]);
    var levels' := Put(levels, level, locs + [entry]);
    var bays' := Put(bays, bay, levels');
    PutSumValues(levels, level, locs + [entry], Length);
    assert LevelsSize(levels') == LevelsSize(levels) + 1;
    PutSumValues(bays, bay, levels', LevelsSize);
    assert BaysSize(bays') == BaysSize(bays) + 1;
    PutSumValues(s, aisle, bays', BaysSize);
  }

  /** The structure holds exactly one entry per row with a location code. */
  lemma {:induction false} EntryCount(rows: seq<Row>)
    ensures EntryTotal(BlueprintOf(rows)) == Count(rows, HasLocCode)
    decreases |rows|
  {
    if rows != [] {
      EntryCount(Init(rows));
      var x := Last(rows);
      if HasLocCode(x) {
        AddLocationTotal(BlueprintOf(Init(rows)), AisleOf(x), BayOf(x), LevelOf(x), Entry(x));
      }
    }
  }

  /** Every object of the structure stores each of its keys once. */
  predicate LevelsKeyed(levels: Levels) { DistinctKeys(levels) }
  predicate BaysKeyed(bays: Bays) { DistinctKeys(bays) && AllValues(bays, LevelsKeyed) }
  predicate WellKeyed(s: Structure) { DistinctKeys(s) && AllValues(s, BaysKeyed) }

  /** Adding an entry creates missing objects and writes existing ones, so no
      key is stored twice. */
  lemma AddLocationKeyed(s: Structure, aisle: string, bay: string, level: string, entry: Row)
    requires WellKeyed(s)
    ensures WellKeyed(AddLocation(s, aisle, bay, level, entry))
  {
    var bays := Get(s, aisle).GetOr([]);
    if Get(s, aisle).Some? {
      GetAll(s, aisle, BaysKeyed);
    }
    var levels := Get(bays, bay).GetOr([]);
    if Get(bays, bay).Some? {
      GetAll(bays, bay, LevelsKeyed);
    }
    var levels' := Put(levels, level, Get(levels, level).GetOr([]) + [entry]);
    PutDistinct(levels, level, Get(levels, level).GetOr([]) + [entry]);
    var bays' := Put(bays, bay, levels');
    PutDistinct(bays, bay, levels');
    PutAll(bays, bay, levels', LevelsKeyed);
    PutDistinct(s, aisle, bays');
    PutAll(s, aisle, bays', BaysKeyed);
  }

  /** The structure built from any sheet is well keyed. */
  lemma {:induction false} BlueprintKeyed(rows: seq<Row>)
    ensures WellKeyed(BlueprintOf(rows))
    decreases |rows|
  {
    if rows != [] {
      BlueprintKeyed(Init(rows));
      var x := Last(rows);
      if HasLocCode(x) {
        AddLocationKeyed(BlueprintOf(Init(rows)), AisleOf(x), BayOf(x), LevelOf(x), Entry(x));
      }
    }
  }

  // ---------------------------------------------------------------------------
  // Key order

  /** `parseFloat(key)`, on integers; `None` is `NaN`. */
  function KeyNumber(key: string): Option<int> {
    ParsePrefixInt(key)
  }

  /** The comparator of `sortKeys`: numeric when both keys read as numbers,
      otherwise text order. */
  function KeyCompare(a: string, b: string): (r: int)
    ensures KeyNumber(a).Some? && KeyNumber(b).Some? ==> r == KeyNumber(a).value - KeyNumber(b).value
    ensures KeyNumber(a).None? || KeyNumber(b).None? ==> (r <= 0 <==> StrLe(a, b)) && (r == 0 <==> a == b)
  {
    if KeyNumber(a).Some? && KeyNumber(b).Some? then KeyNumber(a).value - KeyNumber(b).value
    else StrCompare(a, b)
  }

  /** The order `sortKeys` leaves the keys in. */
  function KeySort(keys: seq<string>): seq<string> {
    SortCmp(keys, KeyCompare)
  }

  /** Sorting leaves the same keys, each as often as before. */
  lemma KeySortPermutes(keys: seq<string>)
    ensures multiset(KeySort(keys)) == multiset(keys)
    ensures forall k :: k in KeySort(keys) <==> k in keys
  {
    SortCmpPerm(keys, KeyCompare);
    forall k ensures k in KeySort(keys) <==> k in keys {
      assert k in KeySort(keys) <==> k in multiset(KeySort(keys));
      assert k in keys <==> k in multiset(keys);
    }
  }

  /** Keys that all read as numbers come out in ascending numeric order. */
  lemma NumericKeysSorted(keys: seq<string>)
    requires forall k :: k in keys ==> KeyNumber(k).Some?
    ensures forall i, j :: 0 <= i < j < |KeySort(keys)| ==>
      KeyNumber(KeySort(keys)[i]).Some? && KeyNumber(KeySort(keys)[j]).Some? &&
      KeyNumber(KeySort(keys)[i]).value <= KeyNumber(KeySort(keys)[j]).value
  {
    SortCmpSorted(keys, KeyCompare);
    KeySortPermutes(keys);
    var r := KeySort(keys);
    forall i, j | 0 <= i < j < |r|
      ensures KeyNumber(r[i]).Some? && KeyNumber(r[j]).Some? && KeyNumber(r[i]).value <= KeyNumber(r[j]).value
    {
      assert r[i] in keys && r[j] in keys;
      assert CmpLe(KeyCompare, r[i], r[j]);
    }
  }

  /** Keys none of which reads as a number come out in text order. */
  lemma TextKeysSorted(keys: seq<string>)
    requires forall k :: k in keys ==> KeyNumber(k).None?
    ensures forall i, j :: 0 <= i < j < |KeySort(keys)| ==> StrLe(KeySort(keys)[i], KeySort(keys)[j])
  {
    forall a, b | a in keys && b in keys ensures CmpLe(KeyCompare, a, b) || CmpLe(KeyCompare, b, a) {
      StrLeTotal(a, b);
    }
    forall a, b, c | a in keys && b in keys && c in keys && CmpLe(KeyCompare, a, b) && CmpLe(KeyCompare, b, c)
      ensures CmpLe(KeyCompare, a, c)
    {
      StrLeTransitive(a, b, c);
    }
    SortCmpSorted(keys, KeyCompare);
    KeySortPermutes(keys);
    var r := KeySort(keys);
    forall i, j | 0 <= i < j < |r| ensures StrLe(r[i], r[j]) {
      assert r[i] in keys && r[j] in keys;
      assert CmpLe(KeyCompare, r[i], r[j]);
    }
  }

  /** On a mix of number-like and other keys the comparator is not a
      consistent order: "8" before "+9" by number, "+9" before "/" and "/"
      before "8" by text, so the order `sort` leaves them in depends on the
      engine's algorithm. */
  lemma MixedKeysCycle()
    ensures KeyCompare("8", "+9") < 0
    ensures KeyCompare("+9", "/") < 0
    ensures KeyCompare("/", "8") < 0
  {
    NumbersCompareByValue();
    SignBeforeSlash();
    SlashBeforeDigit();
  }

  lemma NumbersCompareByValue()
    ensures KeyCompare("8", "+9") < 0
  {
    KeyNumberEight();
    KeyNumberSignedNine();
  }

  lemma SignBeforeSlash()
    ensures KeyCompare("+9", "/") < 0
  {
    KeyNumberSlash();
    assert StrLe("+9", "/");
  }

  lemma SlashBeforeDigit()
    ensures KeyCompare("/", "8") < 0
  {
    KeyNumberSlash();
    assert StrLe("/", "8");
  }

  lemma KeyNumberEight()
    ensures KeyNumber("8") == Some(8)
  {
    assert TrimStart("8") == "8";
    assert LeadingDigits("8") == "8";
    assert DigitsValue("8") == 8;
  }

  lemma KeyNumberSignedNine()
    ensures KeyNumber("+9") == Some(9)
  {
    var t := "+9";
    assert !IsSpace(t[0]);
    assert TrimStart(t) == t;
    assert t[0] == '+';
    var nine := t[1..];
    assert nine == "9";
    assert LeadingDigits(nine) == nine;
    assert DigitsValue(nine) == 9;
  }

  lemma KeyNumberSlash()
    ensures KeyNumber("/") == None
  {
    assert TrimStart("/") == "/";
    assert LeadingDigits("/") == [];
  }

  /** `keys.sort(comparator)` on the array of keys, in place: an insertion
      sort that moves each key back past the keys that compare greater. */
  method SortKeys(a: array<string>)
    modifies a
    ensures a[..] == KeySort(old(a[..]))
  {
    ghost var s := a[..];
    var i := 0;
    while i < a.Length
      invariant 0 <= i <= a.Length
      invariant a[..i] == SortCmp(s[..i], KeyCompare)
      invariant forall k :: i <= k < a.Length ==> a[k] == s[k]
    {
      assert Init(s[..i + 1]) == s[..i] && Last(s[..i + 1]) == s[i];
      InsertKey(a, i, KeyCompare);
      i := i + 1;
    }
    assert a[..] == a[..a.Length] && s == s[..a.Length];
  }

  /** One pass of the sort: `a[i]` moves back past the keys of the sorted
      prefix `a[..i]` that compare greater. */
  method InsertKey(a: array<string>, i: int, cmp: (string, string) -> int)
    requires 0 <= i < a.Length
    modifies a
    ensures a[..i + 1] == InsertCmp(old(a[..i]), old(a[i]), cmp)
    ensures forall k :: i < k < a.Length ==> a[k] == old(a[k])
  {
    ghost var sorted := a[..i];
    var x := a[i];
    var j := i;
    while j > 0 && cmp(a[j - 1], x) > 0
      invariant 0 <= j <= i
      invariant forall k {:trigger a[k]} :: 0 <= k < j ==> a[k] == sorted[k]
      invariant forall k {:trigger a[k]} :: j < k <= i ==> a[k] == sorted[k - 1]
      invariant forall k :: i < k < a.Length ==> a[k] == old(a[k])
      invariant forall k :: j <= k < i ==> !CmpLe(cmp, sorted[k], x)
    {
      a[j] := a[j - 1];
      j := j - 1;
    }
    a[j] := x;
    InsertCmpAt(sorted, x, cmp, j);
    Spliced(sorted, x, j, a[..i + 1]);
  }

  // ---------------------------------------------------------------------------
  // Per-aisle statistics

  /** The occupancy key of a location entry: its `locationCode` trimmed and
      upper-cased, or the empty text when it has none. */
  function LocationKey(loc: Row): string {
    match Lookup(loc, "locationCode")
    case Some(code) => if code != "" then ToUpper(Trim(code)) else ""
    case None => ""
  }

  /** `occupancyMap[normLocCode]`, an absent list read as empty. */
  function ItemsAt(occupancy: Dict<seq<Row>>, loc: Row): seq<Row> {
    Get(occupancy, LocationKey(loc)).GetOr([])
  }

  /** `items && items.length > 0` */
  predicate Occupied(occupancy: Dict<seq<Row>>, loc: Row) {
    |ItemsAt(occupancy, loc)| > 0
  }

  /** The entries of one bay, level by level in the object's key order. */
  function LevelLocations(levels: Levels): seq<Row> {
    Flatten(Values(levels))
  }

  /** The entries of one aisle, bay by bay in the object's key order. */
  function AisleLocations(bays: Bays): seq<Row> {
    Flatten(Map(Values(bays), LevelLocations))
  }

  /** The stock records at the given locations, location by location. */
  function ItemsOf(occupancy: Dict<seq<Row>>, locs: seq<Row>): seq<Row> {
    Flatten(Map(locs, (loc: Row) => ItemsAt(occupancy, loc)))
  }

  /** One value of `skuCounts`; a `totalQty` of `None` is `NaN`. */
  datatype SkuCount = SkuCount(id: string, desc: string, totalQty: Option<int>)

  /** `getRowValue(item, 'sku_id') || 'Unknown'` */
  function SkuIdOf(item: Row): string { ValueOr(item, "sku_id", "Unknown") }

  /** `getRowValue(item, 'sku_description') || skuId` */
  function SkuDescOf(item: Row): string { ValueOr(item, "sku_description", SkuIdOf(item)) }

  /** `parseInt(getRowValue(item, 'current_qty') || 0, 10)`; `None` is `NaN`. */
  function ItemQty(item: Row): Option<int> {
    match FindValue(item, "current_qty")
    case Some(v) => if v != "" then ParsePrefixInt(v) else Some(0)
    case None => Some(0)
  }

  /** `+=` on numbers that may be `NaN`. */
  function AddQty(a: Option<int>, b: Option<int>): (r: Option<int>)
    ensures r.None? <==> a.None? || b.None?
  {
    if a.Some? && b.Some? then Some(a.value + b.value) else None
  }

  /** One item under the SKU id, description and quantity readers given:
      the SKU's entry is created with a total of 0 the first time, then the
      item's quantity is added to it. */
  function AddSkuBy<T>(counts: Dict<SkuCount>, item: T, sku: T -> string, desc: T -> string, qty: T -> Option<int>): Dict<SkuCount> {
    var id := sku(item);
    var entry := match Get(counts, id)
      case None => SkuCount(id, desc(item), Some(0))
      case Some(e) => e;
    Put(counts, id, entry.(totalQty := AddQty(entry.totalQty, qty(item))))
  }

  /** One stock record of an occupied location. */
  function CountItem(counts: Dict<SkuCount>, item: Row): Dict<SkuCount> {
    AddSkuBy(counts, item, SkuIdOf, SkuDescOf, ItemQty)
  }

  /** The three running values of the statistics loop. */
  datatype Tally = Tally(totalLocs: int, occupiedLocs: int, skuCounts: Dict<SkuCount>)

  /** One location: counted, and when occupied counted as such with its
      items added to the SKU totals. */
  function TallyLocation(occupancy: Dict<seq<Row>>, t: Tally, loc: Row): Tally {
    var items := ItemsAt(occupancy, loc);
    if |items| > 0 then
      Tally(t.totalLocs + 1, t.occupiedLocs + 1, FoldLeft(t.skuCounts, items, CountItem))
    else
      Tally(t.totalLocs + 1, t.occupiedLocs, t.skuCounts)
  }

  function LocationStep(occupancy: Dict<seq<Row>>): (Tally, Row) -> Tally {
    (t: Tally, loc: Row) => TallyLocation(occupancy, t, loc)
  }

  /** The statistics of one aisle. */
  function AisleTally(bays: Bays, occupancy: Dict<seq<Row>>): Tally {
    FoldLeft(Tally(0, 0, []), AisleLocations(bays), LocationStep(occupancy))
  }

  /** Each location adds one to the total, one to the occupied count when it
      is occupied, and its items to the SKU totals. */
  lemma {:induction false} TallyMeaning(occupancy: Dict<seq<Row>>, t: Tally, locs: seq<Row>)
    ensures FoldLeft(t, locs, LocationStep(occupancy)).totalLocs == t.totalLocs + |locs|
    ensures FoldLeft(t, locs, LocationStep(occupancy)).occupiedLocs ==
      t.occupiedLocs + Count(locs, (loc: Row) => Occupied(occupancy, loc))
    ensures FoldLeft(t, locs, LocationStep(occupancy)).skuCounts ==
      FoldLeft(t.skuCounts, ItemsOf(occupancy, locs), CountItem)
    decreases |locs|
  {
    if locs != [] {
      var front, loc := Init(locs), Last(locs);
      TallyMeaning(occupancy, t, front);
      var itemsAt := (l: Row) => ItemsAt(occupancy, l);
      InitLast(locs);
      MapSnoc(front, loc, itemsAt);
      FlattenSnoc(Map(front, itemsAt), ItemsAt(occupancy, loc));
      FoldAppend(t.skuCounts, ItemsOf(occupancy, front), ItemsAt(occupancy, loc), CountItem);
    }
  }

  /** The per-aisle figures: every location entry counted once, the occupied
      ones among them, the rest empty, and the SKU totals over the items of
      the occupied locations. */
  lemma AisleFigures(bays: Bays, occupancy: Dict<seq<Row>>)
    ensures AisleTally(bays, occupancy).totalLocs == |AisleLocations(bays)|
    ensures AisleTally(bays, occupancy).occupiedLocs ==
      Count(AisleLocations(bays), (loc: Row) => Occupied(occupancy, loc))
    ensures 0 <= AisleTally(bays, occupancy).totalLocs - AisleTally(bays, occupancy).occupiedLocs
    ensures AisleTally(bays, occupancy).skuCounts ==
      FoldLeft([], ItemsOf(occupancy, AisleLocations(bays)), CountItem)
  {
    TallyMeaning(occupancy, Tally(0, 0, []), AisleLocations(bays));
  }

  /** The test "carries SKU `k`". */
  function Carrying<T>(sku: T -> string, k: string): T -> bool {
    (x: T) => sku(x) == k
  }

  /** The SKU totals: an entry exactly for each SKU some item carries (a
      missing id counted as `'Unknown'`), with the description of its first
      item and the sum of its items' quantities, `NaN` as soon as one of them
      does not parse. */
  lemma SkuCountEntry(items: seq<Row>, k: string)
    ensures Get(FoldLeft([], items, CountItem), k) ==
      if HasSkuBy(items, SkuIdOf, k)
      then Some(SkuCount(k, FirstDescriptionBy(items, SkuIdOf, SkuDescOf, k),
                         SumOptions(Filter(items, Carrying(SkuIdOf, k)), ItemQty)))
      else None
  {
    SkuCountEntryBy(items, CountItem, SkuIdOf, SkuDescOf, ItemQty, k);
  }

  lemma {:induction false} SkuCountEntryBy<T(!new)>(items: seq<T>, f: (Dict<SkuCount>, T) -> Dict<SkuCount>,
                                                     sku: T -> string, desc: T -> string, qty: T -> Option<int>, k: string)
    requires forall c, x :: f(c, x) == AddSkuBy(c, x, sku, desc, qty)
    ensures Get(FoldLeft([], items, f), k) ==
      if HasSkuBy(items, sku, k)
      then Some(SkuCount(k, FirstDescriptionBy(items, sku, desc, k), SumOptions(Filter(items, Carrying(sku, k)), qty)))
      else None
    decreases |items|
  {
    if items != [] {
      var front, x := Init(items), Last(items);
      var carries := Carrying(sku, k);
      SkuCountEntryBy(front, f, sku, desc, qty, k);
      var m := FoldLeft([], front, f);
      assert FoldLeft([], items, f) == AddSkuBy(m, x, sku, desc, qty);
      FilterLast(items, carries);
      var kept := Filter(front, carries);
      if sku(x) != k {
        assert Filter(items, carries) == kept + [] == kept;
        assert HasSkuBy(items, sku, k) == HasSkuBy(front, sku, k);
      } else {
        assert Filter(items, carries) == kept + [x];
        SkuCountHit(front, x, m, sku, desc, qty, k);
      }
    }
  }

  /** The step of `SkuCountEntryBy` for an item that carries `k`. */
  lemma SkuCountHit<T(!new)>(front: seq<T>, x: T, m: Dict<SkuCount>, sku: T -> string, desc: T -> string, qty: T -> Option<int>, k: string)
    requires sku(x) == k
    requires Get(m, k) ==
      if HasSkuBy(front, sku, k)
      then Some(SkuCount(k, FirstDescriptionBy(front, sku, desc, k), SumOptions(Filter(front, Carrying(sku, k)), qty)))
      else None
    ensures Get(AddSkuBy(m, x, sku, desc, qty), k) ==
      Some(SkuCount(k, FirstDescriptionBy(front + [x], sku, desc, k), SumOptions(Filter(front, Carrying(sku, k)) + [x], qty)))
  {
    var kept := Filter(front, Carrying(sku, k));
    var items := front + [x];
    assert Init(items) == front && Last(items) == x;
    var entry := if Get(m, k).Some? then Get(m, k).value else SkuCount(k, desc(x), Some(0));
    var updated := entry.(totalQty := AddQty(entry.totalQty, qty(x)));
    assert AddSkuBy(m, x, sku, desc, qty) == Put(m, k, updated);
    assert Get(AddSkuBy(m, x, sku, desc, qty), k) == Some(updated);
    assert entry.totalQty == SumOptions(kept, qty) by {
      if !HasSkuBy(front, sku, k) {
        KeptNone(front, sku, k);
      }
    }
    AddQtySnoc(kept, x, qty, entry.totalQty);
    if HasSkuBy(front, sku, k) {
      assert FirstDescriptionBy(items, sku, desc, k) == FirstDescriptionBy(front, sku, desc, k);
    } else {
      assert FirstDescriptionBy(items, sku, desc, k) == desc(x);
    }
  }

  /** `+=` of one more quantity onto a running sum. */
  lemma AddQtySnoc<T>(s: seq<T>, x: T, qty: T -> Option<int>, sum: Option<int>)
    requires sum == SumOptions(s, qty)
    ensures AddQty(sum, qty(x)) == SumOptions(s + [x], qty)
  {
    SumOptionsSnoc(s, x, qty);
  }

  /** With no item carrying `k`, the filter keeps nothing. */
  lemma KeptNone<T(!new)>(s: seq<T>, sku: T -> string, k: string)
    requires !HasSkuBy(s, sku, k)
    ensures Filter(s, Carrying(sku, k)) == []
  {
    var kept := Filter(s, Carrying(sku, k));
    if kept != [] {
      FilterMember(s, Carrying(sku, k), kept[0]);
      NotCarriedBy(s, sku, k, kept[0]);
    }
  }

  lemma {:induction false} NotCarriedBy<T>(items: seq<T>, sku: T -> string, k: string, item: T)
    requires !HasSkuBy(items, sku, k) && item in items
    ensures sku(item) != k
    decreases |items|
  {
    if item != Last(items) {
      InitLast(items);
      NotCarriedBy(Init(items), sku, k, item);
    }
  }

  /** The `Object.values(bays).forEach` statistics loop, nested as it is:
      bays, then levels, then the entries of each level, then the items of
      each occupied entry. */
  method AisleStats(bays: Bays, occupancy: Dict<seq<Row>>)
    returns (totalLocs: int, occupiedLocs: int, emptyLocs: int, skuCounts: Dict<SkuCount>)
    ensures totalLocs == |AisleLocations(bays)|
    ensures occupiedLocs == Count(AisleLocations(bays), (loc: Row) => Occupied(occupancy, loc))
    ensures emptyLocs == totalLocs - occupiedLocs && emptyLocs >= 0
    ensures skuCounts == FoldLeft([], ItemsOf(occupancy, AisleLocations(bays)), CountItem)
  {
    totalLocs, occupiedLocs, skuCounts := 0, 0, [];
    var all := Values(bays);
    var i := 0;
    assert all[..i] == [];
    while i < |all|
      invariant 0 <= i <= |all|
      invariant Tally(totalLocs, occupiedLocs, skuCounts) ==
        FoldLeft(Tally(0, 0, []), Flatten(Map(all[..i], LevelLocations)), LocationStep(occupancy))
    {
      totalLocs, occupiedLocs, skuCounts := VisitBay(all, i, occupancy, totalLocs, occupiedLocs, skuCounts);
      i := i + 1;
    }
    assert all[..i] == all;
    AisleFigures(bays, occupancy);
    emptyLocs := totalLocs - occupiedLocs;
  }

  /** `Object.values(bays).forEach` for the bay at `i`. */
  method VisitBay(all: seq<Levels>, i: nat, occupancy: Dict<seq<Row>>, totalLocs: int, occupiedLocs: int, skuCounts: Dict<SkuCount>)
    returns (total': int, occupied': int, counts': Dict<SkuCount>)
    requires i < |all|
    requires Tally(totalLocs, occupiedLocs, skuCounts) ==
      FoldLeft(Tally(0, 0, []), Flatten(Map(all[..i], LevelLocations)), LocationStep(occupancy))
    ensures Tally(total', occupied', counts') ==
      FoldLeft(Tally(0, 0, []), Flatten(Map(all[..i + 1], LevelLocations)), LocationStep(occupancy))
  {
    total', occupied', counts' := TallyLevels(all[i], occupancy, totalLocs, occupiedLocs, skuCounts);
    FlattenMapPrefix(all, LevelLocations, i);
    FoldAppend(Tally(0, 0, []), Flatten(Map(all[..i], LevelLocations)), LevelLocations(all[i]), LocationStep(occupancy));
  }

  /** `Object.values(levels).forEach`: the entries of one bay. */
  method TallyLevels(levels: Levels, occupancy: Dict<seq<Row>>, totalLocs: int, occupiedLocs: int, skuCounts: Dict<SkuCount>)
    returns (total': int, occupied': int, counts': Dict<SkuCount>)
    ensures Tally(total', occupied', counts') ==
      FoldLeft(Tally(totalLocs, occupiedLocs, skuCounts), LevelLocations(levels), LocationStep(occupancy))
  {
    total', occupied', counts' := totalLocs, occupiedLocs, skuCounts;
    var all := Values(levels);
    var j := 0;
    assert all[..j] == [];
    while j < |all|
      invariant 0 <= j <= |all|
      invariant Tally(total', occupied', counts') ==
        FoldLeft(Tally(totalLocs, occupiedLocs, skuCounts), Flatten(all[..j]), LocationStep(occupancy))
    {
      ghost var before := Flatten(all[..j]);
      total', occupied', counts' := TallyLocations(all[j], occupancy, total', occupied', counts');
      assert all[..j + 1] == all[..j] + [all[j]];
      FlattenSnoc(all[..j], all[j]);
      FoldAppend(Tally(totalLocs, occupiedLocs, skuCounts), before, all[j], LocationStep(occupancy));
      j := j + 1;
    }
    assert all[..j] == all;
  }

  /** `levelLocs.forEach`: the entries of one level. */
  method TallyLocations(locs: seq<Row>, occupancy: Dict<seq<Row>>, totalLocs: int, occupiedLocs: int, skuCounts: Dict<SkuCount>)
    returns (total': int, occupied': int, counts': Dict<SkuCount>)
    ensures Tally(total', occupied', counts') ==
      FoldLeft(Tally(totalLocs, occupiedLocs, skuCounts), locs, LocationStep(occupancy))
  {
    total', occupied', counts' := totalLocs, occupiedLocs, skuCounts;
    var k := 0;
    assert locs[..k] == [];
    while k < |locs|
      invariant 0 <= k <= |locs|
      invariant Tally(total', occupied', counts') ==
        FoldLeft(Tally(totalLocs, occupiedLocs, skuCounts), locs[..k], LocationStep(occupancy))
    {
      FoldPrefix(Tally(totalLocs, occupiedLocs, skuCounts), locs, LocationStep(occupancy), k);
      total', occupied', counts' := VisitLocation(locs[k], occupancy, total', occupied', counts');
      k := k + 1;
    }
    assert locs[..k] == locs;
  }

  /** The body of `levelLocs.forEach` for one entry. */
  method VisitLocation(loc: Row, occupancy: Dict<seq<Row>>, totalLocs: int, occupiedLocs: int, skuCounts: Dict<SkuCount>)
    returns (total': int, occupied': int, counts': Dict<SkuCount>)
    ensures Tally(total', occupied', counts') == TallyLocation(occupancy, Tally(totalLocs, occupiedLocs, skuCounts), loc)
  {
    total', occupied', counts' := totalLocs + 1, occupiedLocs, skuCounts;
    var items := Get(occupancy, LocationKey(loc));
    if items.Some? && |items.value| > 0 {
      occupied' := occupied' + 1;
      counts' := TallyItems(items.value, counts');
    }
  }

  /** `items.forEach`: the SKU totals of one occupied location. */
  method TallyItems(items: seq<Row>, skuCounts: Dict<SkuCount>) returns (counts': Dict<SkuCount>)
    ensures counts' == FoldLeft(skuCounts, items, CountItem)
  {
    counts' := skuCounts;
    var n := 0;
    assert items[..n] == [];
    while n < |items|
      invariant 0 <= n <= |items|
      invariant counts' == FoldLeft(skuCounts, items[..n], CountItem)
    {
      FoldPrefix(skuCounts, items, CountItem, n);
      counts' := VisitItem(items[n], counts');
      n := n + 1;
    }
    assert items[..n] == items;
  }

  /** The body of `items.forEach` for one item. */
  method VisitItem(item: Row, skuCounts: Dict<SkuCount>) returns (counts': Dict<SkuCount>)
    ensures counts' == CountItem(skuCounts, item)
  {
    var skuId := SkuIdOf(item);
    var skuDesc := SkuDescOf(item);
    var qty := ItemQty(item);
    var entry := match Get(skuCounts, skuId)
      case None => SkuCount(skuId, skuDesc, Some(0))
      case Some(e) => e;
    counts' := Put(skuCounts, skuId, entry.(totalQty := AddQty(entry.totalQty, qty)));
  }

  // ---------------------------------------------------------------------------
  // Warehouse export

  /** The header line of the warehouse export. */
  const WarehouseHeader: seq<string> :=
    ["Aisle", "Bay", "Level", "Location Code", "Status", "SKU ID", "Description", "Quantity", "Pallet ID"]

  /** `"${loc.locationCode}"`: an absent code prints as `undefined`. */
  function CodeCell(loc: Row): string {
    Quote(JsString(Lookup(loc, "locationCode")))
  }

  /** The four cells a stock record contributes: its SKU, description,
      quantity (`0` when missing) and pallet. */
  function ItemCells(item: Row): (cells: seq<string>)
    ensures |cells| == 4
  {
    [Quote(ValueOr(item, "sku_id", "")), Quote(ValueOr(item, "sku_description", "")),
     ValueOr(item, "current_qty", "0"), Quote(ValueOr(item, "pallet_id", ""))]
  }

  /** A line below the header: place, location code, status, then the rest. */
  function LineOf(aisle: string, bay: string, level: string, code: string, status: string, rest: seq<string>): seq<string> {
    [aisle, bay, level, code, status] + rest
  }

  /** The line of one stock record at an occupied location. */
  function ItemLine(aisle: string, bay: string, level: string, loc: Row, item: Row): seq<string> {
    LineOf(aisle, bay, level, CodeCell(loc), "Occupied", ItemCells(item))
  }

  function ItemLineAt(aisle: string, bay: string, level: string, loc: Row): Row -> seq<string> {
    item => ItemLine(aisle, bay, level, loc, item)
  }

  /** The line of a location without stock. */
  function EmptyLine(aisle: string, bay: string, level: string, loc: Row): seq<string> {
    LineOf(aisle, bay, level, CodeCell(loc), "Empty", ["", "", "", ""])
  }

  /** The lines of one location: one per stock record there, or a single
      `Empty` line. */
  function LocationLines(occupancy: Dict<seq<Row>>, aisle: string, bay: string, level: string, loc: Row): seq<seq<string>> {
    var items := ItemsAt(occupancy, loc);
    if |items| > 0 then Map(items, ItemLineAt(aisle, bay, level, loc)) else [EmptyLine(aisle, bay, level, loc)]
  }

  function LocationLinesAt(occupancy: Dict<seq<Row>>, aisle: string, bay: string, level: string): Row -> seq<seq<string>> {
    loc => LocationLines(occupancy, aisle, bay, level, loc)
  }

  /** The lines of one level, its locations in list order. */
  function LevelLines(occupancy: Dict<seq<Row>>, aisle: string, bay: string, level: string, locs: seq<Row>): seq<seq<string>> {
    Flatten(Map(locs, LocationLinesAt(occupancy, aisle, bay, level)))
  }

  function LevelLinesAt(occupancy: Dict<seq<Row>>, aisle: string, bay: string, levels: Levels): string -> seq<seq<string>> {
    level => LevelLines(occupancy, aisle, bay, level, Get(levels, level).GetOr([]))
  }

  /** The lines of one bay, its levels in `sortKeys` order. */
  function BayLines(occupancy: Dict<seq<Row>>, aisle: string, bay: string, levels: Levels): seq<seq<string>> {
    Flatten(Map(KeySort(Keys(levels)), LevelLinesAt(occupancy, aisle, bay, levels)))
  }

  function BayLinesAt(occupancy: Dict<seq<Row>>, aisle: string, bays: Bays): string -> seq<seq<string>> {
    bay => BayLines(occupancy, aisle, bay, Get(bays, bay).GetOr([]))
  }

  /** The lines of one aisle, its bays in `sortKeys` order. */
  function AisleLines(occupancy: Dict<seq<Row>>, aisle: string, bays: Bays): seq<seq<string>> {
    Flatten(Map(KeySort(Keys(bays)), BayLinesAt(occupancy, aisle, bays)))
  }

  function AisleLinesAt(occupancy: Dict<seq<Row>>, structure: Structure): string -> seq<seq<string>> {
    aisle => AisleLines(occupancy, aisle, Get(structure, aisle).GetOr([]))
  }

  /** The `rows` of `handleExport`: the header, then the aisles in
      `sortKeys` order. */
  function WarehouseTable(structure: Structure, occupancy: Dict<seq<Row>>): seq<seq<string>> {
    [WarehouseHeader] + Flatten(Map(KeySort(Keys(structure)), AisleLinesAt(occupancy, structure)))
  }

  /** A line below the header: a cell per header column, status `Occupied`
      or `Empty`, placed under its aisle, bay and level. */
  predicate PlacedLine(aisle: string, bay: string, level: string, line: seq<string>) {
    |line| == 9 && (line[4] == "Occupied" || line[4] == "Empty")
    && line[..3] == [aisle, bay, level]
  }

  /** The line of a location without stock. */
  predicate IsEmptyLine(line: seq<string>) {
    |line| > 4 && line[4] == "Empty"
  }

  /** How many lines a location gets: one per stock record, at least one. */
  function LineCount(occupancy: Dict<seq<Row>>, loc: Row): int {
    if Occupied(occupancy, loc) then |ItemsAt(occupancy, loc)| else 1
  }

  function LineCountAt(occupancy: Dict<seq<Row>>): Row -> int {
    loc => LineCount(occupancy, loc)
  }

  function VacantAt(occupancy: Dict<seq<Row>>): Row -> bool {
    loc => !Occupied(occupancy, loc)
  }

  /** The statuses of the two kinds of line differ. */
  lemma StatusesDiffer()
    ensures "Occupied" != "Empty"
  {
    assert |"Occupied"| != |"Empty"|;
  }

  /** The cells of a line built by `LineOf`. */
  lemma LineOfCells(aisle: string, bay: string, level: string, code: string, status: string, rest: seq<string>)
    requires |rest| == 4
    ensures var line := LineOf(aisle, bay, level, code, status, rest);
      |line| == 9 && line[..3] == [aisle, bay, level] && line[3] == code && line[4] == status
      && line[5..] == rest
  {
    var line := LineOf(aisle, bay, level, code, status, rest);
    assert line[..3] == [aisle, bay, level];
    assert line[5..] == rest;
  }

  lemma ItemLineShape(aisle: string, bay: string, level: string, loc: Row, item: Row)
    ensures var line := ItemLine(aisle, bay, level, loc, item);
      PlacedLine(aisle, bay, level, line) && line[3] == CodeCell(loc) && line[4] == "Occupied" && !IsEmptyLine(line)
      && line[5..] == ItemCells(item)
  {
    LineOfCells(aisle, bay, level, CodeCell(loc), "Occupied", ItemCells(item));
    StatusesDiffer();
  }

  lemma EmptyLineShape(aisle: string, bay: string, level: string, loc: Row)
    ensures var line := EmptyLine(aisle, bay, level, loc);
      PlacedLine(aisle, bay, level, line) && line[3] == CodeCell(loc) && line[4] != "Occupied" && IsEmptyLine(line)
  {
    LineOfCells(aisle, bay, level, CodeCell(loc), "Empty", ["", "", "", ""]);
    StatusesDiffer();
  }

  /** One location's lines: one per stock record, each carrying the record's
      cells, or one `Empty` line; all under the location's code. */
  lemma LocationLinesMeaning(occupancy: Dict<seq<Row>>, aisle: string, bay: string, level: string, loc: Row)
    ensures var lines := LocationLines(occupancy, aisle, bay, level, loc);
      && |lines| == LineCount(occupancy, loc)
      && Count(lines, IsEmptyLine) == (if Occupied(occupancy, loc) then 0 else 1)
      && (forall k :: 0 <= k < |lines| ==>
            && PlacedLine(aisle, bay, level, lines[k]) && lines[k][3] == CodeCell(loc)
            && (lines[k][4] == "Occupied" <==> Occupied(occupancy, loc))
            && (Occupied(occupancy, loc) ==> lines[k][5..] == ItemCells(ItemsAt(occupancy, loc)[k])))
  {
    var lines := LocationLines(occupancy, aisle, bay, level, loc);
    if Occupied(occupancy, loc) {
      var items := ItemsAt(occupancy, loc);
      forall k | 0 <= k < |lines|
        ensures lines[k] == ItemLine(aisle, bay, level, loc, items[k])
        ensures PlacedLine(aisle, bay, level, lines[k]) && lines[k][3] == CodeCell(loc) && lines[k][4] == "Occupied"
        ensures !IsEmptyLine(lines[k]) && lines[k][5..] == ItemCells(items[k])
      {
        ItemLineShape(aisle, bay, level, loc, items[k]);
      }
      CountNone(lines, IsEmptyLine);
    } else {
      EmptyLineShape(aisle, bay, level, loc);
      assert Init(lines) == [];
    }
  }

  function PlacedAt(aisle: string, bay: string, level: string): seq<string> -> bool {
    line => PlacedLine(aisle, bay, level, line)
  }

  /** A level's lines: as many as its locations' line counts add up to,
      one `Empty` line per location without stock, all under the level. */
  lemma LevelLinesMeaning(occupancy: Dict<seq<Row>>, aisle: string, bay: string, level: string, locs: seq<Row>)
    ensures var lines := LevelLines(occupancy, aisle, bay, level, locs);
      && |lines| == SumOf(locs, LineCountAt(occupancy))
      && Count(lines, IsEmptyLine) == Count(locs, VacantAt(occupancy))
      && forall k :: 0 <= k < |lines| ==> PlacedLine(aisle, bay, level, lines[k])
  {
    var f := LocationLinesAt(occupancy, aisle, bay, level);
    var vacant := (loc: Row) => if Occupied(occupancy, loc) then 0 else 1;
    forall loc ensures |f(loc)| == LineCountAt(occupancy)(loc) && Count(f(loc), IsEmptyLine) == vacant(loc)
      && forall j :: 0 <= j < |f(loc)| ==> PlacedAt(aisle, bay, level)(f(loc)[j])
    {
      LocationLinesMeaning(occupancy, aisle, bay, level, loc);
    }
    FlattenMapLength(locs, f, LineCountAt(occupancy));
    FlattenMapCount(locs, f, IsEmptyLine, vacant);
    SumOfIndicator(locs, VacantAt(occupancy), vacant);
    FlattenMapAll(locs, f, PlacedAt(aisle, bay, level));
  }

  /** The sum of `g` over the keys of `d` is the sum of `h` over its values
      when `g` reads a key's value and applies `h`. */
  lemma {:induction false} KeysSum<V>(d: Dict<V>, h: V -> int, g: string -> int)
    requires forall i :: 0 <= i < |d| ==> g(d[i].0) == h(d[i].1)
    ensures SumOf(Keys(d), g) == SumValues(d, h)
    decreases |d|
  {
    if d != [] {
      var tail := d[1..];
      forall i | 0 <= i < |tail| ensures g(tail[i].0) == h(tail[i].1) {
        assert tail[i] == d[i + 1];
      }
      KeysSum(tail, h, g);
      assert Keys(d) == [d[0].0] + Keys(tail);
      SumAppend([d[0].0], Keys(tail), g);
      assert Init([d[0].0]) == [];
    }
  }

  /** Summing over the keys in `sortKeys` order is summing over the values. */
  lemma KeyedSum<V>(d: Dict<V>, fallback: V, h: V -> int, g: string -> int)
    requires DistinctKeys(d)
    requires forall k :: g(k) == h(Get(d, k).GetOr(fallback))
    ensures SumOf(KeySort(Keys(d)), g) == SumValues(d, h)
  {
    KeySortPermutes(Keys(d));
    SumPermutation(KeySort(Keys(d)), Keys(d), g);
    forall i | 0 <= i < |d| ensures g(d[i].0) == h(d[i].1) {
      GetAt(d, i);
    }
    KeysSum(d, h, g);
  }

  /** Lines and `Empty` lines of a list of locations. */
  function LocsLines(occupancy: Dict<seq<Row>>): seq<Row> -> int {
    locs => SumOf(locs, LineCountAt(occupancy))
  }

  function LocsVacant(occupancy: Dict<seq<Row>>): seq<Row> -> int {
    locs => Count(locs, VacantAt(occupancy))
  }

  /** Lines and `Empty` lines of a bay's levels. */
  function LevelsLines(occupancy: Dict<seq<Row>>): Levels -> int {
    levels => SumValues(levels, LocsLines(occupancy))
  }

  function LevelsVacant(occupancy: Dict<seq<Row>>): Levels -> int {
    levels => SumValues(levels, LocsVacant(occupancy))
  }

  /** Lines and `Empty` lines of an aisle's bays. */
  function BaysLines(occupancy: Dict<seq<Row>>): Bays -> int {
    bays => SumValues(bays, LevelsLines(occupancy))
  }

  function BaysVacant(occupancy: Dict<seq<Row>>): Bays -> int {
    bays => SumValues(bays, LevelsVacant(occupancy))
  }

  /** A line of the export has one cell per header column. */
  predicate FullLine(line: seq<string>) {
    |line| == 9
  }

  /** The lines of one level of a bay, read through the bay's object. */
  lemma LevelLinesFull(occupancy: Dict<seq<Row>>, aisle: string, bay: string, levels: Levels, level: string)
    ensures var locs := Get(levels, level).GetOr([]);
      var lines := LevelLinesAt(occupancy, aisle, bay, levels)(level);
      && |lines| == LocsLines(occupancy)(locs)
      && Count(lines, IsEmptyLine) == LocsVacant(occupancy)(locs)
      && forall j :: 0 <= j < |lines| ==> FullLine(lines[j])
  {
    var locs := Get(levels, level).GetOr([]);
    LevelLinesMeaning(occupancy, aisle, bay, level, locs);
    var lines := LevelLines(occupancy, aisle, bay, level, locs);
    forall j | 0 <= j < |lines| ensures FullLine(lines[j]) {
      assert PlacedLine(aisle, bay, level, lines[j]);
    }
  }

  /** A bay's lines: each level in turn, so as many lines as its locations'
      line counts add up to and one `Empty` line per location without stock. */
  lemma BayLinesMeaning(occupancy: Dict<seq<Row>>, aisle: string, bay: string, levels: Levels)
    requires LevelsKeyed(levels)
    ensures var lines := BayLines(occupancy, aisle, bay, levels);
      && |lines| == LevelsLines(occupancy)(levels)
      && Count(lines, IsEmptyLine) == LevelsVacant(occupancy)(levels)
      && forall k :: 0 <= k < |lines| ==> FullLine(lines[k])
  {
    var f := LevelLinesAt(occupancy, aisle, bay, levels);
    var size := (level: string) => LocsLines(occupancy)(Get(levels, level).GetOr([]));
    var vacant := (level: string) => LocsVacant(occupancy)(Get(levels, level).GetOr([]));
    forall level ensures |f(level)| == size(level) && Count(f(level), IsEmptyLine) == vacant(level)
      && forall j :: 0 <= j < |f(level)| ==> FullLine(f(level)[j])
    {
      LevelLinesFull(occupancy, aisle, bay, levels, level);
    }
    var keys := KeySort(Keys(levels));
    FlattenMapLength(keys, f, size);
    FlattenMapCount(keys, f, IsEmptyLine, vacant);
    FlattenMapAll(keys, f, FullLine);
    KeyedSum(levels, [], LocsLines(occupancy), size);
    KeyedSum(levels, [], LocsVacant(occupancy), vacant);
  }

  /** The lines of one bay of an aisle, read through the aisle's object. */
  lemma BayLinesFull(occupancy: Dict<seq<Row>>, aisle: string, bays: Bays, bay: string)
    requires BaysKeyed(bays)
    ensures var levels := Get(bays, bay).GetOr([]);
      var lines := BayLinesAt(occupancy, aisle, bays)(bay);
      && |lines| == LevelsLines(occupancy)(levels)
      && Count(lines, IsEmptyLine) == LevelsVacant(occupancy)(levels)
      && forall j :: 0 <= j < |lines| ==> FullLine(lines[j])
  {
    if Get(bays, bay).Some? {
      GetAll(bays, bay, LevelsKeyed);
    }
    BayLinesMeaning(occupancy, aisle, bay, Get(bays, bay).GetOr([]));
  }

  /** An aisle's lines: each bay in turn, so as many lines as its locations'
      line counts add up to and one `Empty` line per location without stock. */
  lemma AisleLinesMeaning(occupancy: Dict<seq<Row>>, aisle: string, bays: Bays)
    requires BaysKeyed(bays)
    ensures var lines := AisleLines(occupancy, aisle, bays);
      && |lines| == BaysLines(occupancy)(bays)
      && Count(lines, IsEmptyLine) == BaysVacant(occupancy)(bays)
      && forall k :: 0 <= k < |lines| ==> FullLine(lines[k])
  {
    var f := BayLinesAt(occupancy, aisle, bays);
    var size := (bay: string) => LevelsLines(occupancy)(Get(bays, bay).GetOr([]));
    var vacant := (bay: string) => LevelsVacant(occupancy)(Get(bays, bay).GetOr([]));
    forall bay ensures |f(bay)| == size(bay) && Count(f(bay), IsEmptyLine) == vacant(bay)
      && forall j :: 0 <= j < |f(bay)| ==> FullLine(f(bay)[j])
    {
      BayLinesFull(occupancy, aisle, bays, bay);
    }
    var keys := KeySort(Keys(bays));
    FlattenMapLength(keys, f, size);
    FlattenMapCount(keys, f, IsEmptyLine, vacant);
    FlattenMapAll(keys, f, FullLine);
    KeyedSum(bays, [], LevelsLines(occupancy), size);
    KeyedSum(bays, [], LevelsVacant(occupancy), vacant);
  }

  /** The lines of one aisle of the structure. */
  lemma AisleLinesFull(occupancy: Dict<seq<Row>>, structure: Structure, aisle: string)
    requires WellKeyed(structure)
    ensures var bays := Get(structure, aisle).GetOr([]);
      var lines := AisleLinesAt(occupancy, structure)(aisle);
      && |lines| == BaysLines(occupancy)(bays)
      && Count(lines, IsEmptyLine) == BaysVacant(occupancy)(bays)
      && forall j :: 0 <= j < |lines| ==> FullLine(lines[j])
  {
    if Get(structure, aisle).Some? {
      GetAll(structure, aisle, BaysKeyed);
    }
    AisleLinesMeaning(occupancy, aisle, Get(structure, aisle).GetOr([]));
  }

  /** The header is a full line and not an `Empty` one. */
  lemma HeaderShape()
    ensures FullLine(WarehouseHeader) && !IsEmptyLine(WarehouseHeader)
  {
    assert WarehouseHeader[4] == "Status";
    assert |"Status"| != |"Empty"|;
  }

  /** The lines below the header: each aisle in turn. */
  lemma AislesLinesMeaning(structure: Structure, occupancy: Dict<seq<Row>>)
    requires WellKeyed(structure)
    ensures var lines := Flatten(Map(KeySort(Keys(structure)), AisleLinesAt(occupancy, structure)));
      && |lines| == SumValues(structure, BaysLines(occupancy))
      && Count(lines, IsEmptyLine) == SumValues(structure, BaysVacant(occupancy))
      && forall k :: 0 <= k < |lines| ==> FullLine(lines[k])
  {
    var f := AisleLinesAt(occupancy, structure);
    var size := (aisle: string) => BaysLines(occupancy)(Get(structure, aisle).GetOr([]));
    var vacant := (aisle: string) => BaysVacant(occupancy)(Get(structure, aisle).GetOr([]));
    forall aisle ensures |f(aisle)| == size(aisle) && Count(f(aisle), IsEmptyLine) == vacant(aisle)
      && forall j :: 0 <= j < |f(aisle)| ==> FullLine(f(aisle)[j])
    {
      AisleLinesFull(occupancy, structure, aisle);
    }
    var keys := KeySort(Keys(structure));
    FlattenMapLength(keys, f, size);
    FlattenMapCount(keys, f, IsEmptyLine, vacant);
    FlattenMapAll(keys, f, FullLine);
    KeyedSum(structure, [], BaysLines(occupancy), size);
    KeyedSum(structure, [], BaysVacant(occupancy), vacant);
  }

  /** The whole table: the header and then one line per stock record at an
      occupied location and one `Empty` line per location without stock,
      each with a cell per header column. */
  lemma WarehouseTableMeaning(structure: Structure, occupancy: Dict<seq<Row>>)
    requires WellKeyed(structure)
    ensures var table := WarehouseTable(structure, occupancy);
      && |table| == 1 + SumValues(structure, BaysLines(occupancy))
      && Count(table, IsEmptyLine) == SumValues(structure, BaysVacant(occupancy))
      && table[0] == WarehouseHeader
      && forall k :: 0 <= k < |table| ==> FullLine(table[k])
  {
    var body := Flatten(Map(KeySort(Keys(structure)), AisleLinesAt(occupancy, structure)));
    AislesLinesMeaning(structure, occupancy);
    HeaderShape();
    CountAppend([WarehouseHeader], body, IsEmptyLine);
    assert Init([WarehouseHeader]) == [];
    var table := [WarehouseHeader] + body;
    forall k | 0 <= k < |table| ensures FullLine(table[k]) {
      if k > 0 {
        assert table[k] == body[k - 1];
      }
    }
  }

  /** With nothing in stock, every location gets exactly one line, and it is
      an `Empty` one. */
  lemma VacantLocations(locs: seq<Row>)
    ensures LocsLines([])(locs) == |locs| && LocsVacant([])(locs) == |locs|
  {
    var none: Dict<seq<Row>> := [];
    forall loc ensures LineCountAt(none)(loc) == if VacantAt(none)(loc) then 1 else 0 {
      assert ItemsAt(none, loc) == [];
      assert !Occupied(none, loc);
    }
    SumOfIndicator(locs, VacantAt([]), LineCountAt([]));
    forall i | 0 <= i < |locs| ensures VacantAt([])(locs[i]) {
      assert ItemsAt([], locs[i]) == [];
    }
  }

  /** The export of a sheet with nothing in stock: the header, then one
      `Empty` line per row of the sheet that has a location code. */
  lemma EmptyStockExport(rows: seq<Row>)
    ensures var table := WarehouseTable(BlueprintOf(rows), []);
      && |table| == 1 + Count(rows, HasLocCode)
      && Count(table, IsEmptyLine) == Count(rows, HasLocCode)
  {
    var s := BlueprintOf(rows);
    BlueprintKeyed(rows);
    WarehouseTableMeaning(s, []);
    forall levels ensures LevelsLines([])(levels) == LevelsSize(levels) && LevelsVacant([])(levels) == LevelsSize(levels) {
      forall locs ensures LocsLines([])(locs) == Length(locs) && LocsVacant([])(locs) == Length(locs) {
        VacantLocations(locs);
      }
      SumValuesSame(levels, LocsLines([]), Length);
      SumValuesSame(levels, LocsVacant([]), Length);
    }
    forall bays ensures BaysLines([])(bays) == BaysSize(bays) && BaysVacant([])(bays) == BaysSize(bays) {
      SumValuesSame(bays, LevelsLines([]), LevelsSize);
      SumValuesSame(bays, LevelsVacant([]), LevelsSize);
    }
    SumValuesSame(s, BaysLines([]), BaysSize);
    SumValuesSame(s, BaysVacant([]), BaysSize);
    EntryCount(rows);
  }

  /** `handleExport` up to the download: the CSV text of the table. */
  method WarehouseExport(structure: Structure, occupancy: Dict<seq<Row>>) returns (csv: string)
    ensures csv == CsvText(WarehouseTable(structure, occupancy))
  {
    var aisles := SortedKeys(Keys(structure));
    var rows := [WarehouseHeader];
    var i := 0;
    assert aisles[..i] == [];
    while i < |aisles|
      invariant 0 <= i <= |aisles|
      invariant rows == [WarehouseHeader] + Flatten(Map(aisles[..i], AisleLinesAt(occupancy, structure)))
    {
      PushStep([WarehouseHeader], rows, aisles, AisleLinesAt(occupancy, structure), i);
      rows := PushAisle(rows, occupancy, aisles[i], Get(structure, aisles[i]).GetOr([]));
      i := i + 1;
    }
    assert aisles[..i] == aisles;
    csv := CsvText(rows);
  }

  /** `sortKeys(Object.keys(o))`: the keys copied into a fresh array and
      sorted there. */
  method SortedKeys(keys: seq<string>) returns (r: seq<string>)
    ensures r == KeySort(keys)
  {
    var a := new string[|keys|](k requires 0 <= k < |keys| => keys[k]);
    assert a[..] == keys;
    SortKeys(a);
    r := a[..];
  }

  /** The lines of the aisle pushed onto `rows`. */
  method PushAisle(rows: seq<seq<string>>, occupancy: Dict<seq<Row>>, aisle: string, bays: Bays) returns (rows': seq<seq<string>>)
    ensures rows' == rows + AisleLines(occupancy, aisle, bays)
  {
    var keys := SortedKeys(Keys(bays));
    rows' := rows;
    var j := 0;
    assert keys[..j] == [] && rows + Flatten([]) == rows;
    while j < |keys|
      invariant 0 <= j <= |keys|
      invariant rows' == rows + Flatten(Map(keys[..j], BayLinesAt(occupancy, aisle, bays)))
    {
      PushStep(rows, rows', keys, BayLinesAt(occupancy, aisle, bays), j);
      rows' := PushBay(rows', occupancy, aisle, keys[j], Get(bays, keys[j]).GetOr([]));
      j := j + 1;
    }
    assert keys[..j] == keys;
  }

  /** The lines of the bay pushed onto `rows`. */
  method PushBay(rows: seq<seq<string>>, occupancy: Dict<seq<Row>>, aisle: string, bay: string, levels: Levels)
    returns (rows': seq<seq<string>>)
    ensures rows' == rows + BayLines(occupancy, aisle, bay, levels)
  {
    var keys := SortedKeys(Keys(levels));
    rows' := rows;
    var j := 0;
    assert keys[..j] == [] && rows + Flatten([]) == rows;
    while j < |keys|
      invariant 0 <= j <= |keys|
      invariant rows' == rows + Flatten(Map(keys[..j], LevelLinesAt(occupancy, aisle, bay, levels)))
    {
      PushStep(rows, rows', keys, LevelLinesAt(occupancy, aisle, bay, levels), j);
      rows' := PushLevel(rows', occupancy, aisle, bay, keys[j], Get(levels, keys[j]).GetOr([]));
      j := j + 1;
    }
    assert keys[..j] == keys;
  }

  /** The lines of the level's locations pushed onto `rows`. */
  method PushLevel(rows: seq<seq<string>>, occupancy: Dict<seq<Row>>, aisle: string, bay: string, level: string, locs: seq<Row>)
    returns (rows': seq<seq<string>>)
    ensures rows' == rows + LevelLines(occupancy, aisle, bay, level, locs)
  {
    rows' := rows;
    var j := 0;
    assert locs[..j] == [] && rows + Flatten([]) == rows;
    while j < |locs|
      invariant 0 <= j <= |locs|
      invariant rows' == rows + Flatten(Map(locs[..j], LocationLinesAt(occupancy, aisle, bay, level)))
    {
      PushStep(rows, rows', locs, LocationLinesAt(occupancy, aisle, bay, level), j);
      rows' := PushLocation(rows', occupancy, aisle, bay, level, locs[j]);
      j := j + 1;
    }
    assert locs[..j] == locs;
  }

  /** One location: a line per stock record there, or one `Empty` line. */
  method PushLocation(rows: seq<seq<string>>, occupancy: Dict<seq<Row>>, aisle: string, bay: string, level: string, loc: Row)
    returns (rows': seq<seq<string>>)
    ensures rows' == rows + LocationLines(occupancy, aisle, bay, level, loc)
  {
    var normLocCode := LocationKey(loc);
    var items := Get(occupancy, normLocCode);
    if items.Some? && |items.value| > 0 {
      rows' := PushItems(rows, items.value, ItemLineAt(aisle, bay, level, loc));
    } else {
      rows' := rows + [EmptyLine(aisle, bay, level, loc)];
    }
  }

  /** `items.forEach(item => rows.push(line(item)))` */
  method PushItems(rows: seq<seq<string>>, items: seq<Row>, line: Row -> seq<string>) returns (rows': seq<seq<string>>)
    ensures rows' == rows + Map(items, line)
  {
    rows' := rows;
    var k := 0;
    assert items[..k] == [] && rows + Map([], line) == rows;
    while k < |items|
      invariant 0 <= k <= |items|
      invariant rows' == rows + Map(items[..k], line)
    {
      assert items[..k + 1] == items[..k] + [items[k]];
      MapSnoc(items[..k], items[k], line);
      rows' := rows' + [line(items[k])];
      k := k + 1;
    }
    assert items[..k] == items;
  }
}
