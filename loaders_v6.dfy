/** The loaders of app6.py: each turns the rows of one remote table into
    fixed local records, reading every column with a default. A row whose
    `values` cannot be read makes the whole loader give its empty result. */
module LoadersV6 {
  import opened Values
  import opened Sequences

  /** One record of the drug table (columns 藥品名稱, 分類, 許願人數,
      供貨診所數). */
  datatype Drug = Drug(name: Value, category: Value, wishCount: Value, supplyCount: Value)

  /** One record of the inventory table (columns 診所名稱, 藥品名稱, 縣市,
      庫存狀態, 給付條件, 是否上架, 備註). */
  datatype Stock = Stock(
    clinic: Value, drug: Value, city: Value, status: Value,
    conditions: Value, listed: Value, note: Value)

  /** The drug record of one row: the name defaults to 未知, the category
      (remote column 藥品分類) to the empty string and both counts to 0. */
  function DrugOf(vals: FieldBag): (d: Drug)
    ensures GetsOr(vals, "藥品名稱", Str("未知"), d.name)
    ensures GetsOr(vals, "藥品分類", Str(""), d.category)
    ensures GetsOr(vals, "許願人數", Int(0), d.wishCount)
    ensures GetsOr(vals, "供貨診所數", Int(0), d.supplyCount)
  {
    Drug(
      Get(vals, "藥品名稱", Str("未知")),
      Get(vals, "藥品分類", Str("")),
      Get(vals, "許願人數", Int(0)),
      Get(vals, "供貨診所數", Int(0)))
  }

  /** The inventory record of one row: the clinic comes from the remote
      column 診所, the drug from 藥品, the listed flag defaults to False and
      every other field to the empty string. */
  function StockOf(vals: FieldBag): (s: Stock)
    ensures GetsOr(vals, "診所", Str(""), s.clinic)
    ensures GetsOr(vals, "藥品", Str(""), s.drug)
    ensures GetsOr(vals, "縣市", Str(""), s.city)
    ensures GetsOr(vals, "庫存狀態", Str(""), s.status)
    ensures GetsOr(vals, "給付條件", Str(""), s.conditions)
    ensures GetsOr(vals, "是否上架", Bool(false), s.listed)
    ensures GetsOr(vals, "備註", Str(""), s.note)
  {
    Stock(
      Get(vals, "診所", Str("")),
      Get(vals, "藥品", Str("")),
      Get(vals, "縣市", Str("")),
      Get(vals, "庫存狀態", Str("")),
      Get(vals, "給付條件", Str("")),
      Get(vals, "是否上架", Bool(false)),
      Get(vals, "備註", Str("")))
  }

  /** `load_drugs_data`: one record per row, in the rows' order; the empty
      table when some row has no readable `values`. */
  method LoadDrugs(items: seq<Row>) returns (rows: seq<Drug>)
    ensures AllHaveValues(items) ==>
      |rows| == |items| &&
      forall k :: 0 <= k < |items| ==> rows[k] == DrugOf(items[k].values.value)
    ensures !AllHaveValues(items) ==> rows == []
  {
    rows := [];
    var i := 0;
    while i < |items|
      invariant 0 <= i <= |items|
      invariant forall k :: 0 <= k < i ==> HasValues(items[k])
      invariant |rows| == i
      invariant forall k :: 0 <= k < i ==> rows[k] == DrugOf(items[k].values.value)
    {
      if items[i].values.None? {
        return [];
      }
      rows := rows + [DrugOf(items[i].values.value)];
      i := i + 1;
    }
  }

  /** `load_inventory_data`: one record per row, in the rows' order; the
      empty table when some row has no readable `values`. */
  method LoadInventory(items: seq<Row>) returns (rows: seq<Stock>)
    ensures AllHaveValues(items) ==>
      |rows| == |items| &&
      forall k :: 0 <= k < |items| ==> rows[k] == StockOf(items[k].values.value)
    ensures !AllHaveValues(items) ==> rows == []
  {
    rows := [];
    var i := 0;
    while i < |items|
      invariant 0 <= i <= |items|
      invariant forall k :: 0 <= k < i ==> HasValues(items[k])
      invariant |rows| == i
      invariant forall k :: 0 <= k < i ==> rows[k] == StockOf(items[k].values.value)
    {
      if items[i].values.None? {
        return [];
      }
      rows := rows + [StockOf(items[i].values.value)];
      i := i + 1;
    }
  }

  /** The display order of a city row; only used once every row has one. */
  function IndexKey(row: Row): int
  {
    if row.index.Some? then row.index.value else 0
  }

  /** Every row has the `index` the sort reads and the `name` the list
      keeps; otherwise the lookup raises and the loader gives []. */
  predicate CityRowsComplete(items: seq<Row>)
  {
    forall k :: 0 <= k < |items| ==> items[k].index.Some? && items[k].name.Some?
  }

  function Names(rows: seq<Row>): (names: seq<Value>)
    requires CityRowsComplete(rows)
    ensures |names| == |rows|
  {
    seq(|rows|, k requires 0 <= k < |rows| => rows[k].name.value)
  }

  /** `load_cities_data`: the rows sorted by `index` (a stable sort), then
      their names. */
  function LoadCities(items: seq<Row>): (names: seq<Value>)
    ensures CityRowsComplete(items) ==> |names| == |items|
    ensures !CityRowsComplete(items) ==> names == []
  {
    if CityRowsComplete(items) then
      var sorted := SortBy(items, IndexKey);
      SortBySpec(items, IndexKey);
      assert forall k :: 0 <= k < |sorted| ==> sorted[k] in multiset(items);
      Names(sorted)
    else []
  }

  /** The city list is the names of an arrangement of the same rows that is
      ascending by `index` and keeps rows with equal index in their order. */
  lemma CitiesByIndex(items: seq<Row>) returns (sorted: seq<Row>)
    requires CityRowsComplete(items)
    ensures multiset(sorted) == multiset(items)
    ensures SortedBy(sorted, IndexKey)
    ensures forall k :: WithKey(sorted, IndexKey, k) == WithKey(items, IndexKey, k)
    ensures CityRowsComplete(sorted) && LoadCities(items) == Names(sorted)
  {
    sorted := SortBy(items, IndexKey);
    SortBySpec(items, IndexKey);
    forall k ensures WithKey(sorted, IndexKey, k) == WithKey(items, IndexKey, k) {
      SortByStable(items, IndexKey, k);
    }
    assert forall k :: 0 <= k < |sorted| ==> sorted[k] in multiset(items);
  }
}
