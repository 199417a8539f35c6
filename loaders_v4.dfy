/** The loaders of app4.py: each is one comprehension over the listed rows,
    reading every column with a default. A row whose `values` cannot be read
    makes the loader give its empty table. The city loader is the same as
    app6.py's, `LoadersV6.LoadCities`. */
module LoadersV4 {
  import opened Values

  /** Columns 藥品名稱 and 分類. */
  datatype DrugEntry = DrugEntry(name: Value, category: Value)

  /** Columns 想要藥品 and 所在縣市 of one wish. */
  datatype Wish = Wish(drug: Value, city: Value)

  /** Columns 診所名稱, 機構代碼, 藥品名稱, 縣市, 庫存狀態, 給付條件, 是否上架,
      備註. */
  datatype StockEntry = StockEntry(
    clinic: Value, code: Value, drug: Value, city: Value, status: Value,
    conditions: Value, listed: Value, note: Value)

  /** Columns 機構代碼, 藥品名稱, 回饋類型, 備註, 時間. */
  datatype Feedback = Feedback(code: Value, drug: Value, kind: Value, note: Value, time: Value)

  /** One drug entry: name and category (remote column 藥品分類), each
      defaulting to the empty string. */
  function DrugEntryOf(vals: FieldBag): (d: DrugEntry)
    ensures GetsOr(vals, "藥品名稱", Str(""), d.name)
    ensures GetsOr(vals, "藥品分類", Str(""), d.category)
  {
    DrugEntry(Get(vals, "藥品名稱", Str("")), Get(vals, "藥品分類", Str("")))
  }

  /** One wish: drug and city, each defaulting to the empty string. */
  function WishOf(vals: FieldBag): (w: Wish)
    ensures GetsOr(vals, "想要藥品", Str(""), w.drug)
    ensures GetsOr(vals, "所在縣市", Str(""), w.city)
  {
    Wish(Get(vals, "想要藥品", Str("")), Get(vals, "所在縣市", Str("")))
  }

  /** The city column: the newer remote column 縣市1 when the row has it,
      else the older 縣市, else the empty string. The fallback is on the
      key's absence, not on an empty value. */
  function StockCity(vals: FieldBag): (c: Value)
    ensures "縣市1" in vals ==> c == vals["縣市1"]
    ensures "縣市1" !in vals && "縣市" in vals ==> c == vals["縣市"]
    ensures "縣市1" !in vals && "縣市" !in vals ==> c == Str("")
  {
    Get(vals, "縣市1", Get(vals, "縣市", Str("")))
  }

  /** One inventory entry: the clinic from remote column 診所, the drug from
      藥品, the city from `StockCity`, the listed flag defaulting to False
      and every other field to the empty string. */
  function StockEntryOf(vals: FieldBag): (e: StockEntry)
    ensures GetsOr(vals, "診所", Str(""), e.clinic)
    ensures GetsOr(vals, "機構代碼", Str(""), e.code)
    ensures GetsOr(vals, "藥品", Str(""), e.drug)
    ensures e.city == StockCity(vals)
    ensures GetsOr(vals, "庫存狀態", Str(""), e.status)
    ensures GetsOr(vals, "給付條件", Str(""), e.conditions)
    ensures GetsOr(vals, "是否上架", Bool(false), e.listed)
    ensures GetsOr(vals, "備註", Str(""), e.note)
  {
    StockEntry(
      Get(vals, "診所", Str("")),
      Get(vals, "機構代碼", Str("")),
      Get(vals, "藥品", Str("")),
      StockCity(vals),
      Get(vals, "庫存狀態", Str("")),
      Get(vals, "給付條件", Str("")),
      Get(vals, "是否上架", Bool(false)),
      Get(vals, "備註", Str("")))
  }

  /** One feedback entry: the remote column 回報時間 is kept as the time;
      every field defaults to the empty string. */
  function FeedbackOf(vals: FieldBag): (f: Feedback)
    ensures GetsOr(vals, "機構代碼", Str(""), f.code)
    ensures GetsOr(vals, "藥品名稱", Str(""), f.drug)
    ensures GetsOr(vals, "回饋類型", Str(""), f.kind)
    ensures GetsOr(vals, "備註", Str(""), f.note)
    ensures GetsOr(vals, "回報時間", Str(""), f.time)
  {
    Feedback(
      Get(vals, "機構代碼", Str("")),
      Get(vals, "藥品名稱", Str("")),
      Get(vals, "回饋類型", Str("")),
      Get(vals, "備註", Str("")),
      Get(vals, "回報時間", Str("")))
  }

  /** `load_drugs_data`: one record per row, in order, name and category
      (remote column 藥品分類) defaulting to the empty string. */
  function LoadDrugs(items: seq<Row>): (r: seq<DrugEntry>)
    ensures !AllHaveValues(items) ==> r == []
    ensures AllHaveValues(items) ==> |r| == |items|
    ensures AllHaveValues(items) ==> forall k :: 0 <= k < |r| ==>
      var vals := items[k].values.value;
      GetsOr(vals, "藥品名稱", Str(""), r[k].name) &&
      GetsOr(vals, "藥品分類", Str(""), r[k].category)
  {
    if AllHaveValues(items)
    then seq(|items|, k requires 0 <= k < |items| => DrugEntryOf(items[k].values.value))
    else []
  }

  /** `load_requests_raw`: one wish per row, in order, drug and city
      defaulting to the empty string. */
  function LoadRequests(items: seq<Row>): (r: seq<Wish>)
    ensures !AllHaveValues(items) ==> r == []
    ensures AllHaveValues(items) ==> |r| == |items|
    ensures AllHaveValues(items) ==> forall k :: 0 <= k < |r| ==>
      var vals := items[k].values.value;
      GetsOr(vals, "想要藥品", Str(""), r[k].drug) &&
      GetsOr(vals, "所在縣市", Str(""), r[k].city)
  {
    if AllHaveValues(items)
    then seq(|items|, k requires 0 <= k < |items| => WishOf(items[k].values.value))
    else []
  }

  /** `load_inventory_data`: one record per row, in order; the clinic comes
      from remote column 診所 and the drug from 藥品; the listed flag
      defaults to False and every other field to the empty string. */
  function LoadInventory(items: seq<Row>): (r: seq<StockEntry>)
    ensures !AllHaveValues(items) ==> r == []
    ensures AllHaveValues(items) ==> |r| == |items|
    ensures AllHaveValues(items) ==> forall k :: 0 <= k < |r| ==>
      var vals := items[k].values.value;
      GetsOr(vals, "診所", Str(""), r[k].clinic) &&
      GetsOr(vals, "機構代碼", Str(""), r[k].code) &&
      GetsOr(vals, "藥品", Str(""), r[k].drug) &&
      r[k].city == StockCity(vals) &&
      GetsOr(vals, "庫存狀態", Str(""), r[k].status) &&
      GetsOr(vals, "給付條件", Str(""), r[k].conditions) &&
      GetsOr(vals, "是否上架", Bool(false), r[k].listed) &&
      GetsOr(vals, "備註", Str(""), r[k].note)
  {
    if AllHaveValues(items)
    then seq(|items|, k requires 0 <= k < |items| => StockEntryOf(items[k].values.value))
    else []
  }

  /** `load_feedback_data`: one entry per row, in order; the remote column
      回報時間 is kept as 時間; every field defaults to the empty string. */
  function LoadFeedback(items: seq<Row>): (r: seq<Feedback>)
    ensures !AllHaveValues(items) ==> r == []
    ensures AllHaveValues(items) ==> |r| == |items|
    ensures AllHaveValues(items) ==> forall k :: 0 <= k < |r| ==>
      var vals := items[k].values.value;
      GetsOr(vals, "機構代碼", Str(""), r[k].code) &&
      GetsOr(vals, "藥品名稱", Str(""), r[k].drug) &&
      GetsOr(vals, "回饋類型", Str(""), r[k].kind) &&
      GetsOr(vals, "備註", Str(""), r[k].note) &&
      GetsOr(vals, "回報時間", Str(""), r[k].time)
  {
    if AllHaveValues(items)
    then seq(|items|, k requires 0 <= k < |items| => FeedbackOf(items[k].values.value))
    else []
  }

  /** The fallback is on absence, not emptiness: a row whose 縣市1 cell is
      present but empty shows an empty city even when 縣市 holds one. */
  lemma EmptyNewerCityWins(old_city: string)
    ensures StockCity(map["縣市1" := Str(""), "縣市" := Str(old_city)]) == Str("")
  {
  }
}
