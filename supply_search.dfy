/** The "find supply" tab of app6.py: the inventory filtered by the chosen
    drug, the listed flag, the stock status and the chosen city, and the
    payment-condition tags shown on each result. */
module SupplySearch {
  import opened Values
  import opened Text
  import opened Sequences
  import opened LoadersV6

  /** The city choice that means "anywhere in Taiwan". */
  const AllTaiwan: string := "全台灣"

  /** The one stock status the search leaves out. */
  const OutOfStock: string := "缺貨"

  /** `df["藥品名稱"] == drug`, for one row. */
  function ForDrug(drug: Value): Stock -> bool
  {
    (row: Stock) => PdEq(row.drug, drug)
  }

  /** `是否上架 == True` */
  predicate IsListed(row: Stock)
  {
    PdEq(row.listed, Bool(true))
  }

  /** `庫存狀態 != "缺貨"` */
  predicate NotOutOfStock(row: Stock)
  {
    !PdEq(row.status, Str(OutOfStock))
  }

  /** `df["縣市"] == city`, for one row. */
  function InCity(city: Value): Stock -> bool
  {
    (row: Stock) => PdEq(row.city, city)
  }

  /** All the conditions together: a row is found exactly when it passes
      this. */
  predicate Matches(row: Stock, drug: Value, city: Value)
  {
    PdEq(row.drug, drug) && IsListed(row) && NotOutOfStock(row) &&
    (city == Str(AllTaiwan) || PdEq(row.city, city))
  }

  function MatchFor(drug: Value, city: Value): Stock -> bool
  {
    (row: Stock) => Matches(row, drug, city)
  }

  /** The search as written: four successive filters, the city filter only
      when the chosen city is not 全台灣 (a plain Python `!=`). Together they
      are one filter by `Matches`. The chosen drug and city are single
      values; pandas compares a list operand position by position instead. */
  function FindSupply(inventory: seq<Stock>, drug: Value, city: Value): (r: seq<Stock>)
    requires !drug.List? && !city.List?
    ensures r == Keep(inventory, MatchFor(drug, city))
    ensures |r| <= |inventory|
  {
    var byDrug := Keep(inventory, ForDrug(drug));
    var listed := Keep(byDrug, IsListed);
    var inStock := Keep(listed, NotOutOfStock);
    var p2 := (row: Stock) => PdEq(row.drug, drug) && IsListed(row);
    var p3 := (row: Stock) => p2(row) && NotOutOfStock(row);
    KeepKeep(inventory, ForDrug(drug), IsListed, p2);
    KeepKeep(inventory, p2, NotOutOfStock, p3);
    if !PyEq(city, Str(AllTaiwan)) then
      KeepKeep(inventory, p3, InCity(city), MatchFor(drug, city));
      Keep(inStock, InCity(city))
    else
      KeepSame(inventory, p3, MatchFor(drug, city));
      inStock
  }

  /** What the search returns: an order-preserving subsequence of the
      inventory; each returned row has a drug that is present and equals the
      chosen one, is listed (the value True or 1), is not 缺貨, and has a
      present city equal to the chosen one unless the choice is 全台灣; and
      every inventory row meeting all of that is returned, as often as it
      occurs. */
  lemma FindSupplySpec(inventory: seq<Stock>, drug: Value, city: Value)
    requires !drug.List? && !city.List?
    ensures var r := FindSupply(inventory, drug, city);
      IsSubseq(r, inventory) &&
      (forall row :: row in r ==>
        row in inventory &&
        !row.drug.Null? && !drug.Null? && PyEq(row.drug, drug) &&
        (row.listed == Bool(true) || row.listed == Int(1)) &&
        row.status != Str(OutOfStock) &&
        (city != Str(AllTaiwan) ==> !row.city.Null? && !city.Null? && PyEq(row.city, city))) &&
      (forall row :: row in inventory && Matches(row, drug, city) ==>
        multiset(r)[row] == multiset(inventory)[row])
  {
    KeepSpec(inventory, MatchFor(drug, city));
    forall row: Stock
      ensures IsListed(row) <==> row.listed == Bool(true) || row.listed == Int(1)
    {
      PyEqTrue(row.listed);
    }
  }

  /** A missing (None) chosen drug or city finds nothing, because pandas'
      `== None` holds for no cell, not even a missing one. */
  lemma MissingChoiceFindsNothing(inventory: seq<Stock>, drug: Value, city: Value)
    requires !drug.List? && !city.List?
    ensures FindSupply(inventory, Value.Null, city) == []
    ensures FindSupply(inventory, drug, Value.Null) == []
  {
    KeepNone(inventory, MatchFor(Value.Null, city));
    KeepNone(inventory, MatchFor(drug, Value.Null));
  }

  /** Only the literal 缺貨 is left out: a listed row of the chosen drug
      whose status is empty or missing is found. */
  lemma UnknownStatusIsFound(clinic: string, drug: string)
    ensures var row := Stock(Str(clinic), Str(drug), Str(""), Str(""), Str(""), Bool(true), Str(""));
      FindSupply([row], Str(drug), Str(AllTaiwan)) == [row]
    ensures var row := Stock(Str(clinic), Str(drug), Str(""), Value.Null, Str(""), Bool(true), Str(""));
      FindSupply([row], Str(drug), Str(AllTaiwan)) == [row]
  {
  }

  /** Of a listed in-stock row, an unlisted in-stock row and a listed
      out-of-stock row of the same drug and city, only the first is found. */
  lemma OnlyListedInStockFound(drug: string, city: string)
    requires city != AllTaiwan
    ensures
      var a := Stock(Str("A"), Str(drug), Str(city), Str("有貨"), Str(""), Bool(true), Str(""));
      var b := Stock(Str("B"), Str(drug), Str(city), Str("有貨"), Str(""), Bool(false), Str(""));
      var c := Stock(Str("C"), Str(drug), Str(city), Str(OutOfStock), Str(""), Bool(true), Str(""));
      FindSupply([a, b, c], Str(drug), Str(city)) == [a]
  {
    var a := Stock(Str("A"), Str(drug), Str(city), Str("有貨"), Str(""), Bool(true), Str(""));
    var b := Stock(Str("B"), Str(drug), Str(city), Str("有貨"), Str(""), Bool(false), Str(""));
    var c := Stock(Str("C"), Str(drug), Str(city), Str(OutOfStock), Str(""), Bool(true), Str(""));
    assert "有貨" != OutOfStock;
    assert Matches(a, Str(drug), Str(city));
    assert !Matches(b, Str(drug), Str(city));
    assert !Matches(c, Str(drug), Str(city));
    var m := MatchFor(Str(drug), Str(city));
    assert m(a) && !m(b) && !m(c);
    assert [c][1..] == [];
    assert Keep([c], m) == [];
    assert [b, c][1..] == [c];
    assert Keep([b, c], m) == [];
    assert [a, b, c][1..] == [b, c];
    assert Keep([a, b, c], m) == [a];
  }

  /** One condition tag: the value's text between backquotes. */
  function Tag(v: Value): (t: string)
    ensures |t| == |Show(v)| + 2 && t[0] == '`' && t[|t| - 1] == '`'
    ensures t[1..|t| - 1] == Show(v)
  {
    "`" + Show(v) + "`"
  }

  /** The tag line of a result: a list of conditions becomes its tags
      separated by "  |  ", any other value a single tag. The line is empty
      only for an empty list, and otherwise starts and ends with a
      backquote. */
  function ConditionTags(conditions: Value): (t: string)
    ensures t == "" <==> conditions == List([])
    ensures t != "" ==> t[0] == '`' && t[|t| - 1] == '`'
  {
    if conditions.List? then
      var tags := seq(|conditions.elems|, k requires 0 <= k < |conditions.elems| => Tag(conditions.elems[k]));
      JoinEnds("  |  ", tags);
      Join("  |  ", tags)
    else Tag(conditions)
  }

  /** A list of one condition renders as that condition's tag alone. */
  lemma OneCondition(c: Value)
    ensures ConditionTags(List([c])) == Tag(c)
  {
    assert seq(1, k requires 0 <= k < 1 => Tag([c][k])) == [Tag(c)];
  }

  /** A single condition renders the same whether it arrives alone or as a
      one-element list. */
  lemma SingleConditionUniform(c: Value)
    requires !c.List?
    ensures ConditionTags(List([c])) == ConditionTags(c)
  {
    assert seq(1, k requires 0 <= k < 1 => Tag([c][k])) == [Tag(c)];
  }

  /** One more condition in the list adds the separator and its tag. */
  lemma ConditionTagsSnoc(cs: seq<Value>, c: Value)
    requires cs != []
    ensures ConditionTags(List(cs + [c])) == ConditionTags(List(cs)) + "  |  " + Tag(c)
  {
    var tags := seq(|cs|, k requires 0 <= k < |cs| => Tag(cs[k]));
    var all := cs + [c];
    assert seq(|all|, k requires 0 <= k < |all| => Tag(all[k])) == tags + [Tag(c)];
    JoinSnoc("  |  ", tags, Tag(c));
  }
}
