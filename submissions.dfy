/** The row-insert requests of app6.py: `submit_wish` and `submit_supply`
    each send one row as an ordered list of (column, value) cells, and the
    supply form refuses to send without an institution code and name. */
module Submissions {
  import opened Values

  datatype Cell = Cell(column: string, value: Value)

  const WishColumns: seq<string> := ["許願者Email", "所在縣市", "想要藥品"]

  const SupplyColumns: seq<string> :=
    ["機構代碼", "診所名稱", "所在縣市", "提供藥品", "給付條件", "聯絡Email"]

  function Columns(cells: seq<Cell>): (cols: seq<string>)
    ensures |cols| == |cells|
  {
    seq(|cells|, k requires 0 <= k < |cells| => cells[k].column)
  }

  /** The value of the first cell for `column`, if any. */
  function Lookup(cells: seq<Cell>, column: string): Option<Value>
    decreases |cells|
  {
    if cells == [] then None
    else if cells[0].column == column then Some(cells[0].value)
    else Lookup(cells[1..], column)
  }

  /** The cells of one wish: requester email, city, wanted drug. */
  function WishRow(email: Value, region: Value, drug: Value): (cells: seq<Cell>)
    ensures Columns(cells) == WishColumns
  {
    [Cell("許願者Email", email), Cell("所在縣市", region), Cell("想要藥品", drug)]
  }

  /** The conditions picked in the form, sent as a list of strings. */
  function ConditionList(conditions: seq<string>): (v: Value)
    ensures v.List? && |v.elems| == |conditions|
  {
    List(seq(|conditions|, k requires 0 <= k < |conditions| => Str(conditions[k])))
  }

  /** The strings of a list of string values, in order. */
  function Strings(elems: seq<Value>): (r: seq<string>)
    requires forall k :: 0 <= k < |elems| ==> elems[k].Str?
    ensures |r| == |elems|
  {
    if elems == [] then [] else [elems[0].s] + Strings(elems[1..])
  }

  /** The list sent for the conditions holds exactly the picked strings, in
      the order they were picked. */
  lemma {:induction false} ConditionListReadsBack(conditions: seq<string>)
    ensures var v := ConditionList(conditions);
      (forall k :: 0 <= k < |v.elems| ==> v.elems[k].Str?) && Strings(v.elems) == conditions
    decreases |conditions|
  {
    if conditions != [] {
      assert ConditionList(conditions).elems[1..] == ConditionList(conditions[1..]).elems;
      ConditionListReadsBack(conditions[1..]);
    }
  }

  /** The cells of one supply report: institution code, clinic name, city,
      drug, payment conditions, contact email. */
  function SupplyRow(code: string, name: string, region: Value, drug: Value,
                     conditions: seq<string>, email: string): (cells: seq<Cell>)
    ensures Columns(cells) == SupplyColumns
  {
    [Cell("機構代碼", Str(code)), Cell("診所名稱", Str(name)), Cell("所在縣市", region),
     Cell("提供藥品", drug), Cell("給付條件", ConditionList(conditions)), Cell("聯絡Email", Str(email))]
  }

  /** The submit button of the supply form: no request without an
      institution code and a clinic name, otherwise the supply row. */
  function SupplyRequest(code: string, name: string, region: Value, drug: Value,
                         conditions: seq<string>, email: string): (r: Option<seq<Cell>>)
    ensures r.None? <==> code == "" || name == ""
  {
    if code == "" || name == "" then None
    else Some(SupplyRow(code, name, region, drug, conditions, email))
  }

  predicate DistinctColumns(cells: seq<Cell>)
  {
    forall i, j :: 0 <= i < j < |cells| ==> cells[i].column != cells[j].column
  }

  /** In a row whose columns are distinct, each column reads back its own
      cell's value. */
  lemma {:induction false} LookupFinds(cells: seq<Cell>, k: nat)
    requires DistinctColumns(cells) && k < |cells|
    ensures Lookup(cells, cells[k].column) == Some(cells[k].value)
    decreases k
  {
    if k > 0 {
      assert cells[0].column != cells[k].column;
      assert cells[1..][k - 1] == cells[k];
      LookupFinds(cells[1..], k - 1);
    }
  }

  /** Each column of a wish row reads back the value it was given. */
  lemma WishRowReadsBack(email: Value, region: Value, drug: Value)
    ensures Lookup(WishRow(email, region, drug), "許願者Email") == Some(email)
    ensures Lookup(WishRow(email, region, drug), "所在縣市") == Some(region)
    ensures Lookup(WishRow(email, region, drug), "想要藥品") == Some(drug)
  {
    var cells := WishRow(email, region, drug);
    assert forall i, j :: 0 <= i < j < |WishColumns| ==> WishColumns[i][0] != WishColumns[j][0];
    assert DistinctColumns(cells) by {
      assert Columns(cells) == WishColumns;
      forall i, j | 0 <= i < j < |cells| ensures cells[i].column != cells[j].column {
        assert cells[i].column == WishColumns[i] && cells[j].column == WishColumns[j];
      }
    }
    LookupFinds(cells, 0);
    LookupFinds(cells, 1);
    LookupFinds(cells, 2);
  }

  /** Each column of a supply row reads back the value it was given. */
  lemma SupplyRowReadsBack(code: string, name: string, region: Value, drug: Value,
                           conditions: seq<string>, email: string)
    ensures var cells := SupplyRow(code, name, region, drug, conditions, email);
      Lookup(cells, "機構代碼") == Some(Str(code)) &&
      Lookup(cells, "診所名稱") == Some(Str(name)) &&
      Lookup(cells, "所在縣市") == Some(region) &&
      Lookup(cells, "提供藥品") == Some(drug) &&
      Lookup(cells, "給付條件") == Some(ConditionList(conditions)) &&
      Lookup(cells, "聯絡Email") == Some(Str(email))
  {
    var cells := SupplyRow(code, name, region, drug, conditions, email);
    assert forall i, j :: 0 <= i < j < |SupplyColumns| ==> SupplyColumns[i][0] != SupplyColumns[j][0];
    assert DistinctColumns(cells) by {
      assert Columns(cells) == SupplyColumns;
      forall i, j | 0 <= i < j < |cells| ensures cells[i].column != cells[j].column {
        assert cells[i].column == SupplyColumns[i] && cells[j].column == SupplyColumns[j];
      }
    }
    LookupFinds(cells, 0);
    LookupFinds(cells, 1);
    LookupFinds(cells, 2);
    LookupFinds(cells, 3);
    LookupFinds(cells, 4);
    LookupFinds(cells, 5);
  }
}
