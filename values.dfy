/** Values as the hosted table service hands them back: each listed row is an
    object with a display index, a display name and a bag of cell values keyed
    by column name. */
module Values {

  datatype Option<+T> = None | Some(value: T)

  /** A cell value. Floating-point numbers and nested objects are not part of
      this model. */
  datatype Value =
    | Null
    | Bool(b: bool)
    | Int(i: int)
    | Str(s: string)
    | List(elems: seq<Value>)

  /** The `values` object of one row: column name to cell value. */
  type FieldBag = map<string, Value>

  /** One row object of a list-rows reply. `values` is None when the reply has
      no `values` key for the row or holds something that is not an object
      there; reading it then raises inside the loader. */
  datatype Row = Row(index: Option<int>, name: Option<Value>, values: Option<FieldBag>)

  predicate HasValues(row: Row) { row.values.Some? }

  predicate AllHaveValues(rows: seq<Row>)
  {
    forall k :: 0 <= k < |rows| ==> HasValues(rows[k])
  }

  /** What `v == vals.get(key, default)` means: the stored value when the key
      is present, the default when it is absent. */
  predicate GetsOr(vals: FieldBag, key: string, default: Value, v: Value)
  {
    (key in vals ==> v == vals[key]) && (key !in vals ==> v == default)
  }

  /** `vals.get(key, default)` */
  function Get(vals: FieldBag, key: string, default: Value): (v: Value)
    ensures GetsOr(vals, key, default, v)
  {
    if key in vals then vals[key] else default
  }

  function BoolInt(x: bool): int { if x then 1 else 0 }

  /** Python's `==` on two values: a boolean equals the integer 0 or 1 it
      stands for, lists compare element by element, and values of any other
      two different kinds are unequal. Every value equals itself, None
      included, and None or a string equals only itself. */
  function PyEq(a: Value, b: Value): (r: bool)
    ensures a == b ==> r
    ensures a.Null? || b.Null? || a.Str? || b.Str? ==> (r <==> a == b)
    decreases a
  {
    match a
    case Bool(x) => (b.Bool? && b.b == x) || (b.Int? && b.i == BoolInt(x))
    case Int(n) => (b.Int? && b.i == n) || (b.Bool? && BoolInt(b.b) == n)
    case List(xs) =>
      b.List? && |xs| == |b.elems| &&
      forall k :: 0 <= k < |xs| ==> PyEq(xs[k], b.elems[k])
    case _ => a == b
  }

  /** `v == True` holds of the boolean True and of the integer 1, and of
      nothing else. */
  lemma PyEqTrue(v: Value)
    ensures PyEq(v, Bool(true)) <==> v == Bool(true) || v == Int(1)
  {
  }

  /** pandas' `column == value` on a column of Python objects, for one cell:
      a missing value (None) on either side compares unequal to everything,
      itself included; otherwise it is Python's `==`. pandas' `!=` is its
      negation, so a missing cell is always `!=` a value. */
  function PdEq(cell: Value, v: Value): (r: bool)
    ensures r ==> !cell.Null? && !v.Null? && PyEq(cell, v)
    ensures !cell.Null? && cell == v ==> r
  {
    !cell.Null? && !v.Null? && PyEq(cell, v)
  }

  /** Unlike Python's `==`, pandas' is not reflexive on a missing value. */
  lemma MissingNeverEqual(v: Value)
    ensures !PdEq(Value.Null, v) && !PdEq(v, Value.Null)
    ensures PyEq(Value.Null, Value.Null)
  {
  }
}
