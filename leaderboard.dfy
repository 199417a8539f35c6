/** The leaderboard tab of app6.py: the drug records sorted by 許願人數,
    largest first, and the first ten of them. */
module Leaderboard {
  import opened Values
  import opened Sequences
  import opened LoadersV6

  /** How many rows the board shows (`head(10)`). */
  const BoardSize: nat := 10

  /** The number a 許願人數 cell sorts as: an integer, or a boolean as 0 or
      1; any other value is not a count. */
  function WishCount(v: Value): Option<int>
  {
    match v
    case Int(n) => Some(n)
    case Bool(b) => Some(BoolInt(b))
    case _ => None
  }

  predicate CountsNumeric(drugs: seq<Drug>)
  {
    forall k :: 0 <= k < |drugs| ==> WishCount(drugs[k].wishCount).Some?
  }

  function Count(d: Drug): int
  {
    match WishCount(d.wishCount)
    case Some(n) => n
    case None => 0
  }

  /** Sort key for a descending sort. */
  function Descending(d: Drug): int
  {
    -Count(d)
  }

  /** `sort_values(by="許願人數", ascending=False).head(10)`; None when some
      count is not a number. Equal counts keep their table order. */
  function TopWished(drugs: seq<Drug>): (r: Option<seq<Drug>>)
    ensures r.Some? <==> CountsNumeric(drugs)
    ensures r.Some? ==> |r.value| == if |drugs| < BoardSize then |drugs| else BoardSize
    ensures r.Some? ==> forall i, j :: 0 <= i < j < |r.value| ==> Count(r.value[i]) >= Count(r.value[j])
    ensures r.Some? ==> multiset(r.value) <= multiset(drugs)
  {
    if CountsNumeric(drugs) then
      var sorted := SortBy(drugs, Descending);
      SortBySpec(drugs, Descending);
      assert sorted == Take(sorted, BoardSize) + sorted[|Take(sorted, BoardSize)|..];
      assert multiset(sorted) == multiset(Take(sorted, BoardSize)) + multiset(sorted[|Take(sorted, BoardSize)|..]);
      Some(Take(sorted, BoardSize))
    else None
  }

  /** The board holds the largest counts: a record that occurs in the table
      more often than on the board has a count no greater than any record on
      the board. */
  lemma BoardHoldsLargest(drugs: seq<Drug>, x: Drug, y: Drug)
    requires CountsNumeric(drugs)
    requires y in TopWished(drugs).value
    requires multiset(TopWished(drugs).value)[x] < multiset(drugs)[x]
    ensures Count(x) <= Count(y)
  {
    var sorted := SortBy(drugs, Descending);
    var board := TopWished(drugs).value;
    BoardIsPrefix(drugs);
    SortBySpec(drugs, Descending);
    if |sorted| < BoardSize {
      assert false;
    }
    var rest := sorted[BoardSize..];
    assert sorted == board + rest;
    assert multiset(sorted) == multiset(board) + multiset(rest);
    assert x in multiset(rest);
    var j :| 0 <= j < |rest| && rest[j] == x;
    var i :| 0 <= i < |board| && board[i] == y;
    assert sorted[i] == y && sorted[BoardSize + j] == x;
    assert Descending(y) <= Descending(x);
  }

  /** The board is the first rows of the sorted table. */
  lemma BoardIsPrefix(drugs: seq<Drug>)
    requires CountsNumeric(drugs)
    ensures TopWished(drugs).value == Take(SortBy(drugs, Descending), BoardSize)
  {
  }

  /** Among records with equal counts, the board holds the first of them
      in table order: its tied records are a prefix of the table's. */
  lemma BoardKeepsTieOrder(drugs: seq<Drug>, n: int)
    requires CountsNumeric(drugs)
    ensures var onBoard := WithKey(TopWished(drugs).value, Descending, -n);
      var inTable := WithKey(drugs, Descending, -n);
      |onBoard| <= |inTable| && onBoard == inTable[..|onBoard|]
  {
    BoardIsPrefix(drugs);
    HeadKeepsTieOrder(drugs, n);
  }

  lemma HeadKeepsTieOrder(drugs: seq<Drug>, n: int)
    ensures var onBoard := WithKey(Take(SortBy(drugs, Descending), BoardSize), Descending, -n);
      var inTable := WithKey(drugs, Descending, -n);
      |onBoard| <= |inTable| && onBoard == inTable[..|onBoard|]
  {
    var sorted := SortBy(drugs, Descending);
    var board := Take(sorted, BoardSize);
    var m := |board|;
    assert board == sorted[..m];
    assert WithKey(sorted, Descending, -n) == WithKey(drugs, Descending, -n) by {
      SortByStable(drugs, Descending, -n);
    }
    PrefixWithKey(sorted, m, n);
  }

  /** Among records with equal counts, a prefix of a sequence keeps a prefix
      of them. */
  lemma PrefixWithKey(sorted: seq<Drug>, m: nat, n: int)
    requires m <= |sorted|
    ensures var a := WithKey(sorted[..m], Descending, -n);
      var b := WithKey(sorted, Descending, -n);
      |a| <= |b| && a == b[..|a|]
  {
    var p := KeyIs(Descending, -n);
    assert sorted[..m] + sorted[m..] == sorted;
    KeepConcat(sorted[..m], sorted[m..], p);
  }
}
