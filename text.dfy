/** Turning values into text the way Python's `str`, `repr` and `str.join`
    do, and reading decimal digits back. */
module Text {
  import opened Values

  predicate IsDigit(c: char) { '0' <= c <= '9' }

  predicate AllDigits(s: string)
  {
    forall k :: 0 <= k < |s| ==> IsDigit(s[k])
  }

  function DigitChar(d: nat): (c: char)
    requires d < 10
    ensures IsDigit(c) && DigitValue(c) == d
  {
    "0123456789"[d]
  }

  function DigitValue(c: char): nat
    requires IsDigit(c)
  {
    (c as int - '0' as int) as nat
  }

  function Pow10(k: nat): (p: nat)
    ensures p >= 1
  {
    if k == 0 then 1 else 10 * Pow10(k - 1)
  }

  /** `str(n)` for a natural number: its decimal digits, most significant
      first, without leading zeros. */
  function NatText(n: nat): (s: string)
    ensures |s| >= 1 && AllDigits(s)
    ensures |s| > 1 ==> s[0] != '0'
    decreases n
  {
    if n < 10 then [DigitChar(n)] else NatText(n / 10) + [DigitChar(n % 10)]
  }

  /** `str(i)` for any integer: the digits of a natural number read back as
      that number; a negative one is a minus sign before the digits of its
      magnitude. */
  function IntText(i: int): (s: string)
    ensures 0 <= i ==> |s| >= 1 && AllDigits(s) && ParseNat(s) == i
    ensures i < 0 ==> |s| >= 2 && s[0] == '-' && AllDigits(s[1..]) && ParseNat(s[1..]) == -i
  {
    if i < 0 then
      ParseNatText(-i);
      assert ("-" + NatText(-i))[1..] == NatText(-i);
      "-" + NatText(-i)
    else
      ParseNatText(i);
      NatText(i)
  }

  /** The number a non-empty string of decimal digits denotes. */
  function ParseNat(s: string): nat
    requires |s| >= 1 && AllDigits(s)
    decreases |s|
  {
    if |s| == 1 then DigitValue(s[0])
    else 10 * ParseNat(s[..|s| - 1]) + DigitValue(s[|s| - 1])
  }

  /** Reading back the digits of a number gives the number. */
  lemma {:induction false} ParseNatText(n: nat)
    ensures ParseNat(NatText(n)) == n
    decreases n
  {
    if n >= 10 {
      var s := NatText(n);
      assert s[..|s| - 1] == NatText(n / 10);
      ParseNatText(n / 10);
    }
  }

  /** Distinct numbers have distinct decimal texts. */
  lemma NatTextInjective(m: nat, n: nat)
    requires NatText(m) == NatText(n)
    ensures m == n
  {
    ParseNatText(m);
    ParseNatText(n);
  }

  /** A number with k digits, and no more, is written with exactly k
      characters. */
  lemma {:induction false} NatTextLength(n: nat, k: nat)
    requires k >= 1 && Pow10(k - 1) <= n < Pow10(k)
    ensures |NatText(n)| == k
    decreases k
  {
    if k > 1 {
      assert n >= 10;
      NatTextLength(n / 10, k - 1);
    } else {
      assert n < 10;
    }
  }

  /** The text of `random.randint(100000, 999999)` is six digits, the first
      of them not zero. */
  lemma SixDigitText(n: int)
    requires 100000 <= n <= 999999
    ensures |IntText(n)| == 6 && AllDigits(IntText(n)) && IntText(n)[0] != '0'
  {
    assert Pow10(5) == 100000 && Pow10(6) == 1000000;
    NatTextLength(n, 6);
  }

  /** `sep.join(parts)` */
  function Join(sep: string, parts: seq<string>): string
    decreases |parts|
  {
    if parts == [] then ""
    else if |parts| == 1 then parts[0]
    else parts[0] + sep + Join(sep, parts[1..])
  }

  /** Joining one more part appends the separator and that part. */
  lemma {:induction false} JoinSnoc(sep: string, parts: seq<string>, last: string)
    requires parts != []
    ensures Join(sep, parts + [last]) == Join(sep, parts) + sep + last
    decreases |parts|
  {
    if |parts| == 1 {
      assert (parts + [last])[1..] == [last];
    } else {
      assert (parts + [last])[1..] == parts[1..] + [last];
      JoinSnoc(sep, parts[1..], last);
    }
  }

  /** When no part is empty, the joined text is empty only for no parts, and
      otherwise starts with the first part's first character and ends with
      the last part's last character. */
  lemma {:induction false} JoinEnds(sep: string, parts: seq<string>)
    requires forall k :: 0 <= k < |parts| ==> |parts[k]| >= 1
    ensures Join(sep, parts) == "" <==> parts == []
    ensures parts != [] ==>
      var j := Join(sep, parts);
      var last := parts[|parts| - 1];
      |j| >= 1 && j[0] == parts[0][0] && j[|j| - 1] == last[|last| - 1]
    decreases |parts|
  {
    if |parts| > 1 {
      JoinEnds(sep, parts[1..]);
      assert parts[1..][|parts[1..]| - 1] == parts[|parts| - 1];
    }
  }

  /** `repr(v)`: like `str(v)` except that a string is shown in single
      quotes. Backslash escapes inside strings are not modelled. */
  function Repr(v: Value): (s: string)
    ensures v.Str? ==> |s| == |v.s| + 2 && s[0] == '\'' && s[|s| - 1] == '\'' && s[1..|s| - 1] == v.s
    ensures !v.Str? ==> s == Show(v)
    decreases v, 1
  {
    if v.Str? then "'" + v.s + "'" else Show(v)
  }

  /** `str(v)`: a string is its own text, a list shows the `repr` of its
      elements between brackets, separated by ", ". */
  function Show(v: Value): (s: string)
    ensures v.Str? ==> s == v.s
    ensures v.Int? && 0 <= v.i ==> |s| >= 1 && AllDigits(s) && ParseNat(s) == v.i
    ensures v.List? ==> |s| >= 2 && s[0] == '[' && s[|s| - 1] == ']'
    ensures !v.Str? ==> |s| >= 1
    decreases v, 0
  {
    match v
    case Null => "None"
    case Bool(b) => if b then "True" else "False"
    case Int(i) => IntText(i)
    case Str(s) => s
    case List(xs) =>
      "[" + Join(", ", seq(|xs|, k requires 0 <= k < |xs| => Repr(xs[k]))) + "]"
  }
}
