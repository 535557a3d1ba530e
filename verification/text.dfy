/** String helpers the pipeline is built from: Python's `sep.join(...)` and `str(int)`. */
module Text {

  function Min(a: int, b: int): int {
    if a <= b then a else b
  }

  /** Python's `sep.join(xs)`: the pieces in order with `sep` between neighbours. */
  function Join<T>(sep: seq<T>, xs: seq<seq<T>>): seq<T> {
    if |xs| == 0 then []
    else if |xs| == 1 then xs[0]
    else xs[0] + sep + Join(sep, xs[1..])
  }

  /** Concatenation of all pieces, in order. */
  function Concat<T>(xs: seq<seq<T>>): seq<T> {
    if |xs| == 0 then [] else xs[0] + Concat(xs[1..])
  }

  /** Index at which piece `k` begins inside `Join(sep, xs)`. */
  function Offset<T>(sep: seq<T>, xs: seq<seq<T>>, k: nat): nat
    requires k <= |xs|
  {
    if k == 0 then 0 else |xs[0]| + |sep| + Offset(sep, xs[1..], k - 1)
  }

  /** Piece `k` sits at `Offset(sep, xs, k)` in the joined text. */
  lemma {:induction false} JoinPieceAt<T>(sep: seq<T>, xs: seq<seq<T>>, k: nat)
    requires k < |xs|
    ensures Offset(sep, xs, k) + |xs[k]| <= |Join(sep, xs)|
    ensures Join(sep, xs)[Offset(sep, xs, k)..Offset(sep, xs, k) + |xs[k]|] == xs[k]
  {
    if k == 0 {
      JoinStartsWithFirst(sep, xs);
    } else {
      var head := xs[0] + sep;
      var t := Join(sep, xs[1..]);
      assert Join(sep, xs) == head + t;
      JoinPieceAt(sep, xs[1..], k - 1);
      assert xs[1..][k - 1] == xs[k];
      var o := Offset(sep, xs[1..], k - 1);
      assert Offset(sep, xs, k) == |head| + o;
      SliceAfterPrefix(head, t, o, o + |xs[k]|);
    }
  }

  lemma JoinStartsWithFirst<T>(sep: seq<T>, xs: seq<seq<T>>)
    requires 0 < |xs|
    ensures |xs[0]| <= |Join(sep, xs)| && Join(sep, xs)[..|xs[0]|] == xs[0]
  {
    if 1 < |xs| {
      assert Join(sep, xs) == xs[0] + (sep + Join(sep, xs[1..]));
    }
  }

  /** Slicing past a prefix is slicing the rest. */
  lemma SliceAfterPrefix<T>(x: seq<T>, y: seq<T>, i: nat, j: nat)
    requires i <= j <= |y|
    ensures (x + y)[|x| + i..|x| + j] == y[i..j]
  {
  }

  /** A prefix of piece `k` is found at `Offset(sep, xs, k)` in the joined text. */
  lemma JoinPrefixAt<T>(sep: seq<T>, xs: seq<seq<T>>, k: nat, p: seq<T>)
    requires k < |xs| && |p| <= |xs[k]| && xs[k][..|p|] == p
    ensures Offset(sep, xs, k) + |p| <= |Join(sep, xs)|
    ensures Join(sep, xs)[Offset(sep, xs, k)..Offset(sep, xs, k) + |p|] == p
  {
    JoinPieceAt(sep, xs, k);
    var o := Offset(sep, xs, k);
    var j := Join(sep, xs);
    assert j[o..o + |p|] == j[o..o + |xs[k]|][..|p|];
  }

  /** `p` occurs in `s` as a contiguous run. */
  ghost predicate IsInfix<T>(p: seq<T>, s: seq<T>) {
    exists i :: InfixAt(p, s, i)
  }

  ghost predicate InfixAt<T>(p: seq<T>, s: seq<T>, i: int) {
    0 <= i <= |s| - |p| && s[i..i + |p|] == p
  }

  /** Every piece occurs in the concatenation of the pieces. */
  lemma {:induction false} ConcatContainsPiece<T>(xs: seq<seq<T>>, k: nat)
    requires k < |xs|
    ensures IsInfix(xs[k], Concat(xs))
  {
    var c := Concat(xs);
    assert c == xs[0] + Concat(xs[1..]);
    if k == 0 {
      assert InfixAt(xs[0], c, 0);
    } else {
      ConcatContainsPiece(xs[1..], k - 1);
      assert xs[1..][k - 1] == xs[k];
      var i :| InfixAt(xs[k], Concat(xs[1..]), i);
      assert c[|xs[0]| + i..|xs[0]| + i + |xs[k]|] == xs[k];
      assert InfixAt(xs[k], c, |xs[0]| + i);
    }
  }

  /** Concatenation distributes over appending lists of pieces. */
  lemma {:induction false} ConcatAppend<T>(xs: seq<seq<T>>, ys: seq<seq<T>>)
    ensures Concat(xs + ys) == Concat(xs) + Concat(ys)
  {
    if |xs| == 0 {
      assert xs + ys == ys;
    } else {
      assert (xs + ys)[1..] == xs[1..] + ys;
      ConcatAppend(xs[1..], ys);
    }
  }

  predicate IsDigit(c: char) {
    '0' <= c <= '9'
  }

  function DigitChar(d: nat): (c: char)
    requires d < 10
    ensures IsDigit(c) && (c as int) - ('0' as int) == d
  {
    (d + '0' as int) as char
  }

  /** Python's `str(n)` for a non-negative integer: decimal digits, no leading zero. */
  function NatToString(n: nat): (r: string)
    ensures |r| >= 1
    ensures forall i :: 0 <= i < |r| ==> IsDigit(r[i])
    ensures r[0] == '0' <==> n == 0
    ensures n == 0 ==> r == "0"
  {
    if n < 10 then [DigitChar(n)] else NatToString(n / 10) + [DigitChar(n % 10)]
  }

  /** Python's `str(i)` for any integer. */
  function IntToString(i: int): (r: string)
    ensures |r| >= 1
  {
    if i < 0 then "-" + NatToString(-i) else NatToString(i)
  }

  /** Reads a string of decimal digits back as a number. */
  function DigitsValue(s: string): nat
    requires forall i :: 0 <= i < |s| ==> IsDigit(s[i])
  {
    if |s| == 0 then 0
    else
      assert IsDigit(s[|s| - 1]);
      DigitsValue(s[..|s| - 1]) * 10 + ((s[|s| - 1] as int) - ('0' as int))
  }

  /** Reading the decimal text of `n` gives `n` back. */
  lemma {:induction false} DigitsValueOfNatToString(n: nat)
    ensures DigitsValue(NatToString(n)) == n
  {
    var r := NatToString(n);
    if n >= 10 {
      DigitsValueOfNatToString(n / 10);
      assert r[..|r| - 1] == NatToString(n / 10);
    }
  }

  /** Distinct numbers have distinct decimal texts. */
  lemma NatToStringInjective(m: nat, n: nat)
    ensures NatToString(m) == NatToString(n) <==> m == n
  {
    if NatToString(m) == NatToString(n) {
      DigitsValueOfNatToString(m);
      DigitsValueOfNatToString(n);
    }
  }
}
