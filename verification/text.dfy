/** String helpers with the meaning JavaScript gives them: `indexOf`, `lastIndexOf`,
    `Array.prototype.join`, and the decimal text of an integer as template literals print it. */
module Text {

  /** `s.indexOf(c)`: the position of the first `c`, or -1 when there is none. */
  function IndexOf(s: string, c: char): (i: int)
    ensures -1 <= i < |s|
    ensures i == -1 <==> c !in s
    ensures i >= 0 ==> s[i] == c && c !in s[..i]
  {
    if |s| == 0 then -1
    else if s[0] == c then 0
    else
      var j := IndexOf(s[1..], c);
      assert s == [s[0]] + s[1..];
      assert j >= 0 ==> s[..j + 1] == [s[0]] + s[1..][..j];
      if j < 0 then -1 else j + 1
  }

  /** `s.lastIndexOf(c)`: the position of the last `c`, or -1 when there is none. */
  function LastIndexOf(s: string, c: char): (i: int)
    ensures -1 <= i < |s|
    ensures i == -1 <==> c !in s
    ensures i >= 0 ==> s[i] == c && c !in s[i + 1..]
  {
    if |s| == 0 then -1
    else if s[|s| - 1] == c then |s| - 1
    else
      var init := s[..|s| - 1];
      var j := LastIndexOf(init, c);
      assert s == init + [s[|s| - 1]];
      if j < 0 then -1
      else
        assert s[j + 1..] == init[j + 1..] + [s[|s| - 1]];
        j
  }

  /** `parts.join(sep)`: the parts in order with `sep` between neighbours. */
  function Join(parts: seq<string>, sep: string): (r: string)
    ensures |parts| == 1 ==> r == parts[0]
    ensures |parts| > 0 ==> |r| >= |parts[0]|
    ensures |parts| > 1 ==> |r| >= |parts[0]| + |sep| && r[..|parts[0]| + |sep|] == parts[0] + sep
  {
    if |parts| == 0 then ""
    else if |parts| == 1 then parts[0]
    else parts[0] + sep + Join(parts[1..], sep)
  }

  /** A join of non-empty parts is empty exactly when there are no parts, which is
      what makes `joined || fallback` choose the fallback only for an empty list. */
  lemma JoinEmptyIff(parts: seq<string>, sep: string)
    requires forall i :: 0 <= i < |parts| ==> parts[i] != ""
    ensures Join(parts, sep) == "" <==> |parts| == 0
  {
  }

  /** The character of a decimal digit. */
  function DigitChar(d: nat): (ch: char)
    requires d < 10
    ensures '0' <= ch <= '9'
  {
    "0123456789"[d]
  }

  /** The decimal text of a natural number, most significant digit first, without leading zeros. */
  function NatText(n: nat): (r: string)
    ensures |r| >= 1
    ensures forall i :: 0 <= i < |r| ==> '0' <= r[i] <= '9'
    ensures r[0] == '0' ==> n == 0
  {
    if n < 10 then [DigitChar(n)] else NatText(n / 10) + [DigitChar(n % 10)]
  }

  /** `${n}` for an integer `n`: its decimal text, with a leading minus sign when negative. */
  function DecimalText(n: int): (r: string)
    ensures |r| >= 1
    ensures r[0] == '-' <==> n < 0
  {
    if n < 0 then "-" + NatText(-n) else NatText(n)
  }

  /** The value of a string of decimal digits. */
  function DigitsValue(s: string): nat
    requires forall i :: 0 <= i < |s| ==> '0' <= s[i] <= '9'
  {
    if |s| == 0 then 0 else 10 * DigitsValue(s[..|s| - 1]) + (s[|s| - 1] - '0') as nat
  }

  /** Reading a decimal text back gives the number it was made from. */
  lemma {:induction false} NatTextRoundTrip(n: nat)
    ensures DigitsValue(NatText(n)) == n
  {
    if n >= 10 {
      var r := NatText(n);
      assert r[..|r| - 1] == NatText(n / 10);
      NatTextRoundTrip(n / 10);
    }
  }

  /** Distinct natural numbers have distinct decimal texts. */
  lemma NatTextInjective(m: nat, n: nat)
    requires NatText(m) == NatText(n)
    ensures m == n
  {
    NatTextRoundTrip(m);
    NatTextRoundTrip(n);
  }

  /** Distinct integers have distinct decimal texts. */
  lemma DecimalTextInjective(m: int, n: int)
    requires DecimalText(m) == DecimalText(n)
    ensures m == n
  {
    if m < 0 {
      assert n < 0;
      var t := DecimalText(m);
      assert t[1..] == NatText(-m);
      assert t[1..] == NatText(-n);
      NatTextInjective(-m, -n);
    } else {
      assert n >= 0;
      NatTextInjective(m, n);
    }
  }

  /** Each line on its own row: the indentation, the line, then a newline. */
  function Rows(indent: string, lines: seq<string>): string {
    if |lines| == 0 then "" else indent + lines[0] + "\n" + Rows(indent, lines[1..])
  }

  /** The rows of two runs of lines are the rows of the first followed by those of the second. */
  lemma {:induction false} RowsAppend(indent: string, a: seq<string>, b: seq<string>)
    ensures Rows(indent, a + b) == Rows(indent, a) + Rows(indent, b)
  {
    if |a| == 0 {
      assert a + b == b;
    } else {
      assert (a + b)[1..] == a[1..] + b;
      RowsAppend(indent, a[1..], b);
    }
  }

  /** A line between two runs of lines sits on its own row between their rows. */
  lemma RowsAround(indent: string, pre: seq<string>, x: string, post: seq<string>)
    ensures Rows(indent, pre + [x] + post) == Rows(indent, pre) + (indent + x + "\n") + Rows(indent, post)
  {
    var tail := [x] + post;
    assert pre + [x] + post == pre + tail;
    RowsAppend(indent, pre, tail);
    assert tail[0] == x && tail[1..] == post;
    assert Rows(indent, tail) == (indent + x + "\n") + Rows(indent, post);
  }

  /** Line `i` is the row between the rows of the lines before it and those after it. */
  lemma RowsAt(indent: string, ls: seq<string>, i: nat)
    requires i < |ls|
    ensures Rows(indent, ls) == Rows(indent, ls[..i]) + (indent + ls[i] + "\n") + Rows(indent, ls[i + 1..])
  {
    var pre, x, post := ls[..i], ls[i], ls[i + 1..];
    RowsAround(indent, pre, x, post);
    assert pre + [x] + post == ls;
  }

  /** The same, inside a block that opens with a newline and closes with the indentation. */
  lemma BlockRowsAt(indent: string, ls: seq<string>, i: nat)
    requires i < |ls|
    ensures "\n" + Rows(indent, ls) + indent
            == "\n" + Rows(indent, ls[..i]) + (indent + ls[i] + "\n") + Rows(indent, ls[i + 1..]) + indent
  {
    RowsAt(indent, ls, i);
  }
}
