/**
 * The JDK text operations the alarm code relies on, stated over `seq<char>`:
 * `Integer.toString`, `Integer.parseInt`, `String.trim` and `String.split`
 * with a one-character separator.
 */
module JavaText {
  import opened Wrappers
  import opened JavaInt

  predicate IsDigit(c: char) {
    '0' <= c <= '9'
  }

  predicate AllDigits(s: string) {
    forall i :: 0 <= i < |s| ==> IsDigit(s[i])
  }

  function DigitChar(d: int): (c: char)
    requires 0 <= d < 10
    ensures IsDigit(c)
  {
    ('0' as int + d) as char
  }

  function DigitValue(c: char): (d: int)
    requires IsDigit(c)
    ensures 0 <= d < 10 && DigitChar(d) == c
  {
    c as int - '0' as int
  }

  /** The decimal digits of `n`, most significant first, without leading zeros. */
  function Digits(n: nat): (s: string)
    ensures |s| >= 1 && AllDigits(s)
  {
    if n < 10 then [DigitChar(n)] else Digits(n / 10) + [DigitChar(n % 10)]
  }

  /** `Integer.toString(n)`: a minus sign for negative values, then the digits. */
  function Decimal(n: int): (s: string)
    ensures |s| >= 1
    ensures n >= 0 ==> AllDigits(s)
    ensures n < 0 ==> s[0] == '-' && AllDigits(s[1..])
  {
    if n < 0 then "-" + Digits(-n) else Digits(n)
  }

  /** The number a string of decimal digits denotes. */
  function DigitsValue(s: string): nat
    requires AllDigits(s)
  {
    if s == [] then 0 else DigitsValue(s[..|s| - 1]) * 10 + DigitValue(s[|s| - 1])
  }

  /**
   * `Integer.parseInt(s)`: an optional sign, then at least one digit, and a value
   * that fits in an `int`; `None` wherever Java throws NumberFormatException.
   */
  function ParseInt(s: string): Option<Int32> {
    if |s| == 0 then None
    else
      var body := if s[0] == '-' || s[0] == '+' then s[1..] else s;
      if |body| == 0 || !AllDigits(body) then None
      else
        var magnitude: int := DigitsValue(body);
        var v := if s[0] == '-' then -magnitude else magnitude;
        if MinInt32 <= v <= MaxInt32 then Some(v) else None
  }

  lemma {:induction false} DigitsRoundTrip(n: nat)
    ensures DigitsValue(Digits(n)) == n
  {
    if n >= 10 {
      var s := Digits(n);
      assert s[..|s| - 1] == Digits(n / 10);
      DigitsRoundTrip(n / 10);
    }
  }

  /** `Integer.parseInt(Integer.toString(n)) == n` for every `int`. */
  lemma ParseDecimal(n: Int32)
    ensures ParseInt(Decimal(n)) == Some(n)
  {
    var s := Decimal(n);
    var m: int := n;
    if m < 0 {
      assert s[0] == '-' && s[1..] == Digits(-m);
      DigitsRoundTrip(-m);
    } else {
      assert IsDigit(s[0]);
      DigitsRoundTrip(n);
    }
  }

  /** `Character` values that `String.trim` strips: everything up to and including the space. */
  predicate IsTrimmed(c: char) {
    c <= ' '
  }

  /** `s` without its leading run of trimmed characters. */
  function TrimStart(s: string): (t: string)
    ensures |t| <= |s| && t == s[|s| - |t|..]
    ensures t == [] || !IsTrimmed(t[0])
    ensures forall k :: 0 <= k < |s| - |t| ==> IsTrimmed(s[k])
  {
    if s != [] && IsTrimmed(s[0]) then TrimStart(s[1..]) else s
  }

  /** `s` without its trailing run of trimmed characters. */
  function TrimEnd(s: string): (t: string)
    ensures |t| <= |s| && t == s[..|t|]
    ensures t == [] || !IsTrimmed(t[|t| - 1])
    ensures forall k :: |t| <= k < |s| ==> IsTrimmed(s[k])
  {
    if s != [] && IsTrimmed(s[|s| - 1]) then TrimEnd(s[..|s| - 1]) else s
  }

  /**
   * `String.trim()`: the piece of `s` left after dropping its leading and
   * trailing runs of characters up to the space; a string already free of them
   * is returned unchanged.
   */
  function Trim(s: string): (t: string)
    ensures t == [] || (!IsTrimmed(t[0]) && !IsTrimmed(t[|t| - 1]))
    ensures exists i, j :: TrimmedPiece(s, t, i, j)
    ensures s != [] && !IsTrimmed(s[0]) && !IsTrimmed(s[|s| - 1]) ==> t == s
  {
    var head := TrimStart(s);
    var t := TrimEnd(head);
    PieceOfPiece(s, head, t);
    t
  }

  /**
   * A prefix `t` of a suffix `head` of `s`, with the characters cut off at
   * either end trimmed, is a trimmed piece of `s`; nothing is cut off a string
   * whose two ends are not trimmed.
   */
  lemma PieceOfPiece(s: string, head: string, t: string)
    requires |head| <= |s| && head == s[|s| - |head|..]
    requires forall k :: 0 <= k < |s| - |head| ==> IsTrimmed(s[k])
    requires |t| <= |head| && t == head[..|t|]
    requires forall k :: |t| <= k < |head| ==> IsTrimmed(head[k])
    ensures TrimmedPiece(s, t, |s| - |head|, |s| - |head| + |t|)
    ensures exists i, j :: TrimmedPiece(s, t, i, j)
    ensures s != [] && !IsTrimmed(s[0]) && !IsTrimmed(s[|s| - 1]) ==> t == s
  {
    var i := |s| - |head|;
    assert t == s[i..i + |t|];
    forall k | i + |t| <= k < |s|
      ensures IsTrimmed(s[k])
    {
      assert s[k] == head[k - i];
    }
  }

  /** `t` is `s[i..j]`, and every character of `s` outside that range is trimmed. */
  predicate TrimmedPiece(s: string, t: string, i: int, j: int) {
    0 <= i <= j <= |s| && t == s[i..j] &&
    (forall k :: 0 <= k < i ==> IsTrimmed(s[k])) && (forall k :: j <= k < |s| ==> IsTrimmed(s[k]))
  }

  /** Every piece of `s` between occurrences of `sep`, empty pieces included: `k` separators give `k + 1` pieces. */
  function Pieces(s: string, sep: char): (ps: seq<string>)
    ensures |ps| >= 1
    ensures forall i :: 0 <= i < |ps| ==> sep !in ps[i]
  {
    if s == [] then [""]
    else
      var rest := Pieces(s[1..], sep);
      if s[0] == sep then [""] + rest else [[s[0]] + rest[0]] + rest[1..]
  }

  /** `String.split` discards every empty piece at the end of its result. */
  function DropTrailingEmpty(ps: seq<string>): (r: seq<string>)
    ensures |r| <= |ps| && r == ps[..|r|]
    ensures r == [] || r[|r| - 1] != ""
    ensures forall i :: |r| <= i < |ps| ==> ps[i] == ""
  {
    if ps == [] || ps[|ps| - 1] != "" then ps else DropTrailingEmpty(ps[..|ps| - 1])
  }

  /** `s.split(sep)` for a non-empty `s` and a separator that is not a regular-expression metacharacter. */
  function Split(s: string, sep: char): seq<string> {
    DropTrailingEmpty(Pieces(s, sep))
  }

  /** A string without the separator is a single piece. */
  lemma {:induction false} PiecesWithoutSeparator(s: string, sep: char)
    requires sep !in s
    ensures Pieces(s, sep) == [s]
  {
    if s != [] {
      PiecesWithoutSeparator(s[1..], sep);
      assert [s[0]] + s[1..] == s;
    }
  }

  /** Splitting distributes over a separator: the pieces of `a`, then the pieces of `b`. */
  lemma {:induction false} PiecesAround(a: string, b: string, sep: char)
    ensures Pieces(a + [sep] + b, sep) == Pieces(a, sep) + Pieces(b, sep)
  {
    if a == [] {
      assert a + [sep] + b == [sep] + b;
      assert ([sep] + b)[1..] == b;
    } else {
      assert (a + [sep] + b)[1..] == a[1..] + [sep] + b;
      PiecesAround(a[1..], b, sep);
    }
  }
}
