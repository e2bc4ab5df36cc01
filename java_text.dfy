/**
  The three pieces of java.lang text handling that the older server's
  mapping parser relies on: Integer.toString, Integer.parseInt and
  String.split with a literal separator and the default limit 0.
*/
module JavaText {
  import opened Wire

  const INT_MIN: int := -0x8000_0000
  const INT_MAX: int := 0x7fff_ffff

  predicate IsInt(x: int) {
    INT_MIN <= x <= INT_MAX
  }

  predicate IsDigit(c: char) {
    '0' <= c <= '9'
  }

  predicate AllDigits(s: string) {
    forall i :: 0 <= i < |s| ==> IsDigit(s[i])
  }

  function DigitChar(d: nat): (c: char)
    requires d < 10
    ensures IsDigit(c)
  {
    ('0' as int + d) as char
  }

  function DigitValue(c: char): (d: nat)
    requires IsDigit(c)
    ensures d < 10 && DigitChar(d) == c
  {
    (c as int - '0' as int)
  }

  /** The decimal digits of `n`, most significant first, without leading zeros. */
  function NatToDigits(n: nat): (s: string)
    ensures |s| > 0 && AllDigits(s)
  {
    if n < 10 then [DigitChar(n)] else NatToDigits(n / 10) + [DigitChar(n % 10)]
  }

  /** The value of a string of decimal digits. */
  function DigitsValue(s: string): (n: nat)
    requires AllDigits(s)
  {
    if s == [] then 0 else DigitsValue(s[..|s| - 1]) * 10 + DigitValue(s[|s| - 1])
  }

  lemma {:induction false} DigitsValueOfNatToDigits(n: nat)
    ensures DigitsValue(NatToDigits(n)) == n
  {
    var s := NatToDigits(n);
    if n >= 10 {
      var hi, lo := n / 10, n % 10;
      assert s[..|s| - 1] == NatToDigits(hi);
      assert DigitValue(s[|s| - 1]) == lo;
      DigitsValueOfNatToDigits(hi);
      assert DigitsValue(s) == hi * 10 + lo;
    } else {
      assert s[..0] == [];
    }
  }

  /** Integer.toString: an optional minus sign and the digits of the magnitude. */
  function IntToString(x: int): (s: string)
    ensures |s| > 0 && (s[0] == '-' <==> x < 0)
    ensures x < 0 ==> |s| > 1
    ensures forall i :: 0 <= i < |s| ==> IsDigit(s[i]) || (i == 0 && s[i] == '-')
  {
    if x < 0 then "-" + NatToDigits(-x) else NatToDigits(x)
  }

  /** An optional '+' or '-' sign followed by at least one ASCII digit, and nothing else. */
  predicate DecimalShape(s: string) {
    && |s| > 0
    && (IsDigit(s[0]) || (|s| > 1 && (s[0] == '-' || s[0] == '+')))
    && forall i :: 1 <= i < |s| ==> IsDigit(s[i])
  }

  /** The value of a decimal text: its digits' value, negated after a '-'. */
  function DecimalValue(s: string): int
    requires DecimalShape(s)
  {
    var digits := if IsDigit(s[0]) then s else s[1..];
    if s[0] == '-' then -(DigitsValue(digits) as int) else DigitsValue(digits)
  }

  /**
    Integer.parseInt(s, 10) restricted to ASCII digits: an optional '+' or '-'
    followed by at least one digit, with a value that fits in an int. Anything
    else is a NumberFormatException, which is `None` here.
  */
  function ParseInt(s: string): (r: Option<int>)
    ensures r.Some? <==> DecimalShape(s) && IsInt(DecimalValue(s))
    ensures r.Some? ==> r.value == DecimalValue(s) && IsInt(r.value)
  {
    if s == [] then None
    else
      var neg := s[0] == '-';
      var digits := if s[0] == '-' || s[0] == '+' then s[1..] else s;
      if digits == [] || !AllDigits(digits) then None
      else
        var v := if neg then -(DigitsValue(digits) as int) else DigitsValue(digits);
        if IsInt(v) then Some(v) else None
  }

  lemma ParseIntToString(x: int)
    requires IsInt(x)
    ensures ParseInt(IntToString(x)) == Some(x)
  {
    var s := IntToString(x);
    if x < 0 {
      var digits := NatToDigits(-x);
      assert s[0] == '-' && s[1..] == digits;
      DigitsValueOfNatToDigits(-x);
      assert -(DigitsValue(digits) as int) == x;
    } else {
      var digits := NatToDigits(x);
      assert s == digits;
      assert IsDigit(s[0]);
      DigitsValueOfNatToDigits(x);
    }
  }

  // ---------------------------------------------------------------------------
  // String.split(sep) for a separator with no regex metacharacters.

  predicate OccursAt(s: string, sep: string, i: nat) {
    i + |sep| <= |s| && s[i..i + |sep|] == sep
  }

  predicate Contains(s: string, sep: string) {
    exists i :: 0 <= i <= |s| && OccursAt(s, sep, i)
  }

  /** The first index at or after `from` where `sep` occurs in `s`. */
  function IndexOf(s: string, sep: string, from: nat): (r: Option<nat>)
    requires |sep| > 0 && from <= |s|
    ensures r.Some? ==> from <= r.value && OccursAt(s, sep, r.value)
    ensures r.Some? ==> forall i :: from <= i < r.value ==> !OccursAt(s, sep, i)
    ensures r.None? ==> forall i :: from <= i ==> !OccursAt(s, sep, i)
    decreases |s| - from
  {
    if from + |sep| > |s| then None
    else if s[from..from + |sep|] == sep then Some(from)
    else IndexOf(s, sep, from + 1)
  }

  /** The pieces between successive non-overlapping occurrences of `sep`, all kept. */
  function Pieces(s: string, sep: string): (r: seq<string>)
    requires |sep| > 0
    ensures |r| > 0
    decreases |s|
  {
    match IndexOf(s, sep, 0)
    case None => [s]
    case Some(i) => [s[..i]] + Pieces(s[i + |sep|..], sep)
  }

  function Join(parts: seq<string>, sep: string): string
    requires |parts| > 0
  {
    if |parts| == 1 then parts[0] else parts[0] + sep + Join(parts[1..], sep)
  }

  /** Joining the pieces with the separator gives back the string that was cut. */
  lemma {:induction false} JoinPieces(s: string, sep: string)
    requires |sep| > 0
    ensures Join(Pieces(s, sep), sep) == s
    decreases |s|
  {
    match IndexOf(s, sep, 0)
    case None =>
    case Some(i) =>
      JoinPieces(s[i + |sep|..], sep);
      assert s == s[..i] + s[i..i + |sep|] + s[i + |sep|..];
  }

  function DropTrailingEmpty(parts: seq<string>): (r: seq<string>)
    ensures |r| <= |parts| && r == parts[..|r|]
    ensures |r| > 0 ==> r[|r| - 1] != ""
    ensures forall i :: |r| <= i < |parts| ==> parts[i] == ""
  {
    if parts == [] || parts[|parts| - 1] != "" then parts
    else DropTrailingEmpty(parts[..|parts| - 1])
  }

  /**
    String.split with limit 0: with no occurrence the result is the whole
    string (even when it is empty); otherwise the pieces, less the empty
    strings at the end.
  */
  function Split(s: string, sep: string): (r: seq<string>)
    requires |sep| > 0
    ensures |Pieces(s, sep)| == 1 ==> r == Pieces(s, sep)
    ensures |r| <= |Pieces(s, sep)| && r == Pieces(s, sep)[..|r|]
    ensures forall i :: |r| <= i < |Pieces(s, sep)| ==> Pieces(s, sep)[i] == ""
    ensures |Pieces(s, sep)| > 1 && |r| > 0 ==> r[|r| - 1] != ""
  {
    var parts := Pieces(s, sep);
    if |parts| == 1 then parts else DropTrailingEmpty(parts)
  }

  /** No piece holds the separator: every occurrence was cut. */
  lemma {:induction false} PiecesFree(s: string, sep: string)
    requires |sep| > 0
    ensures forall i :: 0 <= i < |Pieces(s, sep)| ==> !Contains(Pieces(s, sep)[i], sep)
    decreases |s|
  {
    match IndexOf(s, sep, 0)
    case None =>
      assert Pieces(s, sep) == [s];
    case Some(k) =>
      var piece := s[..k];
      forall j | 0 <= j <= |piece| ensures !OccursAt(piece, sep, j) {
        if j + |sep| <= |piece| {
          assert !OccursAt(s, sep, j);
          assert piece[j..j + |sep|] == s[j..j + |sep|];
        }
      }
      PiecesFree(s[k + |sep|..], sep);
      assert Pieces(s, sep) == [piece] + Pieces(s[k + |sep|..], sep);
  }

  /** A string in which `sep` does not occur is its own only piece. */
  lemma SplitAbsent(s: string, sep: string)
    requires |sep| > 0 && !Contains(s, sep)
    ensures Split(s, sep) == [s]
  {
  }

  /**
    Cutting `x + sep + y` yields `x` first when the first occurrence of
    `sep` is the one placed after `x`.
  */
  lemma PiecesAfter(x: string, sep: string, y: string)
    requires |sep| > 0
    requires forall i :: 0 <= i < |x| ==> !OccursAt(x + sep + y, sep, i)
    ensures Pieces(x + sep + y, sep) == [x] + Pieces(y, sep)
  {
    var s := x + sep + y;
    assert OccursAt(s, sep, |x|) by {
      assert s[|x|..|x| + |sep|] == sep;
    }
    var r := IndexOf(s, sep, 0);
    assert r.Some? && r.value == |x|;
    assert s[..|x|] == x;
    assert s[|x| + |sep|..] == y;
  }
}
