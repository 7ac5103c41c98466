/** Splitting text at a separator, and decimal numbers. */
module Texts {

  /** The pieces between separators; there is always at least one. */
  function Split(s: string, separator: char): (pieces: seq<string>)
    ensures pieces != []
    ensures forall i :: 0 <= i < |pieces| ==> separator !in pieces[i]
  {
    if s == [] then [""]
    else
      var rest := Split(s[1..], separator);
      if s[0] == separator then [""] + rest else [[s[0]] + rest[0]] + rest[1..]
  }

  lemma {:induction false} SplitAfterPiece(piece: string, rest: string, separator: char)
    requires separator !in piece
    ensures Split(piece + [separator] + rest, separator) == [piece] + Split(rest, separator)
  {
    var s := piece + [separator] + rest;
    if piece == [] {
      assert s[1..] == rest;
    } else {
      SplitAfterPiece(piece[1..], rest, separator);
      assert s[1..] == piece[1..] + [separator] + rest;
      assert [piece[0]] + piece[1..] == piece;
    }
  }

  lemma {:induction false} SplitOnePiece(piece: string, separator: char)
    requires separator !in piece
    ensures Split(piece, separator) == [piece]
  {
    if piece != [] {
      SplitOnePiece(piece[1..], separator);
      assert [piece[0]] + piece[1..] == piece;
    }
  }

  /** The pieces with separators between them. */
  function Joined(pieces: seq<string>, separator: char): string {
    if pieces == [] then "" else if |pieces| == 1 then pieces[0]
    else pieces[0] + [separator] + Joined(pieces[1..], separator)
  }

  lemma {:induction false} SplitJoins(s: string, separator: char)
    ensures Joined(Split(s, separator), separator) == s
  {
    if s != [] {
      SplitJoins(s[1..], separator);
      var rest, pieces := Split(s[1..], separator), Split(s, separator);
      if s[0] == separator {
        assert pieces[1..] == rest;
      } else {
        assert pieces[1..] == rest[1..];
      }
    }
  }

  predicate IsDigit(c: char) {
    '0' <= c <= '9'
  }

  predicate AllDigits(s: string) {
    forall i :: 0 <= i < |s| ==> IsDigit(s[i])
  }

  /** The number a digit string stands for. */
  function Value(s: string): nat
    requires AllDigits(s)
  {
    if s == [] then 0 else 10 * Value(s[..|s| - 1]) + (s[|s| - 1] - '0') as nat
  }

  predicate IsNumber(s: string, n: nat) {
    s != [] && AllDigits(s) && Value(s) == n
  }

  function Decimal(n: nat): string {
    if n < 10 then [('0' as int + n) as char] else Decimal(n / 10) + [('0' as int + n % 10) as char]
  }

  lemma {:induction false} DecimalIsNumber(n: nat)
    ensures IsNumber(Decimal(n), n)
  {
    if n >= 10 {
      DecimalIsNumber(n / 10);
      var s := Decimal(n);
      assert s[..|s| - 1] == Decimal(n / 10);
    }
  }
}
