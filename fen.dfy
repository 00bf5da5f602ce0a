/**
 * The text handling LoadFEN in ChessEngine/BoardController.cs relies on:
 * `string.Split` with a one-character separator, `int.Parse` on decimal
 * digits, 32-bit `int` and 16-bit `char` arithmetic, `new string(c, n)`,
 * and the cursor that walks the placement field from a8 to h1.
 */
module Fen {
  import opened Geometry

  // ---------------------------------------------------------------------
  // string.Split
  // ---------------------------------------------------------------------

  /** `s.Split(sep)`: the pieces between separators, empty pieces kept. */
  function Split(s: string, sep: char): (r: seq<string>)
    ensures |r| >= 1
    ensures forall i | 0 <= i < |r| :: sep !in r[i]
  {
    if |s| == 0 then [""]
    else
      var rest := Split(s[1..], sep);
      if s[0] == sep then [""] + rest
      else [[s[0]] + rest[0]] + rest[1..]
  }

  /** `string.Join(sep, parts)`. */
  function Join(parts: seq<string>, sep: char): string
    requires |parts| >= 1
  {
    if |parts| == 1 then parts[0] else parts[0] + [sep] + Join(parts[1..], sep)
  }

  /** Joining the pieces of a split gives the string back. */
  lemma {:induction false} JoinSplit(s: string, sep: char)
    ensures Join(Split(s, sep), sep) == s
  {
    if |s| > 0 {
      var rest := Split(s[1..], sep);
      JoinSplit(s[1..], sep);
      if s[0] == sep {
        assert Split(s, sep)[1..] == rest;
        assert s == [s[0]] + s[1..];
      } else if |rest| == 1 {
        assert s == [s[0]] + s[1..];
      } else {
        var r := Split(s, sep);
        assert r[1..] == rest[1..];
        assert r[0] == [s[0]] + rest[0];
        assert Join(rest, sep) == rest[0] + [sep] + Join(rest[1..], sep);
        assert s == [s[0]] + s[1..];
      }
    }
  }

  /** Splitting pieces that hold no separator, joined by it, gives the pieces back. */
  lemma {:induction false} SplitJoin(parts: seq<string>, sep: char)
    requires |parts| >= 1 && forall i | 0 <= i < |parts| :: sep !in parts[i]
    ensures Split(Join(parts, sep), sep) == parts
  {
    if |parts| == 1 {
      SplitPlain(parts[0], sep);
    } else {
      assert forall i | 0 <= i < |parts[1..]| :: sep !in parts[1..][i] by {
        forall i | 0 <= i < |parts[1..]| ensures sep !in parts[1..][i] {
          assert parts[1..][i] == parts[i + 1];
        }
      }
      SplitJoin(parts[1..], sep);
      SplitPrefix(parts[0], Join(parts[1..], sep), sep);
      assert parts == [parts[0]] + parts[1..];
    }
  }

  /** A string without the separator splits into itself. */
  lemma {:induction false} SplitPlain(s: string, sep: char)
    requires sep !in s
    ensures Split(s, sep) == [s]
  {
    if |s| > 0 {
      SplitPlain(s[1..], sep);
      assert [s[0]] + s[1..] == s;
    }
  }

  /** A separator-free head followed by the separator starts a new piece. */
  lemma {:induction false} SplitPrefix(head: string, tail: string, sep: char)
    requires sep !in head
    ensures Split(head + [sep] + tail, sep) == [head] + Split(tail, sep)
  {
    var s := head + [sep] + tail;
    if |head| == 0 {
      assert s == [sep] + tail;
      assert s[1..] == tail;
    } else {
      assert s[0] == head[0];
      assert s[1..] == head[1..] + [sep] + tail;
      SplitPrefix(head[1..], tail, sep);
      assert [head[0]] + head[1..] == head;
    }
  }

  /** The pieces of a list of strings, concatenated in order. */
  function Concat(parts: seq<string>): string {
    if |parts| == 0 then [] else Concat(parts[..|parts| - 1]) + parts[|parts| - 1]
  }

  /** A string with every `sep` taken out. */
  function Strip(s: string, sep: char): (r: string)
    ensures sep !in r && |r| <= |s|
  {
    if |s| == 0 then []
    else (if s[0] == sep then [] else [s[0]]) + Strip(s[1..], sep)
  }

  lemma {:induction false} ConcatFront(head: string, parts: seq<string>)
    ensures Concat([head] + parts) == head + Concat(parts)
  {
    if |parts| > 0 {
      var last := |parts| - 1;
      assert ([head] + parts)[..|parts|] == [head] + parts[..last];
      ConcatFront(head, parts[..last]);
    }
  }

  /** Walking the pieces of a split one after the other walks the string with the separators left out. */
  lemma {:induction false} ConcatSplit(s: string, sep: char)
    ensures Concat(Split(s, sep)) == Strip(s, sep)
  {
    if |s| == 0 {
      assert Concat([""]) == Concat([]) + "";
    } else {
      var rest := Split(s[1..], sep);
      ConcatSplit(s[1..], sep);
      assert Strip(s, sep) == (if s[0] == sep then [] else [s[0]]) + Concat(rest);
      if s[0] == sep {
        assert Split(s, sep) == [""] + rest;
        ConcatFront("", rest);
      } else {
        assert Split(s, sep) == [[s[0]] + rest[0]] + rest[1..];
        ConcatFront([s[0]] + rest[0], rest[1..]);
        assert rest == [rest[0]] + rest[1..];
        ConcatFront(rest[0], rest[1..]);
      }
    }
  }

  // ---------------------------------------------------------------------
  // int.Parse, 32-bit int and 16-bit char arithmetic, new string(c, n)
  // ---------------------------------------------------------------------

  predicate IsDigit(c: char) {
    '0' <= c <= '9'
  }

  /** The strings read here as decimal numbers: one or more digits. */
  predicate Digits(s: string) {
    |s| > 0 && forall i | 0 <= i < |s| :: IsDigit(s[i])
  }

  /** The value of a string of digits, most significant first. */
  function Value(s: string): (r: nat)
    requires forall i | 0 <= i < |s| :: IsDigit(s[i])
  {
    if |s| == 0 then 0
    else
      assert IsDigit(s[|s| - 1]);
      Value(s[..|s| - 1]) * 10 + (s[|s| - 1] as int - '0' as int)
  }

  /** The decimal digits of a number, without leading zeros. */
  function Decimal(n: nat): (r: string)
    ensures Digits(r)
  {
    if n < 10 then [('0' as int + n) as char] else Decimal(n / 10) + [('0' as int + n % 10) as char]
  }

  /** Reading back the digits of a number gives the number. */
  lemma {:induction false} ValueDecimal(n: nat)
    ensures Value(Decimal(n)) == n
  {
    if n >= 10 {
      var d := Decimal(n);
      assert d[..|d| - 1] == Decimal(n / 10);
      ValueDecimal(n / 10);
    }
  }

  /** A number `int.Parse` accepts from digits: below 2^31. */
  predicate Parses(s: string) {
    Digits(s) && Value(s) < 0x8000_0000
  }

  /** C# `int` arithmetic: the value wrapped into [-2^31, 2^31). */
  function Wrap32(v: int): (r: int)
    ensures -0x8000_0000 <= r < 0x8000_0000
    ensures -0x8000_0000 <= v < 0x8000_0000 ==> r == v
  {
    (v + 0x8000_0000) % 0x1_0000_0000 - 0x8000_0000
  }

  /** An `int` cast to `char`: its low 16 bits. */
  function Char16(v: int): (r: nat)
    ensures r < 0x1_0000
    ensures 0 <= v < 0x1_0000 ==> r == v
  {
    v % 0x1_0000
  }

  /** `new string(c, n)`: `n` copies of `c`. */
  function Repeat(c: char, n: nat): (r: string)
    ensures |r| == n && forall i | 0 <= i < n :: r[i] == c
  {
    if n == 0 then [] else Repeat(c, n - 1) + [c]
  }

  // ---------------------------------------------------------------------
  // The placement cursor
  // ---------------------------------------------------------------------

  /** The square the placement cursor `i` stands on: file `i % 8`, rank `7 - i / 8` (a8 first, h1 last). */
  function SquareOf(i: nat): Sq {
    Sq(i % 8, 7 - i / 8)
  }

  /** The cursor value of a square. */
  function IndexOf(t: Sq): int {
    (7 - t.y) * 8 + t.x
  }

  /** The first 64 cursor values are the squares of the board, one each. */
  lemma CursorSquares(i: nat, t: Sq)
    ensures i < 64 <==> InBoard(SquareOf(i).x, SquareOf(i).y)
    ensures InBoard(t.x, t.y) ==> 0 <= IndexOf(t) < 64 && SquareOf(IndexOf(t)) == t
    ensures IndexOf(SquareOf(i)) == i
  {
    if InBoard(t.x, t.y) {
      var k := IndexOf(t);
      assert k == (7 - t.y) * 8 + t.x;
      assert k / 8 == 7 - t.y && k % 8 == t.x;
    }
  }
}
