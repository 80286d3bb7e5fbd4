/** Reading and printing of the small pieces that several formats share. */
module Texts {
  /** What was read, and the text after it. */
  datatype Read<+T> = Read(value: T, rest: string)

  predicate IsDigit(c: char) { '0' <= c <= '9' }

  function PrintNat(n: nat): string {
    (if n < 10 then "" else PrintNat(n / 10)) + ['0' + (n % 10) as char]
  }

  /** Reads digits as long as there are any; `n` is the value of those before. */
  function ReadDigits(n: nat, s: string): (r: Read<nat>)
    ensures |r.rest| <= |s|
    decreases |s|
  {
    if s != "" && IsDigit(s[0]) then ReadDigits(10 * n + (s[0] - '0') as nat, s[1..]) else Read(n, s)
  }

  /** The number whose digits are those of m and then those of n. */
  function Pushed(m: nat, n: nat): nat { 10 * (if n < 10 then m else Pushed(m, n / 10)) + n % 10 }

  lemma {:induction false} PushedOnNothing(n: nat)
    ensures Pushed(0, n) == n
  {
    if n >= 10 {
      PushedOnNothing(n / 10);
    }
  }

  lemma DigitReads(v: nat, d: nat, rest: string)
    requires d < 10
    ensures ReadDigits(v, ['0' + d as char] + rest) == ReadDigits(10 * v + d, rest)
  {
    var t := ['0' + d as char] + rest;
    assert t[0] == '0' + d as char && t[1..] == rest;
  }

  lemma {:induction false} DigitsRead(m: nat, n: nat, rest: string)
    ensures ReadDigits(m, PrintNat(n) + rest) == ReadDigits(Pushed(m, n), rest)
  {
    hide ReadDigits;
    var last := ['0' + (n % 10) as char];
    if n >= 10 {
      DigitsRead(m, n / 10, last + rest);
      assert PrintNat(n) + rest == PrintNat(n / 10) + (last + rest);
      DigitReads(Pushed(m, n / 10), n % 10, rest);
    } else {
      DigitReads(m, n, rest);
      assert PrintNat(n) == last;
    }
  }

  lemma {:induction false} PrintNatStarts(n: nat)
    ensures PrintNat(n) != "" && IsDigit(PrintNat(n)[0])
  {
    if n >= 10 {
      PrintNatStarts(n / 10);
    }
  }

  lemma Joins<T>(a: seq<T>, b: seq<T>, c: seq<T>)
    ensures (a + b) + c == a + (b + c)
  {
  }

  lemma HeadAndTail<T>(p: seq<T>, q: seq<T>)
    requires p != []
    ensures (p + q)[0] == p[0] && (p + q)[1..] == p[1..] + q
  {
  }

  lemma Uncut<T>(p: seq<T>)
    requires p != []
    ensures [p[0]] + p[1..] == p
  {
  }

  lemma Drops(c: char, s: string)
    ensures ([c] + s)[0] == c && ([c] + s)[1..] == s
  {
  }

  // Case

  function LowerChar(c: char): char { if 'A' <= c <= 'Z' then 'a' + (c - 'A') else c }

  function Lower(s: string): (r: string)
    ensures |r| == |s| && forall i :: 0 <= i < |s| ==> r[i] == LowerChar(s[i])
  {
    if s == "" then "" else [LowerChar(s[0])] + Lower(s[1..])
  }

  /** The capital letters of ASCII become small ones, and nothing else changes. */
  lemma LettersAreLowered(c: char)
    ensures Lower([c]) == if 'A' <= c <= 'Z' then [c + 32 as char] else [c]
  {
  }

  lemma LowerJoins(a: string, b: string)
    ensures Lower(a + b) == Lower(a) + Lower(b)
  {
  }

  lemma LowerTwice(s: string)
    ensures Lower(Lower(s)) == Lower(s)
  {
  }

  predicate Contains(s: string, sub: string) {
    exists i :: 0 <= i <= |s| && sub <= s[i..]
  }

  // Lists of texts

  /** The pieces between the separators; an empty text has one empty piece. */
  function Split(s: string, sep: char): (parts: seq<string>)
    ensures |parts| >= 1
  {
    if s == "" then [""]
    else
      var rest := Split(s[1..], sep);
      if s[0] == sep then [""] + rest else [[s[0]] + rest[0]] + rest[1..]
  }

  function Join(parts: seq<string>, sep: char): string {
    if parts == [] then ""
    else if |parts| == 1 then parts[0]
    else parts[0] + [sep] + Join(parts[1..], sep)
  }

  lemma {:induction false} SplitPiece(piece: string, sep: char, rest: string)
    requires sep !in piece
    ensures Split(piece + [sep] + rest, sep) == [piece] + Split(rest, sep)
    ensures Split(piece, sep) == [piece]
  {
    var s := piece + [sep] + rest;
    if piece == "" {
      assert s[1..] == rest;
    } else {
      SplitPiece(piece[1..], sep, rest);
      assert s[1..] == piece[1..] + [sep] + rest && [piece[0]] + piece[1..] == piece;
    }
  }

  /** Splitting undoes joining, when no piece holds the separator. */
  lemma {:induction false} SplitJoin(parts: seq<string>, sep: char)
    requires parts != [] && forall p :: p in parts ==> sep !in p
    ensures Split(Join(parts, sep), sep) == parts
  {
    if |parts| == 1 {
      SplitPiece(parts[0], sep, "");
      assert parts == [parts[0]];
    } else {
      var rest := Join(parts[1..], sep);
      SplitJoin(parts[1..], sep);
      SplitPiece(parts[0], sep, rest);
      assert parts == [parts[0]] + parts[1..];
    }
  }

  /** And joining undoes splitting. */
  lemma {:induction false} JoinSplit(s: string, sep: char)
    ensures Join(Split(s, sep), sep) == s && forall p :: p in Split(s, sep) ==> sep !in p
  {
    if s != "" {
      JoinSplit(s[1..], sep);
      var rest := Split(s[1..], sep);
      if s[0] == sep {
        assert ([""] + rest)[1..] == rest;
      } else {
        var parts := [[s[0]] + rest[0]] + rest[1..];
        assert parts[1..] == rest[1..];
      }
    }
  }
}
