/** Result types and the text operations every component shares.
    Trimming is over the ASCII white space Go's `unicode.IsSpace` accepts, and case
    folding is over ASCII letters. */
module Prelude {

  datatype Option<+T> = None | Some(value: T)

  datatype Result<+T, +E> = Ok(value: T) | Err(error: E)

  function TrimLeftBy<T>(s: seq<T>, space: T -> bool): seq<T> {
    if s != [] && space(s[0]) then TrimLeftBy(s[1..], space) else s
  }

  function TrimRightBy<T>(s: seq<T>, space: T -> bool): seq<T> {
    if s != [] && space(s[|s| - 1]) then TrimRightBy(s[..|s| - 1], space) else s
  }

  function TrimBy<T>(s: seq<T>, space: T -> bool): seq<T> {
    TrimRightBy(TrimLeftBy(s, space), space)
  }

  /** No blank element at either end. */
  predicate IsTrimmed<T>(s: seq<T>, space: T -> bool) {
    s != [] ==> !space(s[0]) && !space(s[|s| - 1])
  }

  lemma {:induction false} TrimLeftFront<T>(s: seq<T>, space: T -> bool)
    ensures var r := TrimLeftBy(s, space);
            (r != [] ==> !space(r[0])) && |r| <= |s| && r == s[|s| - |r|..]
  {
    if s != [] && space(s[0]) {
      TrimLeftFront(s[1..], space);
    }
  }

  lemma {:induction false} TrimRightEnds<T>(s: seq<T>, space: T -> bool)
    requires s != [] ==> !space(s[0])
    ensures var r := TrimRightBy(s, space); IsTrimmed(r, space) && r <= s && (s != [] ==> r != [])
  {
    if s != [] && space(s[|s| - 1]) {
      assert |s| > 1;
      TrimRightEnds(s[..|s| - 1], space);
    }
  }

  /** Trimming yields a trimmed sequence, a slice of its input. */
  lemma TrimIsTrimmed<T>(s: seq<T>, space: T -> bool)
    ensures IsTrimmed(TrimBy(s, space), space)
    ensures exists i, j :: 0 <= i <= j <= |s| && TrimBy(s, space) == s[i..j]
  {
    TrimLeftFront(s, space);
    var left := TrimLeftBy(s, space);
    TrimRightEnds(left, space);
    var r := TrimBy(s, space);
    var i := |s| - |left|;
    assert r == s[i..i + |r|];
  }

  /** A trimmed sequence is left alone. */
  lemma TrimOfTrimmed<T>(s: seq<T>, space: T -> bool)
    requires IsTrimmed(s, space)
    ensures TrimBy(s, space) == s
  {
  }

  predicate IsSpace(c: char) {
    c in {' ', '\t', '\n', '\r', 11 as char, 12 as char}
  }

  function TrimSpace(s: string): string {
    TrimBy(s, IsSpace)
  }

  /** Go's `len` of a string: its bytes in UTF-8. */
  function ByteLength(s: string): nat {
    if s == "" then 0
    else
      var c := s[0] as int;
      ByteLength(s[1..]) + if c < 0x80 then 1 else if c < 0x800 then 2 else if c < 0x1_0000 then 3 else 4
  }

  lemma {:induction false} AsciiLength(s: string)
    requires forall i :: 0 <= i < |s| ==> s[i] as int < 0x80
    ensures ByteLength(s) == |s|
  {
    if s != "" {
      AsciiLength(s[1..]);
    }
  }

  function LowerChar(c: char): char {
    if 'A' <= c <= 'Z' then (c as int + 32) as char else c
  }

  function ToLower(s: string): (r: string)
    ensures |r| == |s|
  {
    seq(|s|, i requires 0 <= i < |s| => LowerChar(s[i]))
  }

  /** `strings.EqualFold`. */
  predicate EqualFold(a: string, b: string) {
    ToLower(a) == ToLower(b)
  }

  lemma ToLowerIdempotent(s: string)
    ensures ToLower(ToLower(s)) == ToLower(s)
  {
    assert forall c: char :: LowerChar(LowerChar(c)) == LowerChar(c);
  }

  /** Trimmed and lower-cased: how IDs, levels and modes are compared. */
  function Canonical(s: string): string {
    ToLower(TrimSpace(s))
  }

  lemma CanonicalTwice(s: string)
    ensures Canonical(Canonical(s)) == Canonical(s)
    ensures TrimSpace(Canonical(s)) == Canonical(s)
  {
    TrimIsTrimmed(s, IsSpace);
    var trimmed := TrimSpace(s);
    assert ToLower(trimmed) != "" ==> ToLower(trimmed)[0] == LowerChar(trimmed[0]);
    TrimOfTrimmed(ToLower(trimmed), IsSpace);
    ToLowerIdempotent(trimmed);
  }

  /** Go's `<` on strings. */
  predicate LexLess(a: string, b: string) {
    b != [] && (a == [] || a[0] < b[0] || (a[0] == b[0] && LexLess(a[1..], b[1..])))
  }

  lemma {:induction false} LexLessIsTotal(a: string, b: string)
    ensures a != b ==> LexLess(a, b) || LexLess(b, a)
    ensures !(LexLess(a, b) && LexLess(b, a)) && !LexLess(a, a)
  {
    if a != [] && b != [] {
      LexLessIsTotal(a[1..], b[1..]);
      LexLessIsTotal(a[1..], a[1..]);
      assert a == [a[0]] + a[1..] && b == [b[0]] + b[1..];
    } else if a != [] {
      LexLessIsTotal(a[1..], a[1..]);
    }
  }

  lemma {:induction false} LexLessIsTransitive(a: string, b: string, c: string)
    requires LexLess(a, b) && LexLess(b, c)
    ensures LexLess(a, c)
  {
    if a != [] && a[0] == b[0] && b[0] == c[0] {
      LexLessIsTransitive(a[1..], b[1..], c[1..]);
    }
  }

  /** A strict order: total, transitive, and so is its negation. */
  lemma LexLessIsOrder(a: string, b: string, c: string)
    ensures LexLess(a, b) || LexLess(b, a) || a == b
    ensures !(LexLess(a, b) && LexLess(b, a)) && !LexLess(a, a)
    ensures LexLess(a, b) && LexLess(b, c) ==> LexLess(a, c)
    ensures !LexLess(b, a) && !LexLess(c, b) ==> !LexLess(c, a)
  {
    LexLessIsTotal(a, b);
    LexLessIsTotal(b, c);
    LexLessIsTotal(a, c);
    if LexLess(a, b) && LexLess(b, c) {
      LexLessIsTransitive(a, b, c);
    }
  }
}
