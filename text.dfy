/** The parts of .NET's string handling that the message box relies on. */
module Text {
  import opened Wrappers

  /** A C# `string`, which may be null. */
  type NullableString = Option<string>

  /** `Environment.NewLine` on Windows, the only platform the message box runs on. */
  const NewLine: string := "\r\n"

  /** `char.IsWhiteSpace`: the Unicode space, line and paragraph separators and U+0009..U+000D, U+0085. */
  predicate IsWhiteSpace(c: char) {
    c == ' ' || ('\t' <= c <= '\r') || c == '\U{0085}' || c == '\U{00A0}' || c == '\U{1680}'
    || ('\U{2000}' <= c <= '\U{200A}') || c == '\U{2028}' || c == '\U{2029}'
    || c == '\U{202F}' || c == '\U{205F}' || c == '\U{3000}'
  }

  /** `string.IsNullOrWhiteSpace`. */
  predicate IsNullOrWhiteSpace(s: NullableString) {
    match s
    case None => true
    case Some(t) => forall i :: 0 <= i < |t| ==> IsWhiteSpace(t[i])
  }

  /** `string.Replace(char, char)`: every occurrence of `from` becomes `to`. */
  function ReplaceChar(s: string, from: char, to: char): (r: string)
    ensures |r| == |s|
    ensures forall i :: 0 <= i < |s| ==> r[i] == if s[i] == from then to else s[i]
  {
    if s == [] then [] else [if s[0] == from then to else s[0]] + ReplaceChar(s[1..], from, to)
  }

  /** `string.Replace(c, "")`: every occurrence of `c` is dropped, the rest keeps its order. */
  function Without(s: string, c: char): (r: string)
    ensures c !in r
    ensures |r| <= |s|
    ensures c !in s ==> r == s
    ensures forall x :: x in r ==> x in s
  {
    if s == [] then [] else (if s[0] == c then [] else [s[0]]) + Without(s[1..], c)
  }

  /** The number of times `c` occurs in `s`. */
  function Count(s: string, c: char): nat {
    if s == [] then 0 else (if s[0] == c then 1 else 0) + Count(s[1..], c)
  }

  lemma ReplaceCharRemovesFrom(s: string, from: char, to: char)
    requires from != to
    ensures from !in ReplaceChar(s, from, to)
  {
  }

  /** Removing a character drops exactly its occurrences: nothing else is lost. */
  lemma {:induction false} WithoutLength(s: string, c: char)
    ensures |Without(s, c)| == |s| - Count(s, c)
  {
    if s != [] {
      WithoutLength(s[1..], c);
    }
  }

  /** Removing a character twice is the same as removing it once. */
  lemma WithoutIdempotent(s: string, c: char)
    ensures Without(Without(s, c), c) == Without(s, c)
  {
  }

  /** Turning `from` into `to` and then dropping `to` drops `from`, when `to` did not occur before. */
  lemma {:induction false} ReplaceThenDrop(s: string, from: char, to: char)
    requires to !in s
    ensures Without(ReplaceChar(s, from, to), to) == Without(s, from)
  {
    if s != [] {
      ReplaceThenDrop(s[1..], from, to);
      var r := ReplaceChar(s, from, to);
      assert r[1..] == ReplaceChar(s[1..], from, to);
    }
  }

  /** Removal distributes over concatenation. */
  lemma {:induction false} WithoutAppend(a: string, b: string, c: char)
    ensures Without(a + b, c) == Without(a, c) + Without(b, c)
  {
    if a == [] {
      assert a + b == b;
    } else {
      var ab := a + b;
      assert ab[0] == a[0] && ab[1..] == a[1..] + b;
      WithoutAppend(a[1..], b, c);
      assert Without(ab, c) == (if a[0] == c then [] else [a[0]]) + Without(a[1..] + b, c);
    }
  }
}
