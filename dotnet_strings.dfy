/**
 * The parts of .NET's string handling that the SAS builder relies on:
 * strings that may be null, the IsNullOrEmpty / IsNullOrWhiteSpace tests,
 * String.Join (where a null element renders as empty), a single-character
 * String.Replace, and the splitting that undoes a join.
 */
module DotNetStrings {

  /** A .NET `string` reference: null, or a (possibly empty) sequence of characters. */
  datatype NullableString = Null | Str(value: string)

  /** How a nullable string renders in String.Join, in `x ?? ""` and in string interpolation. */
  function OrEmpty(s: NullableString): (r: string)
    ensures s.Str? ==> r == s.value
    ensures s.Null? ==> r == ""
  {
    match s
    case Null => ""
    case Str(v) => v
  }

  /** string.IsNullOrEmpty */
  predicate IsNullOrEmpty(s: NullableString) {
    s.Null? || s.value == ""
  }

  /**
   * char.IsWhiteSpace: the Unicode space, line and paragraph separators,
   * the control characters U+0009..U+000D and U+0085.
   */
  predicate IsWhiteSpace(c: char) {
    ('\U{9}' <= c <= '\U{D}') || c == ' ' || c == '\U{85}' || c == '\U{A0}' || c == '\U{1680}'
    || ('\U{2000}' <= c <= '\U{200A}') || c == '\U{2028}' || c == '\U{2029}' || c == '\U{202F}'
    || c == '\U{205F}' || c == '\U{3000}'
  }

  /** Every character of `s` (possibly none) is white space. */
  predicate AllWhiteSpace(s: string) {
    |s| == 0 || (IsWhiteSpace(s[0]) && AllWhiteSpace(s[1..]))
  }

  /** string.IsNullOrWhiteSpace */
  predicate IsNullOrWhiteSpace(s: NullableString) {
    s.Null? || AllWhiteSpace(s.value)
  }

  /** Every null-or-empty string is also null-or-white-space; a non-empty string of
      white space is the case on which the two tests disagree. */
  lemma NullOrEmptyIsNullOrWhiteSpace(s: NullableString)
    ensures IsNullOrEmpty(s) ==> IsNullOrWhiteSpace(s)
    ensures !IsNullOrWhiteSpace(s) ==> s.Str? && |s.value| > 0
    ensures IsNullOrWhiteSpace(Str(" ")) && !IsNullOrEmpty(Str(" "))
  {
    assert AllWhiteSpace(" "[1..]);
  }

  /**
   * String.Join(sep, parts): the parts with `sep` between each neighbouring pair.
   * Defined from the right, as a builder that appends one part at a time would produce it.
   */
  function Join(sep: string, parts: seq<string>): (r: string)
    ensures |parts| == 1 ==> r == parts[0]
    ensures |parts| == 0 ==> r == ""
  {
    if |parts| == 0 then ""
    else if |parts| == 1 then parts[0]
    else Join(sep, parts[..|parts| - 1]) + sep + parts[|parts| - 1]
  }

  /** Joining one more part appends the separator and that part, and nothing else. */
  lemma JoinSnoc(sep: string, parts: seq<string>, last: string)
    requires |parts| > 0
    ensures Join(sep, parts + [last]) == Join(sep, parts) + sep + last
  {
    assert (parts + [last])[..|parts|] == parts;
  }

  /** A join of two or more parts starts with the first part and the separator. */
  lemma {:induction false} JoinCons(sep: string, parts: seq<string>)
    requires |parts| >= 2
    ensures Join(sep, parts) == parts[0] + sep + Join(sep, parts[1..])
    decreases |parts|
  {
    var n := |parts|;
    if n > 2 {
      JoinCons(sep, parts[..n - 1]);
      assert parts[..n - 1][1..] == parts[1..][..n - 2];
    }
  }

  /** A join of two or more parts opens with the first part and a separator, and
      closes with a separator and the last part. */
  lemma JoinEnds(sep: string, parts: seq<string>)
    requires |parts| >= 2
    ensures var r, first, last := Join(sep, parts), parts[0], parts[|parts| - 1];
      && |r| >= |first| + |sep| && r[..|first| + |sep|] == first + sep
      && |r| >= |sep| + |last| && r[|r| - |sep| - |last|..] == sep + last
  {
    JoinCons(sep, parts);
    var r := Join(sep, parts);
    var head := Join(sep, parts[..|parts| - 1]);
    assert r == head + sep + parts[|parts| - 1];
    assert r[|r| - |sep| - |parts[|parts| - 1]|..] == sep + parts[|parts| - 1];
    assert r[..|parts[0]| + |sep|] == parts[0] + sep;
  }

  /** Splits `s` at every occurrence of `c` (String.Split with one separator character). */
  function Split(s: string, c: char): (r: seq<string>)
    ensures |r| >= 1
    decreases |s|
  {
    if |s| == 0 then [""]
    else
      var rest := Split(s[1..], c);
      if s[0] == c then [""] + rest else [[s[0]] + rest[0]] + rest[1..]
  }

  /** A string without the separator splits into itself alone. */
  lemma {:induction false} SplitNoSeparator(s: string, c: char)
    requires c !in s
    ensures Split(s, c) == [s]
    decreases |s|
  {
    if |s| > 0 {
      SplitNoSeparator(s[1..], c);
      assert [s[0]] + s[1..] == s;
    }
  }

  /** Splitting `s + c + t`, where `t` holds no `c`, splits `s` and adds `t` as the last piece. */
  lemma {:induction false} SplitAppend(s: string, c: char, t: string)
    requires c !in t
    ensures Split(s + [c] + t, c) == Split(s, c) + [t]
    decreases |s|
  {
    var whole := s + [c] + t;
    if |s| == 0 {
      assert whole == [c] + t;
      assert whole[1..] == t;
      SplitNoSeparator(t, c);
    } else {
      assert whole[0] == s[0];
      assert whole[1..] == s[1..] + [c] + t;
      SplitAppend(s[1..], c, t);
    }
  }

  /** Splitting undoes joining, when no part holds the separator and there is at least one part. */
  lemma {:induction false} SplitJoin(parts: seq<string>, c: char)
    requires |parts| > 0
    requires forall i :: 0 <= i < |parts| ==> c !in parts[i]
    ensures Split(Join([c], parts), c) == parts
    decreases |parts|
  {
    if |parts| == 1 {
      SplitNoSeparator(parts[0], c);
    } else {
      var init := parts[..|parts| - 1];
      SplitJoin(init, c);
      SplitAppend(Join([c], init), c, parts[|parts| - 1]);
      assert init + [parts[|parts| - 1]] == parts;
    }
  }

  /** string.IndexOf(c): the position of the first `c`, or |s| when there is none. */
  function IndexOf(s: string, c: char): (i: nat)
    ensures i <= |s|
    ensures i < |s| ==> s[i] == c
    ensures forall j :: 0 <= j < i ==> s[j] != c
  {
    if |s| == 0 then 0
    else if s[0] == c then 0
    else 1 + IndexOf(s[1..], c)
  }

  /** String.Replace with one-character arguments: every `from` becomes `to`. */
  function Replace(s: string, from: char, to: char): (r: string)
    ensures |r| == |s|
    ensures forall i :: 0 <= i < |s| ==> r[i] == (if s[i] == from then to else s[i])
    ensures from != to ==> from !in r
  {
    if |s| == 0 then ""
    else [if s[0] == from then to else s[0]] + Replace(s[1..], from, to)
  }
}
