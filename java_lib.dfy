/**
 * The parts of the Java library that the Calligraphy core relies on: nullable
 * references, `TextUtils.isEmpty`, `String.trim`, `String.equalsIgnoreCase`,
 * `String.lastIndexOf` and `Collection.remove(Object)`.
 */
module JavaLib {

  /** A nullable reference: `None` stands for Java's `null`. */
  datatype Option<+T> = None | Some(value: T)

  /** A nullable `java.lang.String` (or a `CharSequence` compared by its characters). */
  type JString = Option<string>

  /** `TextUtils.isEmpty`: null or of length zero. */
  predicate IsEmpty(s: JString) {
    s.None? || s.value == ""
  }

  /** Every character is one `String.trim` strips (code point at most U+0020). */
  predicate Blank(s: string) {
    forall i :: 0 <= i < |s| ==> s[i] <= ' '
  }

  /** Leading part of `String.trim`: drops characters up to U+0020 from the front. */
  function TrimStart(s: string): (r: string)
    ensures |r| <= |s| && r == s[|s| - |r|..]
    ensures r == "" <==> Blank(s)
    ensures r != "" ==> r[0] > ' '
  {
    if |s| > 0 && s[0] <= ' ' then TrimStart(s[1..]) else s
  }

  /** Trailing part of `String.trim`: drops characters up to U+0020 from the back. */
  function TrimEnd(s: string): (r: string)
    ensures |r| <= |s| && r == s[..|r|]
    ensures r == "" <==> Blank(s)
  {
    if |s| > 0 && s[|s| - 1] <= ' ' then TrimEnd(s[..|s| - 1]) else s
  }

  /** `String.trim`: the result is empty exactly when every character is blank. */
  function Trim(s: string): (r: string)
    ensures r == "" <==> Blank(s)
  {
    TrimEnd(TrimStart(s))
  }

  /** ASCII case folding, the part of `Character.toLowerCase` this model covers. */
  function ToLowerAscii(c: char): char {
    if 'A' <= c <= 'Z' then (c as int - 'A' as int + 'a' as int) as char else c
  }

  /** The string with every ASCII letter folded to lower case. */
  function Folded(s: string): (r: string)
    ensures |r| == |s|
    ensures forall i :: 0 <= i < |s| ==> r[i] == ToLowerAscii(s[i])
  {
    seq(|s|, i requires 0 <= i < |s| => ToLowerAscii(s[i]))
  }

  /** `String.equalsIgnoreCase`: same length and the same characters up to case. */
  predicate EqualsIgnoreCase(a: string, b: string) {
    |a| == |b| && forall i :: 0 <= i < |a| ==> ToLowerAscii(a[i]) == ToLowerAscii(b[i])
  }

  /** Ignoring case is equality after folding both sides. */
  lemma EqualsIgnoreCaseIsFoldedEquality(a: string, b: string)
    ensures EqualsIgnoreCase(a, b) <==> Folded(a) == Folded(b)
  {
    if Folded(a) == Folded(b) {
      forall i | 0 <= i < |a|
        ensures ToLowerAscii(a[i]) == ToLowerAscii(b[i])
      {
        assert Folded(a)[i] == Folded(b)[i];
      }
    }
  }

  /** `String.lastIndexOf(c)`: the last index holding `c`, or -1 when there is none. */
  function LastIndexOf(s: string, c: char): (r: int)
    ensures -1 <= r < |s|
    ensures r == -1 <==> c !in s
    ensures r >= 0 ==> s[r] == c && forall j :: r < j < |s| ==> s[j] != c
  {
    if |s| == 0 then -1
    else if s[|s| - 1] == c then |s| - 1
    else
      assert s == s[..|s| - 1] + [s[|s| - 1]];
      LastIndexOf(s[..|s| - 1], c)
  }

  /** When `b` holds `c`, the last `c` of `a + b` is the last `c` of `b`, shifted by `|a|`. */
  lemma {:induction false} LastIndexOfAppend(a: string, b: string, c: char)
    requires c in b
    ensures LastIndexOf(a + b, c) == |a| + LastIndexOf(b, c)
  {
    var k := LastIndexOf(b, c);
    var r := LastIndexOf(a + b, c);
    assert (a + b)[|a| + k] == c;
    assert r >= |a| + k;
    assert r <= |a| + k;
  }

  /** The index of the first occurrence of `x` in `s`. */
  function IndexOf<T(==)>(s: seq<T>, x: T): (i: nat)
    requires x in s
    ensures i < |s| && s[i] == x && x !in s[..i]
  {
    if s[0] == x then 0 else 1 + IndexOf(s[1..], x)
  }

  /**
   * `Collection.remove(Object)` on a list: drops the first occurrence of `x`
   * and keeps the order of the rest; a missing element leaves the list as it is.
   */
  function RemoveFirst<T(==)>(s: seq<T>, x: T): (r: seq<T>)
    ensures x !in s ==> r == s
    ensures x in s ==> r == s[..IndexOf(s, x)] + s[IndexOf(s, x) + 1..]
  {
    if |s| == 0 then s
    else if s[0] == x then s[1..]
    else
      var rest := s[1..];
      if x in rest then
        SpliceAfterHead(s, IndexOf(rest, x));
        [s[0]] + RemoveFirst(rest, x)
      else
        assert s == [s[0]] + rest;
        [s[0]] + RemoveFirst(rest, x)
  }

  /** Cutting `s` around index `k + 1` is cutting its tail around `k`, behind its head. */
  lemma SpliceAfterHead<T>(s: seq<T>, k: nat)
    requires k + 1 < |s|
    ensures s[..k + 1] + s[k + 2..] == [s[0]] + (s[1..][..k] + s[1..][k + 1..])
  {
    assert s[..k + 1] == [s[0]] + s[1..][..k];
    assert s[k + 2..] == s[1..][k + 1..];
  }

  /** Removing an element takes away exactly one of its occurrences. */
  lemma RemoveFirstMultiset<T>(s: seq<T>, x: T)
    requires x in s
    ensures |RemoveFirst(s, x)| == |s| - 1
    ensures multiset(RemoveFirst(s, x)) == multiset(s) - multiset{x}
  {
    var i := IndexOf(s, x);
    assert s == s[..i] + [x] + s[i + 1..];
    calc {
      multiset(s);
      multiset(s[..i]) + multiset{x} + multiset(s[i + 1..]);
      multiset(s[..i] + s[i + 1..]) + multiset{x};
    }
  }
}
