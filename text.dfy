/** The few JavaScript string operations the components use when they
    display a record: `slice`, `replace` with a one-character pattern,
    `toUpperCase`, and the `s || ''` fallback. */
module Text {
  import opened Common

  /** `s.slice(0, n)`: the first `n` characters, or all of `s` when it is shorter. */
  function Slice(s: string, n: nat): (r: string)
    ensures |r| == if |s| < n then |s| else n
    ensures r <= s
  {
    if |s| <= n then s else s[..n]
  }

  /** Position of the first `c` in `s`, or `|s|` when there is none. */
  function FirstIndex(s: string, c: char): (i: nat)
    ensures i <= |s|
    ensures forall k :: 0 <= k < i ==> s[k] != c
    ensures i < |s| ==> s[i] == c
    ensures i == |s| <==> c !in s
  {
    if s == [] then 0
    else if s[0] == c then 0
    else FirstIndex(s[1..], c) + 1
  }

  /** `s.replace(c, d)` for one-character strings: JavaScript replaces only
      the first occurrence of a string pattern. */
  function ReplaceFirst(s: string, c: char, d: char): (r: string)
    ensures |r| == |s|
    ensures forall k :: 0 <= k < |s| ==> r[k] == if k == FirstIndex(s, c) then d else s[k]
  {
    if s == [] then []
    else if s[0] == c then [d] + s[1..]
    else [s[0]] + ReplaceFirst(s[1..], c, d)
  }

  /** In `a + [c] + b` with no `c` in `a`, the first `c` is the one after `a`. */
  lemma FirstIndexSplit(a: string, c: char, b: string)
    requires c !in a
    ensures FirstIndex(a + [c] + b, c) == |a|
  {
    var s := a + [c] + b;
    assert s[|a|] == c;
    assert forall k :: 0 <= k < |a| ==> s[k] == a[k];
  }

  /** Replacing the first `c` touches only that one character: the text
      before it, which holds no `c`, and everything after it are kept. */
  lemma ReplaceFirstSplit(a: string, c: char, b: string, d: char)
    requires c !in a
    ensures ReplaceFirst(a + [c] + b, c, d) == a + [d] + b
  {
    var s, e := a + [c] + b, a + [d] + b;
    FirstIndexSplit(a, c, b);
    var r := ReplaceFirst(s, c, d);
    forall k | 0 <= k < |s|
      ensures r[k] == e[k]
    {
      if k < |a| {
        assert s[k] == a[k] == e[k];
      } else if k > |a| {
        assert s[k] == b[k - |a| - 1] == e[k];
      }
    }
  }

  /** `c` occurs at most once in `s`. */
  predicate AtMostOnce(s: string, c: char) {
    forall i, j :: 0 <= i < j < |s| && s[i] == c ==> s[j] != c
  }

  /** When `c` occurs at most once, replacing the first `c` replaces every `c`. */
  lemma ReplaceFirstReplacesAll(s: string, c: char, d: char)
    requires AtMostOnce(s, c)
    ensures forall k :: 0 <= k < |s| ==> ReplaceFirst(s, c, d)[k] == if s[k] == c then d else s[k]
  {
    var i := FirstIndex(s, c);
    forall k | 0 <= k < |s| && s[k] == c
      ensures k == i
    {
      assert i < |s|;
    }
  }

  /** Upper case of one character, for the ASCII letters. */
  function UpperChar(ch: char): (u: char)
    ensures 'a' <= ch <= 'z' ==> 'A' <= u <= 'Z' && u as int == ch as int - 32
    ensures !('a' <= ch <= 'z') ==> u == ch
  {
    if 'a' <= ch <= 'z' then (ch as int - 32) as char else ch
  }

  /** `s.toUpperCase()`, character by character. */
  function ToUpper(s: string): (r: string)
    ensures |r| == |s|
    ensures forall k :: 0 <= k < |s| ==> r[k] == UpperChar(s[k])
  {
    if s == [] then [] else [UpperChar(s[0])] + ToUpper(s[1..])
  }

  /** `o || ''` for an optional string: the value when it is present and not
      empty (JavaScript treats `''` as false), otherwise the empty string. */
  function OrEmpty(o: Option<string>): (r: string)
    ensures o.Some? && o.value != "" ==> r == o.value
    ensures o.None? || o.value == "" ==> r == ""
  {
    if o.Some? then o.value else ""
  }
}
