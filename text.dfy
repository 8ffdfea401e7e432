/**
 * The few Python string operations the core relies on: `sep.join(parts)`,
 * the `in` substring test, single-character `str.replace` and `str.rfind`.
 */
module Text {

  /** Python's `sep.join(parts)`. */
  function Join(sep: string, parts: seq<string>): string
    decreases |parts|
  {
    if |parts| == 0 then ""
    else if |parts| == 1 then parts[0]
    else parts[0] + sep + Join(sep, parts[1..])
  }

  /** `needle` occurs in `hay` starting at position `i`. */
  predicate OccursAt(needle: string, hay: string, i: int) {
    0 <= i <= |hay| - |needle| && hay[i..i + |needle|] == needle
  }

  /** Python's `needle in hay` on strings. */
  predicate IsSubstring(needle: string, hay: string) {
    exists i :: 0 <= i <= |hay| && OccursAt(needle, hay, i)
  }

  /** Joining one more part puts the separator and that part at the end. */
  lemma {:induction false} JoinSnoc(sep: string, parts: seq<string>, x: string)
    requires |parts| > 0
    ensures Join(sep, parts + [x]) == Join(sep, parts) + sep + x
    decreases |parts|
  {
    if |parts| == 1 {
      assert (parts + [x])[1..] == [x];
    } else {
      assert (parts + [x])[1..] == parts[1..] + [x];
      JoinSnoc(sep, parts[1..], x);
    }
  }

  /** A string occurs in any string that has it as a middle piece. */
  lemma SubstringOfConcat(pre: string, needle: string, post: string)
    ensures IsSubstring(needle, pre + needle + post)
  {
    var hay := pre + needle + post;
    assert hay[|pre|..|pre| + |needle|] == needle;
    assert OccursAt(needle, hay, |pre|);
  }

  /** An occurrence survives adding text on either side. */
  lemma SubstringWiden(needle: string, pre: string, mid: string, post: string)
    requires IsSubstring(needle, mid)
    ensures IsSubstring(needle, pre + mid + post)
  {
    var i :| 0 <= i <= |mid| && OccursAt(needle, mid, i);
    var hay := pre + mid + post;
    assert hay[|pre| + i..|pre| + i + |needle|] == mid[i..i + |needle|];
    assert OccursAt(needle, hay, |pre| + i);
  }

  /** Every part occurs in the joined string. */
  lemma {:induction false} PartInJoin(sep: string, parts: seq<string>, k: nat)
    requires k < |parts|
    ensures IsSubstring(parts[k], Join(sep, parts))
    decreases |parts|
  {
    if |parts| == 1 {
      SubstringOfConcat("", parts[0], "");
      assert "" + parts[0] + "" == parts[0];
    } else if k == 0 {
      SubstringOfConcat("", parts[0], sep + Join(sep, parts[1..]));
      assert "" + parts[0] + (sep + Join(sep, parts[1..])) == Join(sep, parts);
    } else {
      PartInJoin(sep, parts[1..], k - 1);
      SubstringWiden(parts[k], parts[0] + sep, Join(sep, parts[1..]), "");
      assert parts[0] + sep + Join(sep, parts[1..]) + "" == Join(sep, parts);
    }
  }

  /** Python's `s.replace(a, b)` for one-character `a` and `b`. */
  function ReplaceChar(s: string, a: char, b: char): (r: string)
    ensures |r| == |s|
    ensures forall i :: 0 <= i < |s| ==> r[i] == (if s[i] == a then b else s[i])
  {
    if |s| == 0 then "" else [if s[0] == a then b else s[0]] + ReplaceChar(s[1..], a, b)
  }

  /** Python's `s.replace(a, '')`: every occurrence of `a` removed, the rest kept in order. */
  function RemoveChar(s: string, a: char): string
  {
    if |s| == 0 then "" else (if s[0] == a then "" else [s[0]]) + RemoveChar(s[1..], a)
  }

  /** Number of occurrences of `a` in `s` (Python's `s.count(a)`). */
  function Count(s: string, a: char): nat
  {
    if |s| == 0 then 0 else (if s[0] == a then 1 else 0) + Count(s[1..], a)
  }

  /** Python's `s.rfind(c)`: the last position of `c`, or -1. */
  function LastIndexOf(s: string, c: char): (r: int)
    ensures -1 <= r < |s|
    ensures r == -1 <==> c !in s
    ensures r >= 0 ==> s[r] == c && forall j :: r < j < |s| ==> s[j] != c
    decreases |s|
  {
    if |s| == 0 then -1
    else if s[|s| - 1] == c then |s| - 1
    else LastIndexOf(s[..|s| - 1], c)
  }

  /** `rfind` finds a position exactly when `c` sits there and nowhere after it. */
  lemma LastIndexOfAt(s: string, c: char, i: nat)
    requires i < |s| && s[i] == c
    requires forall j :: i < j < |s| ==> s[j] != c
    ensures LastIndexOf(s, c) == i
  {
    assert c in s;
  }
}
