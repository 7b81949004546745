/** The few Python `str` operations the bot relies on, stated over Dafny's
    `string` (a sequence of Unicode scalar values, as a Python `str` is a
    sequence of code points). */
module Strings {
  import opened Wrappers

  // ---------------------------------------------------------------------------
  // Case folding (`str.lower()` and the regex's IGNORECASE flag)
  // ---------------------------------------------------------------------------

  /** Lower-cases one code point: the Latin letters A-Z and the Cyrillic
      capitals U+0400..U+042F and U+0490 (Ґ), which covers every letter of the
      Ukrainian and Russian alphabets; every other code point is kept. */
  function LowerChar(c: char): char {
    if 'A' <= c <= 'Z' then (c as int + 32) as char
    else if '\U{0410}' <= c <= '\U{042F}' then (c as int + 32) as char
    else if '\U{0400}' <= c <= '\U{040F}' then (c as int + 80) as char
    else if c == '\U{0490}' then '\U{0491}'
    else c
  }

  function Lower(s: string): (r: string)
    ensures |r| == |s|
    ensures forall i :: 0 <= i < |s| ==> r[i] == LowerChar(s[i])
  {
    seq(|s|, i requires 0 <= i < |s| => LowerChar(s[i]))
  }

  predicate IsLower(s: string) {
    forall i :: 0 <= i < |s| ==> LowerChar(s[i]) == s[i]
  }

  /** Lower-casing yields a lower-case string, so a second application changes
      nothing. */
  lemma LowerIsLower(s: string)
    ensures IsLower(Lower(s))
    ensures Lower(Lower(s)) == Lower(s)
  {
    forall i | 0 <= i < |s|
      ensures LowerChar(LowerChar(s[i])) == LowerChar(s[i])
    {
      var c := s[i];
      if 'A' <= c <= 'Z' {
      } else if '\U{0410}' <= c <= '\U{042F}' {
      } else if '\U{0400}' <= c <= '\U{040F}' {
      }
    }
  }

  lemma LowerOfLower(s: string)
    requires IsLower(s)
    ensures Lower(s) == s
  {
  }

  lemma LowerAppend(a: string, b: string)
    ensures Lower(a + b) == Lower(a) + Lower(b)
  {
    assert forall i :: 0 <= i < |a| + |b| ==> Lower(a + b)[i] == (Lower(a) + Lower(b))[i];
  }

  // ---------------------------------------------------------------------------
  // Substrings, prefixes and suffixes (`in`, `startswith`, `endswith`)
  // ---------------------------------------------------------------------------

  /** `needle` occurs in `hay` starting at index `i`. */
  ghost predicate OccursAt(hay: string, needle: string, i: int) {
    0 <= i && i + |needle| <= |hay| && hay[i..i + |needle|] == needle
  }

  /** Python's `needle in hay` for strings. */
  ghost predicate IsSubstring(needle: string, hay: string) {
    exists i :: OccursAt(hay, needle, i)
  }

  function StartsWith(s: string, prefix: string): (r: bool)
    ensures r <==> OccursAt(s, prefix, 0)
  {
    |prefix| <= |s| && s[..|prefix|] == prefix
  }

  predicate EndsWith(s: string, suffix: string) {
    |suffix| <= |s| && s[|s| - |suffix|..] == suffix
  }

  /** A concatenation starts with its first part and ends with its second. */
  lemma Affixes(a: string, b: string)
    ensures StartsWith(a + b, a) && EndsWith(a + b, b)
  {
    assert (a + b)[..|a|] == a;
    assert (a + b)[|a|..] == b;
  }

  /** An occurrence in the tail of `hay` is an occurrence in `hay` one
      position later. */
  lemma ShiftOccurrence(hay: string, needle: string)
    requires |hay| > 0
    ensures forall i :: 1 <= i ==> (OccursAt(hay, needle, i) <==> OccursAt(hay[1..], needle, i - 1))
  {
    forall i | 1 <= i
      ensures OccursAt(hay, needle, i) <==> OccursAt(hay[1..], needle, i - 1)
    {
      if i + |needle| <= |hay| {
        assert hay[1..][i - 1..i - 1 + |needle|] == hay[i..i + |needle|];
      }
    }
  }

  /** Substring search by scanning start positions: true exactly when
      `needle` occurs somewhere in `hay` (the empty needle occurs in every
      string, as in Python). */
  function Contains(hay: string, needle: string): (r: bool)
    ensures r <==> IsSubstring(needle, hay)
    decreases |hay|
  {
    if StartsWith(hay, needle) then true
    else if |hay| == 0 then false
    else
      ShiftOccurrence(hay, needle);
      var r := Contains(hay[1..], needle);
      assert r ==> IsSubstring(needle, hay) by {
        if r {
          var i :| OccursAt(hay[1..], needle, i);
          assert OccursAt(hay, needle, i + 1);
        }
      }
      assert IsSubstring(needle, hay) ==> r by {
        if IsSubstring(needle, hay) {
          var i :| OccursAt(hay, needle, i);
          assert i != 0;
          assert OccursAt(hay[1..], needle, i - 1);
        }
      }
      r
  }

  /** A substring of a part of a string is a substring of the whole. */
  lemma SubstringOfConcat(needle: string, a: string, b: string)
    ensures IsSubstring(needle, a) ==> IsSubstring(needle, a + b)
    ensures IsSubstring(needle, b) ==> IsSubstring(needle, a + b)
  {
    if IsSubstring(needle, a) {
      var i :| OccursAt(a, needle, i);
      assert (a + b)[i..i + |needle|] == a[i..i + |needle|];
      assert OccursAt(a + b, needle, i);
    }
    if IsSubstring(needle, b) {
      var i :| OccursAt(b, needle, i);
      assert (a + b)[|a| + i..|a| + i + |needle|] == b[i..i + |needle|];
      assert OccursAt(a + b, needle, |a| + i);
    }
  }

  // ---------------------------------------------------------------------------
  // Slicing, stripping, joining and splitting
  // ---------------------------------------------------------------------------

  /** Python's `s[:n]`, including its reading of a negative `n` as "all but
      the last -n characters". */
  function PyPrefix(s: string, n: int): (r: string)
    ensures |r| <= |s| && r == s[..|r|]
    ensures n >= 0 ==> |r| == if n <= |s| then n else |s|
    ensures n < 0 ==> |r| == if |s| + n >= 0 then |s| + n else 0
  {
    if n >= 0 then (if n <= |s| then s[..n] else s)
    else if |s| + n >= 0 then s[..|s| + n]
    else ""
  }

  /** Python's `s.rstrip(c)` for a single character `c`: the longest prefix
      of `s` that does not end in `c`, where everything cut off is `c`. */
  function StripTrailing(s: string, c: char): (r: string)
    ensures |r| <= |s| && r == s[..|r|]
    ensures r == [] || r[|r| - 1] != c
    ensures forall k :: |r| <= k < |s| ==> s[k] == c
    decreases |s|
  {
    if |s| > 0 && s[|s| - 1] == c then StripTrailing(s[..|s| - 1], c) else s
  }

  /** Python's `sep.join(parts)`. */
  function Join(parts: seq<string>, sep: string): string
    decreases |parts|
  {
    if |parts| == 0 then ""
    else if |parts| == 1 then parts[0]
    else parts[0] + sep + Join(parts[1..], sep)
  }

  /** Joining one more part appends the separator and that part. */
  lemma {:induction false} JoinSnoc(parts: seq<string>, last: string, sep: string)
    ensures Join(parts + [last], sep) == if parts == [] then last else Join(parts, sep) + sep + last
    decreases |parts|
  {
    if |parts| == 1 {
      assert (parts + [last])[1..] == [last];
    } else if |parts| > 1 {
      assert (parts + [last])[1..] == parts[1..] + [last];
      JoinSnoc(parts[1..], last, sep);
    }
  }

  /** Index of the first `c` in `s`, or `|s|` when there is none. */
  function IndexOf(s: string, c: char): (k: nat)
    ensures k <= |s|
    ensures c !in s[..k]
    ensures k < |s| ==> s[k] == c
    decreases |s|
  {
    if |s| == 0 then 0
    else if s[0] == c then 0
    else
      var k := IndexOf(s[1..], c);
      assert s[1..][..k] == s[1..k + 1];
      assert s[..k + 1] == [s[0]] + s[1..][..k];
      1 + k
  }

  /** Python's `s.split(c, 1)` when `c in s`: the text before the first `c`
      and everything after it; None when `c` does not occur. */
  function SplitFirst(s: string, c: char): (r: Option<(string, string)>)
    ensures r.None? <==> c !in s
    ensures r.Some? ==> r.value.0 + [c] + r.value.1 == s && c !in r.value.0
  {
    var k := IndexOf(s, c);
    if k == |s| then
      assert s[..k] == s;
      None
    else
      assert s[..k] + [c] + s[k + 1..] == s;
      Some((s[..k], s[k + 1..]))
  }

  /** Splitting `head + [c] + tail` on its first `c` gives back both parts
      when `head` holds no `c`. */
  lemma SplitFirstOfJoined(head: string, c: char, tail: string)
    requires c !in head
    ensures SplitFirst(head + [c] + tail, c) == Some((head, tail))
  {
    var s := head + [c] + tail;
    var k := IndexOf(s, c);
    assert forall j :: 0 <= j < |head| ==> s[j] == head[j];
    assert s[|head|] == c;
    assert s[..k] == head[..k] || k > |head|;
    assert k == |head|;
    assert s[..k] == head && s[k + 1..] == tail;
  }
}
