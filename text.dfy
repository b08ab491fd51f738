/** The handful of Python string operations the statement generator relies on:
    `str.join`, `str.strip()` (whitespace on both ends), `str.rstrip(chars)`
    and `str.startswith`. Strings are sequences of characters. */
module Text {

  /** Python's `s.startswith(prefix)`. */
  predicate StartsWith(s: string, prefix: string) {
    |prefix| <= |s| && s[..|prefix|] == prefix
  }

  /** Python's `s.endswith(suffix)`. */
  predicate EndsWith(s: string, suffix: string) {
    |suffix| <= |s| && s[|s| - |suffix|..] == suffix
  }

  /** The pieces of `a + b + c` can be read back by position. */
  lemma ConcatParts(a: string, b: string, c: string)
    ensures StartsWith(a + b + c, a) && EndsWith(a + b + c, c)
    ensures (a + b + c)[|a|..|a + b + c| - |c|] == b
  {
    var s := a + b + c;
    assert s[..|a|] == a;
    assert s[|s| - |c|..] == c;
    assert s[|a|..|s| - |c|] == b;
  }

  /** `head + body + [c]` ends in exactly one `c` when neither the head's
      last character nor the body's (if any) is `c`. */
  lemma EndsInExactlyOne(head: string, body: string, c: char)
    requires head != [] && head[|head| - 1] != c
    requires body == [] || body[|body| - 1] != c
    ensures var s := head + body + [c]; s[|s| - 1] == c && s[|s| - 2] != c
  {
    var s := head + body + [c];
    if body == [] {
      assert s == head + [c];
    } else {
      assert s[|s| - 2] == body[|body| - 1];
    }
  }

  /** The last character of `a + b`. */
  lemma LastOfAppend(a: string, b: string)
    requires a != []
    ensures (a + b)[|a + b| - 1] == if b == [] then a[|a| - 1] else b[|b| - 1]
  {
  }

  /** Total number of characters in `parts`. */
  function TotalLength(parts: seq<string>): nat {
    if |parts| == 0 then 0 else |parts[0]| + TotalLength(parts[1..])
  }

  /** Python's `sep.join(parts)`: the parts in order with `sep` between each
      neighbouring pair, and nothing for an empty list. */
  function Join(sep: string, parts: seq<string>): string {
    if |parts| == 0 then ""
    else if |parts| == 1 then parts[0]
    else parts[0] + sep + Join(sep, parts[1..])
  }

  /** The joined text is as long as all the parts plus one separator
      between each neighbouring pair; it starts with the first part and ends
      with the last. */
  lemma {:induction false} JoinShape(sep: string, parts: seq<string>)
    ensures |parts| == 0 ==> Join(sep, parts) == []
    ensures |parts| > 0 ==> |Join(sep, parts)| == TotalLength(parts) + |sep| * (|parts| - 1)
    ensures |parts| > 0 ==> StartsWith(Join(sep, parts), parts[0]) && EndsWith(Join(sep, parts), parts[|parts| - 1])
  {
    if |parts| > 0 {
      JoinLength(sep, parts);
      JoinEnds(sep, parts);
    }
  }

  lemma {:induction false} JoinLength(sep: string, parts: seq<string>)
    requires |parts| > 0
    ensures |Join(sep, parts)| == TotalLength(parts) + |sep| * (|parts| - 1)
  {
    if |parts| == 1 {
      assert TotalLength(parts) == |parts[0]| + TotalLength([]);
    } else {
      JoinLength(sep, parts[1..]);
      assert TotalLength(parts) == |parts[0]| + TotalLength(parts[1..]);
      assert |sep| * (|parts| - 1) == |sep| * (|parts| - 2) + |sep|;
    }
  }

  lemma {:induction false} JoinEnds(sep: string, parts: seq<string>)
    requires |parts| > 0
    ensures StartsWith(Join(sep, parts), parts[0]) && EndsWith(Join(sep, parts), parts[|parts| - 1])
  {
    if |parts| > 1 {
      JoinEnds(sep, parts[1..]);
      var rest := Join(sep, parts[1..]);
      var last := parts[|parts| - 1];
      assert parts[1..][|parts[1..]| - 1] == last;
      ConcatParts(parts[0], sep, rest);
      var whole := parts[0] + sep + rest;
      assert Join(sep, parts) == whole;
      assert whole[|whole| - |last|..] == rest[|rest| - |last|..];
    }
  }

  /** Appending one more part to a non-empty list appends the separator and
      that part to the joined text, so the parts keep their order. */
  lemma {:induction false} JoinSnoc(sep: string, parts: seq<string>, last: string)
    requires |parts| > 0
    ensures Join(sep, parts + [last]) == Join(sep, parts) + sep + last
  {
    if |parts| == 1 {
      assert parts + [last] == [parts[0], last];
      assert (parts + [last])[1..] == [last];
    } else {
      assert (parts + [last])[1..] == parts[1..] + [last];
      JoinSnoc(sep, parts[1..], last);
    }
  }

  /** The characters Python's `str.isspace()` accepts, which `str.strip()`
      with no argument removes: tab to carriage return, the four information
      separators, space, NEL, NBSP and the Unicode space separators. */
  predicate IsSpace(c: char) {
    ('\t' <= c <= '\r') || ('\U{1c}' <= c <= ' ')
    || c == '\U{85}' || c == '\U{a0}' || c == '\U{1680}'
    || ('\U{2000}' <= c <= '\U{200a}') || c == '\U{2028}' || c == '\U{2029}'
    || c == '\U{202f}' || c == '\U{205f}' || c == '\U{3000}'
  }

  /** Removes the longest prefix of `s` whose characters all satisfy `p`. */
  function TrimStart(s: string, p: char -> bool): (r: string)
    ensures |r| <= |s| && r == s[|s| - |r|..]
    ensures forall k :: 0 <= k < |s| - |r| ==> p(s[k])
    ensures r == [] || !p(r[0])
  {
    if |s| > 0 && p(s[0]) then TrimStart(s[1..], p) else s
  }

  /** Removes the longest suffix of `s` whose characters all satisfy `p`
      (Python's `s.rstrip(chars)` with `p` testing membership in `chars`). */
  function TrimEnd(s: string, p: char -> bool): (r: string)
    ensures |r| <= |s| && r == s[..|r|]
    ensures forall k :: |r| <= k < |s| ==> p(s[k])
    ensures r == [] || !p(r[|r| - 1])
  {
    if |s| > 0 && p(s[|s| - 1]) then TrimEnd(s[..|s| - 1], p) else s
  }

  /** Texts whose first (last) character is kept are left alone by
      TrimStart (TrimEnd). */
  lemma TrimKeeps(s: string, p: char -> bool)
    ensures s != [] && !p(s[0]) ==> TrimStart(s, p) == s
    ensures s != [] && !p(s[|s| - 1]) ==> TrimEnd(s, p) == s
  {
  }

  /** A text that already starts with a kept character is left alone by
      TrimStart even when more text follows. */
  lemma {:induction false} TrimStartOfAppend(s: string, tail: string, p: char -> bool)
    requires s != [] && !p(s[|s| - 1])
    ensures TrimStart(s + tail, p) == TrimStart(s, p) + tail
  {
    if p(s[0]) {
      assert (s + tail)[1..] == s[1..] + tail;
      TrimStartOfAppend(s[1..], tail, p);
    }
  }

  /** Trimming both ends of `s + tail`, where neither the last character of
      `s` nor that of `tail` is trimmed, only trims the start of `s`. */
  lemma TrimBothOfAppend(s: string, tail: string, p: char -> bool)
    requires s != [] && !p(s[|s| - 1])
    requires tail == [] || !p(tail[|tail| - 1])
    ensures TrimEnd(TrimStart(s + tail, p), p) == TrimStart(s, p) + tail
  {
    TrimStartOfAppend(s, tail, p);
    var lead := TrimStart(s, p);
    assert lead != [] && lead[|lead| - 1] == s[|s| - 1];
    LastOfAppend(lead, tail);
  }

  /** `r` occurs in `s` at offset `i`, and every character of `s` before
      and after that occurrence satisfies `p`. */
  predicate PieceBetween(s: string, i: int, r: string, p: char -> bool) {
    0 <= i <= |s| - |r| && r == s[i..i + |r|]
    && (forall k :: 0 <= k < i ==> p(s[k]))
    && (forall k :: i + |r| <= k < |s| ==> p(s[k]))
  }

  /** Cutting a prefix of characters satisfying `p` off `s`, and then a
      suffix of such characters off what remains, leaves a piece between. */
  lemma {:induction false} PieceOfCuts(s: string, i: int, lead: string, r: string, p: char -> bool)
    requires 0 <= i <= |s| && lead == s[i..] && forall k :: 0 <= k < i ==> p(s[k])
    requires |r| <= |lead| && r == lead[..|r|] && forall k :: |r| <= k < |lead| ==> p(lead[k])
    ensures PieceBetween(s, i, r, p)
  {
    assert r == s[i..i + |r|];
    forall k | i + |r| <= k < |s| ensures p(s[k]) {
      assert s[k] == lead[k - i];
    }
  }

  /** Trimming both ends leaves the piece of `s` that follows the removed
      prefix. */
  lemma {:induction false} TrimBothIsPiece(s: string, p: char -> bool)
    ensures PieceBetween(s, |s| - |TrimStart(s, p)|, TrimEnd(TrimStart(s, p), p), p)
  {
    var lead := TrimStart(s, p);
    PieceOfCuts(s, |s| - |lead|, lead, TrimEnd(lead, p), p);
  }

  /** Trimming both ends leaves nothing exactly when every character of `s`
      satisfies `p`; otherwise neither end of what is left does. */
  lemma {:induction false} TrimBothEnds(s: string, p: char -> bool)
    ensures var r := TrimEnd(TrimStart(s, p), p);
            (r == [] <==> forall k :: 0 <= k < |s| ==> p(s[k]))
            && (r != [] ==> !p(r[0]) && !p(r[|r| - 1]))
  {
    var lead := TrimStart(s, p);
    var r := TrimEnd(lead, p);
    if r == [] {
      // `lead` cannot start with a kept character that TrimEnd then removes.
      assert lead == [];
    }
  }

  /** Python's `s.strip()`: the text between the leading and the trailing
      whitespace. It is a contiguous piece of `s` with only whitespace before
      and after it, it neither starts nor ends with whitespace, and it is
      empty exactly when `s` is all whitespace. */
  function Strip(s: string): (r: string)
    ensures exists i :: PieceBetween(s, i, r, IsSpace)
    ensures r == [] <==> forall k :: 0 <= k < |s| ==> IsSpace(s[k])
    ensures r != [] ==> !IsSpace(r[0]) && !IsSpace(r[|r| - 1])
  {
    TrimBothIsPiece(s, IsSpace);
    TrimBothEnds(s, IsSpace);
    TrimEnd(TrimStart(s, IsSpace), IsSpace)
  }

  /** A character that `p` removes, added at the end, disappears again. */
  lemma TrimEndAbsorbs(s: string, p: char -> bool, c: char)
    requires p(c)
    ensures TrimEnd(s + [c], p) == TrimEnd(s, p)
  {
    assert (s + [c])[..|s + [c]| - 1] == s;
  }
}
