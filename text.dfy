/** The string operations the application uses from JavaScript:
    `toLowerCase` (ASCII letters only), `includes`, `startsWith` and `trim`. */
module Text {

  predicate IsUpper(c: char) { 'A' <= c <= 'Z' }

  predicate IsLower(c: char) { 'a' <= c <= 'z' }

  predicate IsDigit(c: char) { '0' <= c <= '9' }

  function LowerChar(c: char): (r: char)
    ensures !IsUpper(r)
    ensures IsUpper(c) ==> IsLower(r) && r as int == c as int + 32
    ensures !IsUpper(c) ==> r == c
  {
    if IsUpper(c) then (c as int + 32) as char else c
  }

  /** `s.toLowerCase()` restricted to ASCII letters. */
  function Lower(s: string): (r: string)
    ensures |r| == |s|
    ensures forall i :: 0 <= i < |s| ==> r[i] == LowerChar(s[i])
    ensures forall i :: 0 <= i < |r| ==> !IsUpper(r[i])
  {
    seq(|s|, i requires 0 <= i < |s| => LowerChar(s[i]))
  }

  /** `hay.includes(needle)`: `needle` occurs in `hay` at some offset. */
  predicate Includes(hay: string, needle: string) {
    exists k :: 0 <= k <= |hay| && OccursAt(hay, needle, k)
  }

  predicate OccursAt(hay: string, needle: string, k: int) {
    0 <= k <= |hay| - |needle| && hay[k..k + |needle|] == needle
  }

  /** Every string includes the empty string. */
  lemma IncludesEmpty(hay: string)
    ensures Includes(hay, "")
  {
    assert OccursAt(hay, "", 0);
  }

  /** A needle whose first character is nowhere in `hay` does not occur in it. */
  lemma FirstCharMissing(hay: string, needle: string)
    requires needle != [] && needle[0] !in hay
    ensures !Includes(hay, needle)
  {
    forall k | 0 <= k <= |hay| ensures !OccursAt(hay, needle, k) {
      if k < |hay| {
        assert hay[k] in hay;
      }
      if k + |needle| <= |hay| {
        assert hay[k..k + |needle|][0] == hay[k];
      }
    }
  }

  /** Case-insensitive `includes` as the search boxes use it:
      `hay.toLowerCase().includes(needle.toLowerCase())`. */
  predicate IncludesIgnoringCase(hay: string, needle: string) {
    Includes(Lower(hay), Lower(needle))
  }

  /** `Lower` changes nothing once applied. */
  lemma LowerIdempotent(s: string)
    ensures Lower(Lower(s)) == Lower(s)
  {
    assert forall i :: 0 <= i < |s| ==> LowerChar(LowerChar(s[i])) == LowerChar(s[i]);
  }

  /** `s.split(sep).pop()`: the text after the last `sep`, or all of `s`
      when `sep` does not occur in it. */
  function LastSegment(s: string, sep: char): (r: string)
    ensures |r| <= |s| && r == s[|s| - |r|..]
    ensures sep !in r
    ensures |r| < |s| ==> s[|s| - |r| - 1] == sep
  {
    if s == [] || s[|s| - 1] == sep then []
    else
      var front := LastSegment(s[..|s| - 1], sep);
      assert s[..|s| - 1][|s| - 1 - |front|..] == s[|s| - 1 - |front|..|s| - 1];
      front + [s[|s| - 1]]
  }

  /** Joining a tail free of `sep` on with `sep` makes it the last segment. */
  lemma {:induction false} LastSegmentOfJoin(stem: string, sep: char, tail: string)
    requires sep !in tail
    ensures LastSegment(stem + [sep] + tail, sep) == tail
  {
    var s := stem + [sep] + tail;
    if tail != [] {
      var front := tail[..|tail| - 1];
      assert s[..|s| - 1] == stem + [sep] + front;
      assert s[|s| - 1] == tail[|tail| - 1];
      LastSegmentOfJoin(stem, sep, front);
      assert tail == front + [tail[|tail| - 1]];
    }
  }

  /** `s.startsWith(prefix)`. */
  predicate StartsWith(s: string, prefix: string) {
    |prefix| <= |s| && s[..|prefix|] == prefix
  }

  /** The characters `String.prototype.trim` removes: the ECMAScript
      WhiteSpace and LineTerminator code points. */
  predicate IsTrimmable(c: char) {
    c == '\t' || c == '\n' || c == '\U{000B}' || c == '\U{000C}' || c == '\r' || c == ' '
    || c == '\U{00A0}' || c == '\U{1680}' || ('\U{2000}' <= c <= '\U{200A}')
    || c == '\U{2028}' || c == '\U{2029}' || c == '\U{202F}' || c == '\U{205F}'
    || c == '\U{3000}' || c == '\U{FEFF}'
  }

  function TrimStart(s: string): (r: string)
    ensures |r| <= |s| && r == s[|s| - |r|..]
    ensures forall i :: 0 <= i < |s| - |r| ==> IsTrimmable(s[i])
    ensures r == [] || !IsTrimmable(r[0])
  {
    if s != [] && IsTrimmable(s[0]) then TrimStart(s[1..]) else s
  }

  function TrimEnd(s: string): (r: string)
    ensures |r| <= |s| && r == s[..|r|]
    ensures forall i :: |r| <= i < |s| ==> IsTrimmable(s[i])
    ensures r == [] || !IsTrimmable(r[|r| - 1])
  {
    if s != [] && IsTrimmable(s[|s| - 1]) then TrimEnd(s[..|s| - 1]) else s
  }

  /** `s.trim()`: the slice `s[lo..hi]` left once the whitespace on both ends
      is removed. */
  function Trim(s: string): (r: string)
    ensures exists lo, hi ::
      (&& 0 <= lo <= hi <= |s| && r == s[lo..hi]
       && (forall i :: 0 <= i < lo ==> IsTrimmable(s[i]))
       && (forall i :: hi <= i < |s| ==> IsTrimmable(s[i])))
    ensures r == [] || (!IsTrimmable(r[0]) && !IsTrimmable(r[|r| - 1]))
  {
    var t := TrimStart(s);
    var r := TrimEnd(t);
    assert r == s[|s| - |t|..|s| - |t| + |r|];
    r
  }

  /** A string is blank (its trim is empty, so `if (s.trim())` fails) exactly
      when every character in it is whitespace. */
  lemma BlankIffAllWhitespace(s: string)
    ensures Trim(s) == "" <==> forall i :: 0 <= i < |s| ==> IsTrimmable(s[i])
  {
  }

  /** Trimming twice is trimming once. */
  lemma TrimIdempotent(s: string)
    ensures Trim(Trim(s)) == Trim(s)
  {
    var r := Trim(s);
    if r != [] {
      assert TrimStart(r) == r;
      assert TrimEnd(r) == r;
    }
  }
}
