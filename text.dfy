/** The two string operations the quiz controller relies on: Python's `str.strip()`
    (strip whitespace at both ends) and `str.split(sep)` with a one-character
    separator, together with the inverse of the split (`Join`). */
module Text {

  /** The characters Python's `str.isspace` accepts, i.e. what `str.strip()` removes. */
  predicate IsSpace(c: char) {
    ('\U{9}' <= c <= '\U{D}') || ('\U{1C}' <= c <= '\U{20}') ||
    c == '\U{85}' || c == '\U{A0}' || c == '\U{1680}' || ('\U{2000}' <= c <= '\U{200A}') ||
    c == '\U{2028}' || c == '\U{2029}' || c == '\U{202F}' || c == '\U{205F}' || c == '\U{3000}'
  }

  /** Neither end of `s` is a character of the class that is stripped. */
  predicate Trimmed(s: string, strip: char -> bool) {
    s == [] || (!strip(s[0]) && !strip(s[|s| - 1]))
  }

  /** `r` occurs in `s` at position `i`, and everything before and after it is in the class. */
  predicate CutAt(s: string, r: string, i: int, strip: char -> bool) {
    0 <= i <= |s| - |r| && r == s[i..i + |r|] &&
    (forall k :: 0 <= k < i ==> strip(s[k])) &&
    (forall k :: i + |r| <= k < |s| ==> strip(s[k]))
  }

  /** `r` is `s` with a run of class characters cut from each end. */
  predicate StripsTo(s: string, r: string, strip: char -> bool) {
    exists i :: 0 <= i <= |s| && CutAt(s, r, i, strip)
  }

  /** The length of the run of class characters that `s` starts with. */
  function LeadCount(s: string, strip: char -> bool): (n: nat)
    ensures n <= |s|
    ensures forall i :: 0 <= i < n ==> strip(s[i])
    ensures n < |s| ==> !strip(s[n])
  {
    if s != [] && strip(s[0]) then 1 + LeadCount(s[1..], strip) else 0
  }

  /** The length of the run of class characters that `s` ends with. */
  function TrailCount(s: string, strip: char -> bool): (n: nat)
    ensures n <= |s|
    ensures forall i :: |s| - n <= i < |s| ==> strip(s[i])
    ensures n < |s| ==> !strip(s[|s| - 1 - n])
  {
    if s != [] && strip(s[|s| - 1]) then 1 + TrailCount(s[..|s| - 1], strip) else 0
  }

  /** Python's `s.strip(chars)`: `s` with the runs of class characters at both ends
      removed; empty when `s` has nothing else. */
  function StripChars(s: string, strip: char -> bool): (r: string)
    ensures Trimmed(r, strip) && |r| <= |s|
    ensures StripsTo(s, r, strip)
    ensures r == [] <==> forall i :: 0 <= i < |s| ==> strip(s[i])
  {
    var lead := LeadCount(s, strip);
    if lead == |s| then
      assert CutAt(s, [], |s|, strip);
      []
    else
      var trail := TrailCount(s, strip);
      assert lead < |s| - trail;
      var r := s[lead..|s| - trail];
      assert CutAt(s, r, lead, strip);
      r
  }

  /** Python's `s.strip()`: `s` without its leading and trailing whitespace. */
  function Strip(s: string): (r: string)
    ensures Trimmed(r, IsSpace) && StripsTo(s, r, IsSpace) && |r| <= |s|
  {
    StripChars(s, IsSpace)
  }

  /** A cut of `s` with neither end in the class is unique: `StripsTo` and `Trimmed`
      together determine the result of stripping. */
  lemma StripUnique(s: string, r1: string, r2: string, strip: char -> bool)
    requires StripsTo(s, r1, strip) && Trimmed(r1, strip)
    requires StripsTo(s, r2, strip) && Trimmed(r2, strip)
    ensures r1 == r2
  {
    var i1 :| 0 <= i1 <= |s| && CutAt(s, r1, i1, strip);
    var i2 :| 0 <= i2 <= |s| && CutAt(s, r2, i2, strip);
    assert i1 + |r1| <= |s| && i2 + |r2| <= |s|;
    if r1 != [] && r2 != [] {
      assert r1[0] == s[i1] && r2[0] == s[i2];
      assert r1[|r1| - 1] == s[i1 + |r1| - 1] && r2[|r2| - 1] == s[i2 + |r2| - 1];
      assert i1 == i2;
      assert i1 + |r1| == i2 + |r2|;
    } else if r1 != [] {
      assert false;
    } else if r2 != [] {
      assert false;
    }
  }

  /** Stripping a string with neither end in the class changes nothing. */
  lemma StripTrimmed(s: string, strip: char -> bool)
    requires Trimmed(s, strip)
    ensures StripChars(s, strip) == s
  {
    if s != [] {
      assert LeadCount(s, strip) == 0 && TrailCount(s, strip) == 0;
    }
  }

  /** Stripping is idempotent. */
  lemma StripIdempotent(s: string, strip: char -> bool)
    ensures StripChars(StripChars(s, strip), strip) == StripChars(s, strip)
  {
    StripTrimmed(StripChars(s, strip), strip);
  }

  /** Python's `s.split(sep)`: the pieces between the occurrences of `sep`, always at
      least one (`"".split(sep) == [""]`), none of them containing `sep`. */
  function Split(s: string, sep: char): (r: seq<string>)
    ensures |r| >= 1
    ensures forall k :: 0 <= k < |r| ==> sep !in r[k]
  {
    if s == [] then [""]
    else
      var rest := Split(s[1..], sep);
      if s[0] == sep then [""] + rest
      else [[s[0]] + rest[0]] + rest[1..]
  }

  /** Python's `sep.join(parts)`. */
  function Join(parts: seq<string>, sep: char): string
    requires |parts| >= 1
  {
    if |parts| == 1 then parts[0] else parts[0] + [sep] + Join(parts[1..], sep)
  }

  /** Joining the pieces of a split gives the original string back. */
  lemma {:induction false} JoinSplit(s: string, sep: char)
    ensures Join(Split(s, sep), sep) == s
  {
    if s != [] {
      var rest := Split(s[1..], sep);
      JoinSplit(s[1..], sep);
      if s[0] != sep {
        if |rest| == 1 {
        } else {
          assert Join(rest, sep) == rest[0] + [sep] + Join(rest[1..], sep);
          var r := Split(s, sep);
          assert r[1..] == rest[1..];
        }
      }
    }
  }

  /** Splitting a join of separator-free pieces gives the pieces back. */
  lemma {:induction false} SplitJoin(parts: seq<string>, sep: char)
    requires |parts| >= 1
    requires forall k :: 0 <= k < |parts| ==> sep !in parts[k]
    ensures Split(Join(parts, sep), sep) == parts
  {
    if |parts| == 1 {
      SplitNoSeparator(parts[0], sep);
    } else {
      SplitJoin(parts[1..], sep);
      SplitAfterPiece(parts[0], Join(parts[1..], sep), sep);
      assert [parts[0]] + parts[1..] == parts;
    }
  }

  /** A string without the separator splits into itself alone. */
  lemma {:induction false} SplitNoSeparator(s: string, sep: char)
    requires sep !in s
    ensures Split(s, sep) == [s]
  {
    if s != [] {
      SplitNoSeparator(s[1..], sep);
      assert [s[0]] + s[1..] == s;
    }
  }

  /** A separator-free piece followed by the separator becomes the first piece. */
  lemma {:induction false} SplitAfterPiece(p: string, tail: string, sep: char)
    requires sep !in p
    ensures Split(p + [sep] + tail, sep) == [p] + Split(tail, sep)
  {
    if p == [] {
      assert p + [sep] + tail == [sep] + tail;
    } else {
      SplitAfterPiece(p[1..], tail, sep);
      assert (p + [sep] + tail)[1..] == p[1..] + [sep] + tail;
      assert [p[0]] + p[1..] == p;
    }
  }
}
