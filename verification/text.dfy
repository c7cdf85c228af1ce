/**
 * The two `str` methods the header scan uses on each line: `strip()` and
 * `split("\t")`, with `"\t".join` as the inverse of the split. Whitespace
 * is the set `str.strip()` removes: Python's whitespace code points.
 */
module Text {

  /**
   * `str.isspace` on one character: tab, line feed, vertical tab, form
   * feed, carriage return, the four ASCII separators U+001C-U+001F, the
   * space, U+0085, U+00A0, U+1680, U+2000-U+200A, U+2028, U+2029,
   * U+202F, U+205F and U+3000.
   */
  predicate IsSpace(c: char) {
    var k := c as int;
    (9 <= k <= 13) || (0x1C <= k <= 0x20) || k == 0x85 || k == 0xA0 || k == 0x1680
    || (0x2000 <= k <= 0x200A) || k == 0x2028 || k == 0x2029 || k == 0x202F || k == 0x205F || k == 0x3000
  }

  predicate AllSpace(s: string) {
    forall i | 0 <= i < |s| :: IsSpace(s[i])
  }

  /** The length of the whitespace run at the front of s. */
  function LeadingSpace(s: string): (k: nat)
    ensures k <= |s|
    ensures forall i | 0 <= i < k :: IsSpace(s[i])
    ensures k < |s| ==> !IsSpace(s[k])
  {
    if s == [] || !IsSpace(s[0]) then 0
    else
      var k := LeadingSpace(s[1..]);
      assert forall i | 1 <= i < k + 1 :: s[i] == s[1..][i - 1];
      1 + k
  }

  /** The length of the whitespace run at the end of s. */
  function TrailingSpace(s: string): (k: nat)
    ensures k <= |s|
    ensures forall i | |s| - k <= i < |s| :: IsSpace(s[i])
    ensures k < |s| ==> !IsSpace(s[|s| - k - 1])
  {
    if s == [] || !IsSpace(s[|s| - 1]) then 0
    else 1 + TrailingSpace(s[..|s| - 1])
  }

  /**
   * `s.strip()`: s without its leading and trailing whitespace. The
   * result is empty exactly when s is all whitespace; otherwise it is
   * the infix of s that starts and ends on a non-space.
   */
  function Strip(s: string): (r: string)
    ensures r == [] <==> AllSpace(s)
    ensures r != [] ==> !IsSpace(r[0]) && !IsSpace(r[|r| - 1])
    ensures |r| <= |s|
  {
    var lo := LeadingSpace(s);
    var t := s[lo..];
    var hi := |t| - TrailingSpace(t);
    StripBounds(s, lo, hi);
    t[..hi]
  }

  /** The facts about the two runs that `Strip` rests on. */
  lemma StripBounds(s: string, lo: nat, hi: nat)
    requires lo == LeadingSpace(s) && hi == |s[lo..]| - TrailingSpace(s[lo..])
    ensures lo + hi <= |s|
    ensures AllSpace(s[..lo]) && AllSpace(s[lo + hi..])
    ensures hi == 0 <==> AllSpace(s)
    ensures hi > 0 ==> !IsSpace(s[lo]) && !IsSpace(s[lo + hi - 1])
  {
    var t := s[lo..];
    if lo < |s| {
      assert t[0] == s[lo];
    }
    forall i | lo + hi <= i < |s| ensures IsSpace(s[i]) {
      assert s[i] == t[i - lo];
    }
    if hi > 0 {
      assert t[hi - 1] == s[lo + hi - 1];
    }
  }

  /** The strip is the infix of s between a whitespace prefix and a whitespace suffix. */
  lemma StripInfix(s: string)
    ensures var lo := LeadingSpace(s);
            var r := Strip(s);
            lo + |r| <= |s| && r == s[lo..lo + |r|] && AllSpace(s[..lo]) && AllSpace(s[lo + |r|..])
  {
    var lo := LeadingSpace(s);
    var t := s[lo..];
    var hi := |t| - TrailingSpace(t);
    StripBounds(s, lo, hi);
    assert Strip(s) == t[..hi];
    assert t[..hi] == s[lo..lo + hi];
  }

  /** A string that neither starts nor ends with whitespace is its own strip. */
  lemma StripTrimmed(s: string)
    requires s != [] && !IsSpace(s[0]) && !IsSpace(s[|s| - 1])
    ensures Strip(s) == s
  {
    assert LeadingSpace(s) == 0;
    assert TrailingSpace(s) == 0;
  }

  /** A line holding only a file separator, or a no-break space around text, strips as Python strips it. */
  lemma StripUnicodeSpace()
    ensures Strip("\U{1C}") == "" && Strip("\U{A0}ab\U{3000}") == "ab"
  {
    var s := "\U{A0}ab\U{3000}";
    assert LeadingSpace(s[1..]) == 0;
    assert LeadingSpace(s) == 1;
    assert TrailingSpace(s[1..][..2]) == 0;
    assert TrailingSpace(s[1..]) == 1;
  }

  /** `s.split(sep)` with an explicit separator: the fields between separators, empty ones included. */
  function Split(s: string, sep: char): (r: seq<string>)
    ensures |r| >= 1
    ensures forall k | 0 <= k < |r| :: sep !in r[k]
    ensures |r| == 1 <==> sep !in s
  {
    if s == [] then [""]
    else
      var rest := Split(s[1..], sep);
      if s[0] == sep then [""] + rest
      else
        assert forall k | 1 <= k < |rest| :: ([[s[0]] + rest[0]] + rest[1..])[k] == rest[k];
        assert sep !in s[1..] ==> sep !in s;
        [[s[0]] + rest[0]] + rest[1..]
  }

  /** `sep.join(fields)`. */
  function Join(fields: seq<string>, sep: char): (s: string)
    requires |fields| >= 1
    ensures |fields| == 1 ==> s == fields[0]
    decreases |fields|
  {
    if |fields| == 1 then fields[0] else fields[0] + [sep] + Join(fields[1..], sep)
  }

  /** Joining the split fields gives the string back. */
  lemma {:induction false} JoinSplit(s: string, sep: char)
    ensures Join(Split(s, sep), sep) == s
  {
    if s != [] {
      JoinSplit(s[1..], sep);
      var c := s[0];
      var rest := Split(s[1..], sep);
      assert s == [c] + s[1..];
      if c != sep {
        SplitCons(c, s[1..], sep);
        JoinCons(c, rest[0], rest[1..], sep);
        assert [rest[0]] + rest[1..] == rest;
      } else {
        SplitSep(s[1..], sep);
        assert ([""] + rest)[1..] == rest;
      }
    }
  }

  /** Splitting a string that starts with a non-separator extends the first field. */
  lemma SplitCons(c: char, s: string, sep: char)
    requires c != sep
    ensures Split([c] + s, sep) == [[c] + Split(s, sep)[0]] + Split(s, sep)[1..]
  {
    assert ([c] + s)[1..] == s;
  }

  /** Splitting a string that starts with the separator starts with an empty field. */
  lemma SplitSep(s: string, sep: char)
    ensures Split([sep] + s, sep) == [""] + Split(s, sep)
  {
    assert ([sep] + s)[1..] == s;
  }

  /** Joining fields whose first field starts with c starts with c. */
  lemma JoinCons(c: char, w: string, rest: seq<string>, sep: char)
    ensures Join([[c] + w] + rest, sep) == [c] + Join([w] + rest, sep)
  {
    if rest != [] {
      assert ([[c] + w] + rest)[1..] == rest;
      assert ([w] + rest)[1..] == rest;
    }
  }

  /** Splitting a join of separator-free fields gives the fields back. */
  lemma {:induction false} SplitJoin(fields: seq<string>, sep: char)
    requires |fields| >= 1
    requires forall k | 0 <= k < |fields| :: sep !in fields[k]
    ensures Split(Join(fields, sep), sep) == fields
    decreases |fields|, |fields[0]|
  {
    var w := fields[0];
    if w == [] {
      if |fields| > 1 {
        SplitJoin(fields[1..], sep);
        assert Join(fields, sep) == [sep] + Join(fields[1..], sep);
        SplitSep(Join(fields[1..], sep), sep);
        assert [""] + fields[1..] == fields;
      }
    } else {
      var shorter := [w[1..]] + fields[1..];
      assert forall k | 1 <= k < |shorter| :: shorter[k] == fields[k];
      assert w[0] != sep by { assert w[0] in w; }
      SplitJoin(shorter, sep);
      assert [w[0]] + w[1..] == w;
      assert fields == [[w[0]] + w[1..]] + fields[1..];
      JoinCons(w[0], w[1..], fields[1..], sep);
      SplitCons(w[0], Join(shorter, sep), sep);
      assert shorter[1..] == fields[1..];
    }
  }
}
