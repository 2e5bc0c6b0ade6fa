/**
 * Character classes and the whitespace stripping the terminal applies to an
 * entered PIN before comparing it with the stored one.
 */
module Text {

  /** The characters Python's `str.isspace` accepts, which `str.strip()` removes. */
  predicate IsSpace(c: char) {
    ('\t' <= c <= '\r') || ('\U{1C}' <= c <= ' ') || c == '\U{85}' || c == '\U{A0}' || c == '\U{1680}'
    || ('\U{2000}' <= c <= '\U{200A}') || c == '\U{2028}' || c == '\U{2029}' || c == '\U{202F}'
    || c == '\U{205F}' || c == '\U{3000}'
  }

  /** An ASCII decimal digit. */
  predicate IsDigit(c: char) {
    '0' <= c <= '9'
  }

  predicate AllDigits(s: string) {
    forall i :: 0 <= i < |s| ==> IsDigit(s[i])
  }

  /** How many whitespace characters `s` starts with. */
  function LeadingSpaces(s: string): (n: nat)
    ensures n <= |s|
  {
    if s != [] && IsSpace(s[0]) then 1 + LeadingSpaces(s[1..]) else 0
  }

  /**
   * Python's `s.strip()`: whitespace removed at both ends. A string whose
   * first and last characters are not whitespace is returned unchanged.
   */
  function Strip(s: string): (r: string)
    ensures |r| <= |s|
  {
    if s != [] && IsSpace(s[0]) then Strip(s[1..])
    else if s != [] && IsSpace(s[|s| - 1]) then Strip(s[..|s| - 1])
    else s
  }

  /** The result of `Strip` has no whitespace at either end. */
  lemma {:induction false} StripTrimsEnds(s: string)
    ensures var r := Strip(s); r == [] || (!IsSpace(r[0]) && !IsSpace(r[|r| - 1]))
  {
    if s != [] && IsSpace(s[0]) {
      StripTrimsEnds(s[1..]);
    } else if s != [] && IsSpace(s[|s| - 1]) {
      StripTrimsEnds(s[..|s| - 1]);
    }
  }

  /**
   * `r` is the slice of `s` starting at `i`, and all of `s` outside that
   * slice is whitespace.
   */
  ghost predicate IsTrimmedSlice(s: string, r: string, i: nat) {
    i + |r| <= |s| && r == s[i..i + |r|]
    && (forall k :: 0 <= k < i ==> IsSpace(s[k]))
    && (forall k :: i + |r| <= k < |s| ==> IsSpace(s[k]))
  }

  /**
   * What `Strip` removes is exactly the leading and the trailing whitespace:
   * the result is the slice of `s` that starts after its leading whitespace,
   * and everything after that slice is whitespace as well.
   */
  lemma {:induction false} StripKeepsMiddle(s: string)
    ensures IsTrimmedSlice(s, Strip(s), LeadingSpaces(s))
  {
    if s != [] && IsSpace(s[0]) {
      var tail := s[1..];
      StripKeepsMiddle(tail);
      LeadingSpaceStep(s, Strip(tail), LeadingSpaces(tail));
    } else if s != [] && IsSpace(s[|s| - 1]) {
      var init := s[..|s| - 1];
      StripKeepsMiddle(init);
      assert LeadingSpaces(init) == 0 by {
        assert init != [] ==> init[0] == s[0];
      }
      TrailingSpaceStep(s, Strip(init));
    }
  }

  /** A whitespace character in front of a trimmed slice is trimmed too. */
  lemma LeadingSpaceStep(s: string, r: string, i: nat)
    requires s != [] && IsSpace(s[0])
    requires IsTrimmedSlice(s[1..], r, i)
    ensures IsTrimmedSlice(s, r, i + 1)
  {
    var tail := s[1..];
    assert r == tail[i..i + |r|] == s[i + 1..i + 1 + |r|];
    forall k | 0 <= k < i + 1 ensures IsSpace(s[k]) {
      if k > 0 { assert s[k] == tail[k - 1]; }
    }
    forall k | i + 1 + |r| <= k < |s| ensures IsSpace(s[k]) {
      assert s[k] == tail[k - 1];
    }
  }

  /** A whitespace character after a trimmed prefix is trimmed too. */
  lemma TrailingSpaceStep(s: string, r: string)
    requires s != [] && IsSpace(s[|s| - 1])
    requires IsTrimmedSlice(s[..|s| - 1], r, 0)
    ensures IsTrimmedSlice(s, r, 0)
  {
    var init := s[..|s| - 1];
    assert r == init[..|r|] == s[..|r|];
    forall k | |r| <= k < |s| ensures IsSpace(s[k]) {
      if k < |s| - 1 { assert s[k] == init[k]; }
    }
  }

  /** Stripping `a` and comparing with stripped `b` is comparing with `b` itself when `b` has no whitespace at its ends. */
  lemma StripMatchesUnpadded(a: string, b: string)
    requires b == [] || (!IsSpace(b[0]) && !IsSpace(b[|b| - 1]))
    ensures (Strip(a) == Strip(b)) <==> Strip(a) == b
  {
  }
}
