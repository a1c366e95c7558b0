/**
 * The two Python string operations the updater relies on: `str.strip()` with no
 * argument, and `str.lower()`.  Only the parts of their behaviour that can change
 * the outcome of comparing against "gold", "silver" or "si.f" are modelled.
 */
module Strings {

  /** Python's `str.isspace()` for a single code point. */
  predicate IsSpace(c: char)
    ensures IsSpace(c) ==> !('A' <= c <= 'Z') && !('a' <= c <= 'z')
  {
    var n := c as int;
    (9 <= n <= 13) || (0x1C <= n <= 0x20) || n == 0x85 || n == 0xA0 || n == 0x1680
    || (0x2000 <= n <= 0x200A) || n == 0x2028 || n == 0x2029 || n == 0x202F
    || n == 0x205F || n == 0x3000
  }

  predicate AllSpace(s: string) {
    forall k :: 0 <= k < |s| ==> IsSpace(s[k])
  }

  /** `s.lstrip()`: the longest suffix of `s` that does not start with whitespace. */
  function StripStart(s: string): (r: string)
  {
    if s != [] && IsSpace(s[0]) then StripStart(s[1..]) else s
  }

  /** `s.rstrip()`: the longest prefix of `s` that does not end with whitespace. */
  function StripEnd(s: string): (r: string)
  {
    if s != [] && IsSpace(s[|s| - 1]) then StripEnd(s[..|s| - 1]) else s
  }

  /** What `lstrip` keeps: a suffix of `s`, preceded only by whitespace, not starting with it. */
  lemma {:induction false} StripStartShape(s: string)
    ensures var r := StripStart(s);
      |r| <= |s| && r == s[|s| - |r|..] && AllSpace(s[..|s| - |r|]) && (r == [] || !IsSpace(r[0]))
  {
    if s != [] && IsSpace(s[0]) {
      StripStartShape(s[1..]);
      var r := StripStart(s);
      assert s[..|s| - |r|] == [s[0]] + s[1..][..|s| - 1 - |r|];
    }
  }

  /** What `rstrip` keeps: a prefix of `s`, followed only by whitespace, not ending with it. */
  lemma {:induction false} StripEndShape(s: string)
    ensures var r := StripEnd(s);
      |r| <= |s| && r == s[..|r|] && AllSpace(s[|r|..]) && (r == [] || !IsSpace(r[|r| - 1]))
  {
    if s != [] && IsSpace(s[|s| - 1]) {
      var init := s[..|s| - 1];
      StripEndShape(init);
      var r := StripEnd(s);
      assert s[|r|..] == init[|r|..] + [s[|s| - 1]];
    }
  }

  /** `s.strip()`: no longer than `s`, and neither starting nor ending with whitespace. */
  function Strip(s: string): (r: string)
    ensures |r| <= |s|
    ensures r != [] ==> !IsSpace(r[0]) && !IsSpace(r[|r| - 1])
  {
    StripStartShape(s);
    StripEndShape(StripStart(s));
    StripEnd(StripStart(s))
  }

  /**
   * Lower-casing of one character.  Only ASCII letters are mapped: no other code
   * point lower-cases to a single ASCII letter of "gold", "silver" or "si.f", so
   * comparisons against those words come out as with Python's full `str.lower()`.
   */
  function LowerChar(c: char): (d: char)
    ensures d != c <==> 'A' <= c <= 'Z'
    ensures 'A' <= c <= 'Z' ==> d as int == c as int + 32
  {
    if 'A' <= c <= 'Z' then (c as int + 32) as char else c
  }

  /** `s.lower()`, character by character. */
  function Lower(s: string): (r: string)
    ensures |r| == |s|
  {
    if s == [] then [] else [LowerChar(s[0])] + Lower(s[1..])
  }

  /** `s.lower()` maps each character on its own. */
  lemma {:induction false} LowerAt(s: string, k: int)
    requires 0 <= k < |s|
    ensures Lower(s)[k] == LowerChar(s[k])
  {
    if k > 0 {
      LowerAt(s[1..], k - 1);
    }
  }

  /** Leading whitespace is all removed by `lstrip`, whatever follows it. */
  lemma {:induction false} StripStartSkipsPadding(pre: string, s: string)
    requires AllSpace(pre)
    ensures StripStart(pre + s) == StripStart(s)
  {
    if pre == [] {
      assert pre + s == s;
    } else {
      assert (pre + s)[0] == pre[0];
      assert (pre + s)[1..] == pre[1..] + s;
      StripStartSkipsPadding(pre[1..], s);
    }
  }

  /** Trailing whitespace is all removed by `rstrip`, whatever precedes it. */
  lemma {:induction false} StripEndSkipsPadding(s: string, post: string)
    requires AllSpace(post)
    ensures StripEnd(s + post) == StripEnd(s)
  {
    if post == [] {
      assert s + post == s;
    } else {
      var last := |post| - 1;
      assert (s + post)[|s + post| - 1] == post[last];
      assert (s + post)[..|s + post| - 1] == s + post[..last];
      StripEndSkipsPadding(s, post[..last]);
    }
  }

  /**
   * Surrounding a string with whitespace of any length on either side does not
   * change what `strip` makes of it.
   */
  lemma StripIgnoresPadding(pre: string, s: string, post: string)
    requires AllSpace(pre) && AllSpace(post)
    ensures Strip(pre + s + post) == Strip(s)
  {
    StripStartSkipsPadding(pre, s + post);
    assert pre + s + post == pre + (s + post);
    StripStartAppend(s, post);
    var t := StripStart(s);
    if StripStart(s + post) == t + post {
      StripEndSkipsPadding(t, post);
    } else {
      AllSpaceStripsToEmpty(s);
      assert AllSpace(s + post);
      AllSpaceStripsToEmpty(s + post);
    }
  }

  /** `lstrip` only looks at the front of the string while the front is whitespace. */
  lemma {:induction false} StripStartAppend(s: string, post: string)
    requires AllSpace(post)
    ensures StripStart(s + post) == StripStart(s) + post || (AllSpace(s) && StripStart(s) == [])
  {
    if s == [] {
    } else {
      assert (s + post)[0] == s[0];
      if IsSpace(s[0]) {
        assert (s + post)[1..] == s[1..] + post;
        StripStartAppend(s[1..], post);
      }
    }
  }

  /** A string made only of whitespace strips to the empty string. */
  lemma AllSpaceStripsToEmpty(s: string)
    requires AllSpace(s)
    ensures Strip(s) == []
  {
    StripStartShape(s);
  }
}
