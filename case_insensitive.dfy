/**
 * `astrcmpi(a, b) == 0`, the only way the plugin uses libobs' string
 * comparison: equality of two strings after each ASCII letter is mapped to
 * upper case (C's `toupper` in the "C" locale).
 */
module CaseInsensitive {

  /** `toupper` on one character: only 'a'..'z' change. */
  function Upper(c: char): char
  {
    if 'a' <= c <= 'z' then (c as int - 32) as char else c
  }

  /** A reference definition: the whole string mapped to upper case. */
  function UpperString(s: string): string
  {
    if s == [] then [] else [Upper(s[0])] + UpperString(s[1..])
  }

  /** `astrcmpi(a, b) == 0`, walking both strings one character at a time. */
  function EqualsIgnoreCase(a: string, b: string): (r: bool)
    ensures r <==> |a| == |b| && forall i :: 0 <= i < |a| ==> Upper(a[i]) == Upper(b[i])
  {
    if a == [] || b == [] then a == b
    else
      assert forall i :: 1 <= i < |a| ==> a[i] == a[1..][i - 1];
      assert forall i :: 1 <= i < |b| ==> b[i] == b[1..][i - 1];
      Upper(a[0]) == Upper(b[0]) && EqualsIgnoreCase(a[1..], b[1..])
  }

  /** Case-insensitive equality is equality of the upper-cased strings. */
  lemma {:induction false} EqualsIgnoreCaseIsUpperEquality(a: string, b: string)
    ensures EqualsIgnoreCase(a, b) <==> UpperString(a) == UpperString(b)
  {
    if a == [] || b == [] {
      if a != [] { assert UpperString(a)[0] == Upper(a[0]); }
      if b != [] { assert UpperString(b)[0] == Upper(b[0]); }
    } else {
      EqualsIgnoreCaseIsUpperEquality(a[1..], b[1..]);
      var ua, ub := UpperString(a), UpperString(b);
      assert ua == [Upper(a[0])] + UpperString(a[1..]);
      assert ub == [Upper(b[0])] + UpperString(b[1..]);
      if ua == ub {
        assert ua[0] == ub[0];
        assert ua[1..] == UpperString(a[1..]);
        assert ub[1..] == UpperString(b[1..]);
      }
    }
  }

  /** The spellings the plugin compares against name three different modes:
      no string matches two of them, whatever its case. */
  lemma ModeNamesDistinct(rc: string)
    ensures !(EqualsIgnoreCase(rc, "CBR") && EqualsIgnoreCase(rc, "CQP"))
    ensures !(EqualsIgnoreCase(rc, "CBR") && EqualsIgnoreCase(rc, "VBR"))
    ensures !(EqualsIgnoreCase(rc, "CQP") && EqualsIgnoreCase(rc, "VBR"))
  {

  }

  /** `esmpp_update` spells the modes in lower case, the callbacks in upper
      case: under case-insensitive comparison the two spellings agree. */
  lemma ModeSpellingsAgree(rc: string)
    ensures EqualsIgnoreCase(rc, "cqp") <==> EqualsIgnoreCase(rc, "CQP")
    ensures EqualsIgnoreCase(rc, "vbr") <==> EqualsIgnoreCase(rc, "VBR")
    ensures EqualsIgnoreCase(rc, "cbr") <==> EqualsIgnoreCase(rc, "CBR")
  {

  }
}
