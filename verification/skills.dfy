/**
 * `sanitizeClassName` of the skills section: lower-case the name, turn every
 * character outside `[a-z0-9]` into `-`, then collapse each run of `-` into
 * one (the source applies `replace(/-+/g, "-")` twice).
 */
module Slugs {
  import opened Text
  import opened Seqs

  /** The alphabet of a slug: `[a-z0-9-]`. */
  predicate SlugChar(c: char) {
    IsLowerAlnum(c) || c == '-'
  }

  predicate NotDash(c: char) {
    c != '-'
  }

  /** No two consecutive dashes. */
  predicate NoDoubleDash(s: string) {
    forall i :: 0 <= i < |s| - 1 ==> !(s[i] == '-' && s[i + 1] == '-')
  }

  /** `replace(/[^a-z0-9]/g, "-")`. */
  function DashNonAlnum(s: string): (r: string)
    ensures |r| == |s|
    ensures forall i :: 0 <= i < |s| ==> r[i] == (if IsLowerAlnum(s[i]) then s[i] else '-')
  {
    seq(|s|, i requires 0 <= i < |s| => if IsLowerAlnum(s[i]) then s[i] else '-')
  }

  /** The leading run of dashes removed. */
  function SkipDashes(s: string): (r: string)
    ensures |r| <= |s|
    ensures s != [] && s[0] == '-' ==> |r| < |s|
    ensures r != [] ==> r[0] != '-'
    ensures forall i :: 0 <= i < |r| ==> r[i] in s
    ensures r == s[|s| - |r|..]
    ensures forall i :: 0 <= i < |s| - |r| ==> s[i] == '-'
    decreases |s|
  {
    if s != [] && s[0] == '-' then SkipDashes(s[1..]) else s
  }

  /** `replace(/-+/g, "-")`: every maximal run of dashes becomes a single dash. */
  function CollapseDashes(s: string): (r: string)
    ensures |r| <= |s|
    ensures s != [] ==> r != [] && r[0] == s[0]
    ensures forall i :: 0 <= i < |r| ==> r[i] in s
    ensures NoDoubleDash(r)
    decreases |s|
  {
    if s == [] then []
    else if s[0] == '-' then
      var rest := CollapseDashes(SkipDashes(s));
      assert rest != [] ==> rest[0] != '-';
      "-" + rest
    else
      var rest := CollapseDashes(s[1..]);
      [s[0]] + rest
  }

  /**
   * The collapse described character by character: every character is kept
   * except a dash that directly follows another dash.
   */
  function DropRepeatedDashes(s: string): (r: string)
    decreases |s|
  {
    if |s| <= 1 then s
    else if s[0] == '-' && s[1] == '-' then DropRepeatedDashes(s[1..])
    else [s[0]] + DropRepeatedDashes(s[1..])
  }

  /** Dropping repeated dashes turns a leading run of dashes into one dash. */
  lemma {:induction false} DropRepeatedLeadingRun(s: string)
    requires s != [] && s[0] == '-'
    ensures DropRepeatedDashes(s) == "-" + DropRepeatedDashes(SkipDashes(s))
    decreases |s|
  {
    if |s| > 1 && s[1] == '-' {
      DropRepeatedLeadingRun(s[1..]);
    }
  }

  /** `replace(/-+/g, "-")` keeps every character except a dash right after a dash. */
  lemma {:induction false} CollapseIsDropRepeatedDashes(s: string)
    ensures CollapseDashes(s) == DropRepeatedDashes(s)
    decreases |s|
  {
    if s != [] {
      if s[0] == '-' {
        DropRepeatedLeadingRun(s);
        CollapseIsDropRepeatedDashes(SkipDashes(s));
      } else {
        CollapseIsDropRepeatedDashes(s[1..]);
      }
    }
  }

  /** A string without two consecutive dashes is left alone by the collapse. */
  lemma {:induction false} CollapseNoDoubleDash(s: string)
    requires NoDoubleDash(s)
    ensures CollapseDashes(s) == s
    decreases |s|
  {
    if s != [] {
      assert NoDoubleDash(s[1..]);
      if s[0] == '-' {
        assert SkipDashes(s) == s[1..] by {
          if |s| > 1 {
            assert s[1] != '-';
          }
        }
      }
      CollapseNoDoubleDash(s[1..]);
    }
  }

  /** The second `replace(/-+/g, "-")` of `sanitizeClassName` changes nothing. */
  lemma SecondCollapseIsNoOp(s: string)
    ensures CollapseDashes(CollapseDashes(s)) == CollapseDashes(s)
  {
    CollapseNoDoubleDash(CollapseDashes(s));
  }

  /** Dropping leading dashes does not change the non-dash characters. */
  lemma {:induction false} SkipDashesKeepsLetters(s: string)
    ensures Filter(SkipDashes(s), NotDash) == Filter(s, NotDash)
    decreases |s|
  {
    if s != [] && s[0] == '-' {
      assert s == [s[0]] + s[1..];
      FilterAppend([s[0]], s[1..], NotDash);
      SkipDashesKeepsLetters(s[1..]);
    }
  }

  /** Collapsing dash runs does not change the non-dash characters or their order. */
  lemma {:induction false} CollapseKeepsLetters(s: string)
    ensures Filter(CollapseDashes(s), NotDash) == Filter(s, NotDash)
    decreases |s|
  {
    if s != [] {
      if s[0] == '-' {
        var rest := SkipDashes(s);
        CollapseKeepsLetters(rest);
        SkipDashesKeepsLetters(s);
        FilterAppend("-", CollapseDashes(rest), NotDash);
      } else {
        assert s == [s[0]] + s[1..];
        CollapseKeepsLetters(s[1..]);
        FilterAppend([s[0]], CollapseDashes(s[1..]), NotDash);
        FilterAppend([s[0]], s[1..], NotDash);
      }
    }
  }

  /** After dashing, the non-dash characters are exactly the `[a-z0-9]` characters of the input. */
  lemma {:induction false} DashKeepsAlnum(s: string)
    ensures Filter(DashNonAlnum(s), NotDash) == Filter(s, IsLowerAlnum)
    decreases |s|
  {
    if s != [] {
      var d := DashNonAlnum(s);
      var rest := DashNonAlnum(s[1..]);
      assert d == [d[0]] + rest;
      assert s == [s[0]] + s[1..];
      DashKeepsAlnum(s[1..]);
      FilterAppend([d[0]], rest, NotDash);
      FilterAppend([s[0]], s[1..], IsLowerAlnum);
      assert Filter([d[0]], NotDash) == Filter([s[0]], IsLowerAlnum) by {
        if IsLowerAlnum(s[0]) {
          assert d[0] == s[0] && NotDash(d[0]);
        } else {
          assert d[0] == '-';
        }
      }
    }
  }

  /** `sanitizeClassName(name)`, with ASCII lower-casing. */
  function SanitizeClassName(name: string): (r: string)
    ensures forall i :: 0 <= i < |r| ==> SlugChar(r[i])
    ensures NoDoubleDash(r)
    ensures |r| <= |name|
    ensures name != [] && IsLowerAlnum(LowerChar(name[0])) ==> r != [] && r[0] == LowerChar(name[0])
  {
    var dashed := DashNonAlnum(Lower(name));
    assert forall i :: 0 <= i < |dashed| ==> SlugChar(dashed[i]);
    CollapseDashes(CollapseDashes(dashed))
  }

  /** Deleting the dashes of a slug leaves the lower-cased letters and digits of the name, in order. */
  lemma SlugLetters(name: string)
    ensures Filter(SanitizeClassName(name), NotDash) == Filter(Lower(name), IsLowerAlnum)
  {
    var dashed := DashNonAlnum(Lower(name));
    CollapseKeepsLetters(CollapseDashes(dashed));
    CollapseKeepsLetters(dashed);
    DashKeepsAlnum(Lower(name));
  }

  /** Sanitizing a slug again changes nothing. */
  lemma SanitizeIdempotent(name: string)
    ensures SanitizeClassName(SanitizeClassName(name)) == SanitizeClassName(name)
  {
    var s := SanitizeClassName(name);
    SlugCharsFixed(s);
    CollapseNoDoubleDash(s);
    SecondCollapseIsNoOp(s);
  }

  /** Lower-casing and dashing leave a string over the slug alphabet unchanged. */
  lemma SlugCharsFixed(s: string)
    requires forall i :: 0 <= i < |s| ==> SlugChar(s[i])
    ensures Lower(s) == s && DashNonAlnum(s) == s
  {
    LowerNoUpper(s);
    assert forall i :: 0 <= i < |s| ==> DashNonAlnum(s)[i] == s[i];
  }
}
