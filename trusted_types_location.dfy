/**
 * The location-URL policy of the Trusted Types test helper: every
 * fragment is removed from `location.href` by a global regular-expression
 * replacement, then `#` and the value are appended.
 */
module TrustedTypesLocation {
  /** The characters that the regular-expression `.` does not match. */
  predicate IsLineTerminator(c: char) {
    c == '\n' || c == '\r' || c == '\U{2028}' || c == '\U{2029}'
  }

  predicate SingleLine(s: string) {
    forall i :: 0 <= i < |s| ==> !IsLineTerminator(s[i])
  }

  /** What the greedy `.*` leaves of `s`: everything from the first line terminator on. */
  function SkipRestOfLine(s: string): (r: string)
    ensures |r| <= |s| && r == s[|s| - |r|..]
    ensures r == [] || IsLineTerminator(r[0])
    ensures SingleLine(s[..|s| - |r|])
  {
    if s == [] || IsLineTerminator(s[0]) then s
    else
      var r := SkipRestOfLine(s[1..]);
      assert s[..|s| - |r|] == [s[0]] + s[1..][..|s| - 1 - |r|];
      r
  }

  // The global replacement of `#.*` by "": every `#` is removed together
  // with the rest of its line; the search resumes where a match ended.
  function RemoveFragments(s: string): string
    decreases |s|
  {
    if s == [] then []
    else if s[0] == '#' then RemoveFragments(SkipRestOfLine(s[1..]))
    else [s[0]] + RemoveFragments(s[1..])
  }

  /** `createLocationURLJS`, with `location.href` as a parameter. */
  function CreateLocationURL(href: string, value: string): string {
    RemoveFragments(href) + "#" + value
  }

  /** Whatever the input, no `#` survives the global replacement. */
  lemma {:induction false} RemoveFragmentsHasNoHash(s: string)
    ensures '#' !in RemoveFragments(s)
    decreases |s|
  {
    if s == [] {
    } else if s[0] == '#' {
      RemoveFragmentsHasNoHash(SkipRestOfLine(s[1..]));
    } else {
      RemoveFragmentsHasNoHash(s[1..]);
    }
  }

  /** Text without `#` is kept as it is, whatever follows it. */
  lemma {:induction false} RemoveFragmentsKeepsPrefix(p: string, rest: string)
    requires '#' !in p
    ensures RemoveFragments(p + rest) == p + RemoveFragments(rest)
    decreases |p|
  {
    if p == [] {
      assert p + rest == rest;
    } else {
      assert p[0] != '#' && p == [p[0]] + p[1..];
      assert (p + rest)[0] == p[0] && (p + rest)[1..] == p[1..] + rest;
      RemoveFragmentsKeepsPrefix(p[1..], rest);
    }
  }

  /** A `#` followed by the rest of a single line vanishes entirely. */
  lemma RemoveFragmentsDropsFragment(frag: string)
    requires SingleLine(frag)
    ensures RemoveFragments("#" + frag) == []
  {
    assert ("#" + frag)[1..] == frag;
    assert SkipRestOfLine(frag) == [];
  }

  /**
   * On a single-line href the policy keeps the href up to its first `#`
   * (all of it when there is none) and appends `#` and the value.
   */
  lemma CreateLocationURLSingleLine(href: string, value: string)
    requires SingleLine(href)
    ensures '#' !in href ==> CreateLocationURL(href, value) == href + "#" + value
    ensures forall i :: 0 <= i < |href| && href[i] == '#' && '#' !in href[..i] ==>
              CreateLocationURL(href, value) == href[..i] + "#" + value
  {
    if '#' !in href {
      RemoveFragmentsKeepsPrefix(href, []);
      assert href + [] == href;
    }
    forall i | 0 <= i < |href| && href[i] == '#' && '#' !in href[..i]
      ensures CreateLocationURL(href, value) == href[..i] + "#" + value
    {
      var frag := href[i + 1..];
      assert href == href[..i] + ("#" + frag);
      assert SingleLine(frag);
      RemoveFragmentsKeepsPrefix(href[..i], "#" + frag);
      RemoveFragmentsDropsFragment(frag);
      assert href[..i] + [] == href[..i];
    }
  }

  /**
   * Hrefs that differ only in their fragment give the same result: the
   * base (free of `#`) followed by `#` and the value.
   */
  lemma CreateLocationURLIgnoresFragment(base: string, frag: string, value: string)
    requires '#' !in base && SingleLine(frag)
    ensures CreateLocationURL(base + "#" + frag, value) == base + "#" + value
    ensures CreateLocationURL(base, value) == base + "#" + value
  {
    assert base + "#" + frag == base + ("#" + frag);
    RemoveFragmentsKeepsPrefix(base, "#" + frag);
    RemoveFragmentsDropsFragment(frag);
    RemoveFragmentsKeepsPrefix(base, []);
    assert base + [] == base;
  }

  /**
   * Applying the policy's string function to its own result, with a value
   * free of line terminators, replaces the fragment once more: the earlier
   * value leaves no trace.  (A real navigation re-parses and re-serialises
   * the URL first; that is not part of this model.)
   */
  lemma CreateLocationURLReplacesOwnFragment(href: string, value: string, value': string)
    requires SingleLine(value)
    ensures CreateLocationURL(CreateLocationURL(href, value), value') == CreateLocationURL(href, value')
  {
    var base := RemoveFragments(href);
    RemoveFragmentsHasNoHash(href);
    CreateLocationURLIgnoresFragment(base, value, value');
  }
}
