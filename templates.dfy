/** The `truncate` helper that main.go installs in the root template. Lengths
    are counted in characters here; the template engine turns the slice
    panic of an over-long end string into an execution error, modelled as
    `None`. */
module Templates {
  import opened Wire

  /** `truncate(s, l, endstring)`: a string longer than `l` is cut so that,
      with `endstring` appended, it is exactly `l` long; a shorter one is kept
      as it is. Cutting fails when `endstring` alone is longer than `l`. */
  function Truncate(s: string, l: int, endstring: string): (r: Option<string>)
    ensures r.None? <==> |s| > l && |endstring| > l
    ensures r.Some? ==> |r.value| <= l
    ensures r.Some? && |s| <= l ==> r.value == s
    ensures r.Some? && |s| > l ==> |r.value| == l && r.value[l - |endstring|..] == endstring
    ensures r.Some? && |s| > l ==> r.value[..l - |endstring|] <= s
  {
    if |s| > l then
      var cut := l - |endstring|;
      if cut < 0 then None else Some(s[..cut] + endstring)
    else
      Some(s)
  }

  /** Truncating what `truncate` returned changes nothing. */
  lemma TruncateStable(s: string, l: int, endstring: string)
    requires Truncate(s, l, endstring).Some?
    ensures Truncate(Truncate(s, l, endstring).value, l, endstring) == Truncate(s, l, endstring)
  {
  }
}
