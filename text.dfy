/** String helpers shared by the background worker and the content script. */
module Text {

  /** True when `p` is a prefix of `s`: JavaScript's `s.startsWith(p)`,
      compared character by character. */
  function StartsWith(s: string, p: string): (r: bool)
    ensures r <==> |p| <= |s| && s[..|p|] == p
  {
    if p == [] then true
    else if s == [] then false
    else s[0] == p[0] && StartsWith(s[1..], p[1..])
  }
}
