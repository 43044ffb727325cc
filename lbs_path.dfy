/**
 * The upstream URL of a forwarded request: the inbound path with its first
 * `/api/lbs` removed (JavaScript's `String.prototype.replace` with a string
 * pattern replaces the first occurrence only), appended to the map
 * service's base URL.
 */
module LbsPath {
  import opened JsValue

  const LbsPrefix := "/api/lbs"
  const LbsBase := "https://apis.map.qq.com"

  /** `pat` occurs in `s` starting at index `i`. */
  predicate OccursAt(s: string, pat: string, i: nat) {
    i + |pat| <= |s| && s[i..i + |pat|] == pat
  }

  /** Occurrences in `s[1..]` are the occurrences in `s` shifted by one. */
  lemma TailOccurrences(s: string, pat: string)
    requires |s| > 0
    ensures forall j: nat :: OccursAt(s[1..], pat, j) <==> OccursAt(s, pat, j + 1)
    ensures forall j: nat :: 0 < j ==> (OccursAt(s, pat, j) <==> OccursAt(s[1..], pat, j - 1))
  {
  }

  /** The index of the first occurrence of `pat` in `s`, if any. */
  function IndexOf(s: string, pat: string): (r: Option<nat>)
    ensures r.Some? ==> OccursAt(s, pat, r.value)
    ensures r.Some? ==> forall j: nat :: j < r.value ==> !OccursAt(s, pat, j)
    ensures r.None? ==> forall j: nat :: !OccursAt(s, pat, j)
    decreases |s|
  {
    if OccursAt(s, pat, 0) then Some(0)
    else if |s| == 0 then None
    else
      TailOccurrences(s, pat);
      match IndexOf(s[1..], pat)
      case Some(k) => Some(k + 1)
      case None => None
  }

  /** `s.replace(pat, "")`: `s` without the first occurrence of `pat`, or
      `s` itself when `pat` does not occur. Putting `pat` back at the point
      where it was removed gives `s` again. */
  function RemoveFirst(s: string, pat: string): (r: string)
    ensures IndexOf(s, pat).None? ==> r == s
    ensures IndexOf(s, pat).Some? ==>
              var i := IndexOf(s, pat).value;
              i <= |r| && |r| == |s| - |pat| && s == r[..i] + pat + r[i..]
  {
    match IndexOf(s, pat)
    case None => s
    case Some(i) =>
      var r := s[..i] + s[i + |pat|..];
      assert r[..i] == s[..i] && r[i..] == s[i + |pat|..];
      assert s == s[..i] + s[i..i + |pat|] + s[i + |pat|..];
      r
  }

  /** `req.path.replace('/api/lbs', '')`. */
  function StripLbs(path: string): string {
    RemoveFirst(path, LbsPrefix)
  }

  /** `https://apis.map.qq.com${apiPath}`. */
  function UpstreamUrl(path: string): string {
    LbsBase + StripLbs(path)
  }

  /** A path that starts with `/api/lbs` has as its upstream URL the base
      followed by the rest of the path. */
  lemma UpstreamUrlOfRoutedPath(rest: string)
    ensures UpstreamUrl(LbsPrefix + rest) == LbsBase + rest
  {
  }

  /** A path without `/api/lbs` anywhere is appended unchanged. */
  lemma UpstreamUrlWithoutPrefix(path: string)
    requires forall j: nat :: !OccursAt(path, LbsPrefix, j)
    ensures UpstreamUrl(path) == LbsBase + path
  {
  }
}
