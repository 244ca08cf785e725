/**
 * The string rules that surround the bookmark list: the protocol normalisation applied
 * before a URL is stored (identical in components/BookmarkCard.tsx and app/dashboard/page.tsx),
 * the looser prefix rule used only to compute the displayed domain, and the title default.
 *
 * The WHATWG URL parser (`new URL(s)` and its `.hostname`) is not modelled; it is an
 * oracle passed in by the caller.
 */
module Urls {
  import opened Wrappers

  /** `new URL(s)` seen from outside: None when the constructor throws, Some(h) when it
      succeeds and its hostname is h. */
  type UrlParser = string -> Option<string>

  /** `new URL(s)` does not throw. */
  predicate ValidUrl(parse: UrlParser, s: string) {
    parse(s).Some?
  }

  /** `new URL(s).hostname`, defined only when the constructor succeeds. */
  function Hostname(parse: UrlParser, s: string): string
    requires ValidUrl(parse, s)
  {
    parse(s).value
  }

  /** JavaScript's `s.startsWith(p)`. */
  predicate StartsWith(s: string, p: string) {
    |p| <= |s| && s[..|p|] == p
  }

  const Http: string := "http://"
  const Https: string := "https://"

  /** The URL already names one of the two web protocols. */
  predicate HasProtocol(s: string) {
    StartsWith(s, Http) || StartsWith(s, Https)
  }

  /** The normalisation of the add and edit paths: prepend "https://" unless the input
      already starts with "http://" or "https://". */
  function NormalizeUrl(u: string): (r: string)
    ensures HasProtocol(r)
    ensures HasProtocol(u) ==> r == u
    ensures !HasProtocol(u) ==> r == Https + u && r[|Https|..] == u
  {
    if !StartsWith(u, Http) && !StartsWith(u, Https) then Https + u else u
  }

  /** The display rule: the stored URL is used as is when it starts with "http",
      otherwise "https://" is prepended; the result is then parsed for its hostname. */
  function DisplayUrl(u: string): (r: string)
    ensures StartsWith(r, "http")
    ensures StartsWith(u, "http") <==> r == u
    ensures !StartsWith(u, "http") ==> r == Https + u
  {
    if StartsWith(u, "http") then u else Https + u
  }

  /** JavaScript's `title || hostname` on strings: the empty string is falsy, so the
      result is one of the two operands, a non-empty title wins, and the result is empty
      only when both operands are. */
  function TitleOr(title: string, fallback: string): (r: string)
    ensures r == title || r == fallback
    ensures title != "" ==> r == title
    ensures r == "" <==> title == "" && fallback == ""
  {
    if title != "" then title else fallback
  }

  /** Normalising twice is normalising once. */
  lemma NormalizeIdempotent(u: string)
    ensures NormalizeUrl(NormalizeUrl(u)) == NormalizeUrl(u)
  {
  }

  /** The display rule and the normalisation disagree exactly on strings that start with
      "http" but with neither "http://" nor "https://" (for example "httpbin.org"). */
  lemma DisplayDiffersFromNormalize(u: string)
    ensures DisplayUrl(u) != NormalizeUrl(u)
        <==> StartsWith(u, "http") && !HasProtocol(u)
  {
  }
}
