/**
 * The URL validator of the related-videos service: the YouTube shape check
 * (a fixed regular expression over the raw query string) and the extraction
 * of the video identifier from an already parsed URL.
 *
 * Generic URL parsing (the WHATWG `URL` and `URLSearchParams` parsers) is not
 * part of this model: a parsed URL is an input value of type `ParsedUrl`.
 */
module UrlValidator {
  import opened Wrappers

  // ---------------------------------------------------------------------------
  // The YouTube shape check:  /^(https?\:\/\/)?(www\.youtube\.com|youtu\.?be)\/.+$/
  // ---------------------------------------------------------------------------

  /** The characters that the regular-expression `.` does not match. */
  predicate IsLineTerminator(c: char) {
    c == '\n' || c == '\r' || c == '\U{2028}' || c == '\U{2029}'
  }

  /** `.+$`: at least one character, and none of them a line terminator. */
  predicate IsDotPlus(p: string) {
    |p| >= 1 && forall i :: 0 <= i < |p| ==> !IsLineTerminator(p[i])
  }

  predicate StartsWith(s: string, prefix: string) {
    |prefix| <= |s| && s[..|prefix|] == prefix
  }

  /** The alternatives of `(https?\:\/\/)?`. */
  predicate IsScheme(scheme: string) {
    scheme == "" || scheme == "http://" || scheme == "https://"
  }

  /** The alternatives of `(www\.youtube\.com|youtu\.?be)`. */
  predicate IsYoutubeHost(host: string) {
    host == "www.youtube.com" || host == "youtube" || host == "youtu.be"
  }

  /**
   * What the regular expression accepts, stated as the language it denotes:
   * an optional scheme, one of the three hosts, a slash, then one or more
   * characters that are not line terminators, up to the end of the string.
   */
  ghost predicate ShapeSpec(s: string) {
    exists scheme, host, path ::
      IsScheme(scheme) && IsYoutubeHost(host) && IsDotPlus(path) && s == scheme + host + "/" + path
  }

  /** The alternative of the optional scheme group that the input starts with. */
  function SchemeOf(s: string): (scheme: string)
    ensures IsScheme(scheme) && StartsWith(s, scheme)
    ensures scheme == "" ==> !StartsWith(s, "http://") && !StartsWith(s, "https://")
  {
    if StartsWith(s, "https://") then "https://"
    else if StartsWith(s, "http://") then "http://"
    else ""
  }

  /** The host alternative that the input starts with, followed by a slash. */
  function HostOf(s: string): (host: Option<string>)
    ensures host.Some? ==> IsYoutubeHost(host.value) && StartsWith(s, host.value + "/")
  {
    if StartsWith(s, "www.youtube.com/") then Some("www.youtube.com")
    else if StartsWith(s, "youtube/") then Some("youtube")
    else if StartsWith(s, "youtu.be/") then Some("youtu.be")
    else None
  }

  /**
   * `validateYoutubeURL`: the regular expression, matched by hand. An accepted
   * string is at least as long as `youtube/` plus one path character, and
   * (by `$` without the multiline flag) does not end in a line terminator.
   */
  predicate MatchesShape(s: string)
    ensures MatchesShape(s) ==> |s| >= 9 && !IsLineTerminator(s[|s| - 1])
  {
    var rest := s[|SchemeOf(s)|..];
    match HostOf(rest)
    case None => false
    case Some(host) => IsDotPlus(rest[|host| + 1..])
  }

  lemma PrefixOfConcat(a: string, b: string)
    ensures StartsWith(a + b, a)
  {
    assert (a + b)[..|a|] == a;
  }

  lemma PrefixSplit(s: string, prefix: string)
    requires StartsWith(s, prefix)
    ensures s == prefix + s[|prefix|..]
  {
    assert s == s[..|prefix|] + s[|prefix|..];
  }

  /** Two strings that differ at position `i` cannot have one as a prefix of the other. */
  lemma NotPrefixAt(s: string, prefix: string, i: nat)
    requires i < |prefix| && i < |s| && s[i] != prefix[i]
    ensures !StartsWith(s, prefix)
  {
    if |prefix| <= |s| {
      assert s[..|prefix|][i] != prefix[i];
    }
  }

  lemma DropPrefix(a: string, b: string)
    ensures (a + b)[|a|..] == b
  {
  }

  /**
   * The matcher finds exactly the scheme in front of a text that starts like a
   * host does, with `w` or `y` (neither of which can continue a scheme).
   */
  lemma SchemeOfConcat(scheme: string, tail: string)
    requires IsScheme(scheme) && |tail| >= 1 && (tail[0] == 'w' || tail[0] == 'y')
    ensures SchemeOf(scheme + tail) == scheme
  {
    var s := scheme + tail;
    if scheme == "" {
      assert s == tail;
      NotPrefixAt(s, "https://", 0);
      NotPrefixAt(s, "http://", 0);
    } else if scheme == "http://" {
      PrefixOfConcat(scheme, tail);
      assert s[4] == ':';
      NotPrefixAt(s, "https://", 4);
    } else {
      PrefixOfConcat(scheme, tail);
    }
  }

  /** The matcher finds exactly the host that the decomposition names. */
  lemma HostOfConcat(host: string, path: string)
    requires IsYoutubeHost(host)
    ensures HostOf(host + "/" + path) == Some(host)
  {
    var s := host + "/" + path;
    PrefixOfConcat(host + "/", path);
    if host == "youtube" {
      assert s[0] == 'y';
      NotPrefixAt(s, "www.youtube.com/", 0);
    } else if host == "youtu.be" {
      assert s[0] == 'y' && s[5] == '.';
      NotPrefixAt(s, "www.youtube.com/", 0);
      NotPrefixAt(s, "youtube/", 5);
    }
  }

  /** On a string made of a scheme, a host and a slash, the matcher judges only the path. */
  lemma MatchesShapeOfParts(scheme: string, host: string, path: string)
    requires IsScheme(scheme) && IsYoutubeHost(host)
    ensures MatchesShape(scheme + host + "/" + path) <==> IsDotPlus(path)
  {
    var s := scheme + host + "/" + path;
    var tail := host + "/" + path;
    assert s == scheme + tail && tail[0] == host[0];
    SchemeOfConcat(scheme, tail);
    DropPrefix(scheme, tail);
    assert s[|SchemeOf(s)|..] == tail;
    HostOfConcat(host, path);
    DropPrefix(host + "/", path);
    assert tail[|host| + 1..] == path;
  }

  /** Every string the matcher accepts is in the language of the regular expression. */
  lemma MatchesShapeSound(s: string)
    requires MatchesShape(s)
    ensures ShapeSpec(s)
  {
    var scheme := SchemeOf(s);
    var rest := s[|scheme|..];
    var host := HostOf(rest).value;
    var path := rest[|host| + 1..];
    assert IsScheme(scheme) && IsYoutubeHost(host) && IsDotPlus(path);
    PrefixSplit(rest, host + "/");
    PrefixSplit(s, scheme);
    assert s == scheme + host + "/" + path;
  }

  /** Every string in the language of the regular expression is accepted by the matcher. */
  lemma MatchesShapeComplete(s: string)
    requires ShapeSpec(s)
    ensures MatchesShape(s)
  {
    var scheme, host, path :| IsScheme(scheme) && IsYoutubeHost(host) && IsDotPlus(path)
                              && s == scheme + host + "/" + path;
    MatchesShapeOfParts(scheme, host, path);
  }

  /** The hand-coded matcher accepts exactly the language of the regular expression. */
  lemma MatchesShapeIffSpec(s: string)
    ensures MatchesShape(s) <==> ShapeSpec(s)
  {
    if MatchesShape(s) { MatchesShapeSound(s); }
    if ShapeSpec(s) { MatchesShapeComplete(s); }
  }

  /** `youtu\.?be`: the scheme-less short form `youtube/<path>` is accepted. */
  lemma ShortHostWithoutDotAccepted(path: string)
    requires IsDotPlus(path)
    ensures MatchesShape("youtube/" + path)
  {
    assert "youtube/" + path == "" + "youtube" + "/" + path;
    MatchesShapeComplete("youtube/" + path);
  }

  /** A bare `youtube.com` host is rejected: after `youtube` the pattern wants `/`. */
  lemma BareYoutubeComRejected(scheme: string, rest: string)
    requires IsScheme(scheme)
    ensures !MatchesShape(scheme + "youtube.com" + rest)
  {
    var t := "youtube.com" + rest;
    var s := scheme + t;
    assert s == scheme + "youtube.com" + rest;
    SchemeOfConcat(scheme, t);
    DropPrefix(scheme, t);
    NoHostBeforeDotCom(rest);
  }

  /** `youtube.com...` starts with none of the three host alternatives followed by `/`. */
  lemma NoHostBeforeDotCom(rest: string)
    ensures HostOf("youtube.com" + rest).None?
  {
    var t := "youtube.com" + rest;
    assert t[0] == 'y' && t[5] == 'b' && t[7] == '.';
    NotPrefixAt(t, "www.youtube.com/", 0);
    NotPrefixAt(t, "youtube/", 7);
    NotPrefixAt(t, "youtu.be/", 5);
  }


  /** Nothing after the slash, or a line terminator after it, is rejected. */
  lemma EmptyOrMultilinePathRejected(scheme: string, host: string, path: string)
    requires IsScheme(scheme) && IsYoutubeHost(host)
    requires path == "" || exists i :: 0 <= i < |path| && IsLineTerminator(path[i])
    ensures !MatchesShape(scheme + host + "/" + path)
  {
    MatchesShapeOfParts(scheme, host, path);
  }

  /** An example short link has the YouTube shape. */
  lemma ShortLinkExampleAccepted()
    ensures MatchesShape("https://youtu.be/abc123")
  {
    var path := "abc123";
    assert IsDotPlus(path);
    assert "https://youtu.be/abc123" == "https://" + "youtu.be" + "/" + path;
    MatchesShapeComplete("https://youtu.be/abc123");
  }

  /** An example watch link has the YouTube shape. */
  lemma WatchLinkExampleAccepted()
    ensures MatchesShape("https://www.youtube.com/watch?v=abc123&t=5")
  {
    var path := "watch?v=abc123&t=5";
    assert IsDotPlus(path);
    assert "https://www.youtube.com/watch?v=abc123&t=5" == "https://" + "www.youtube.com" + "/" + path;
    MatchesShapeComplete("https://www.youtube.com/watch?v=abc123&t=5");
  }

  /** A watch link on the bare `youtube.com` host is rejected by the shape check. */
  lemma BareHostExampleRejected()
    ensures !MatchesShape("https://youtube.com/watch?v=x")
  {
    assert "https://youtube.com/watch?v=x" == "https://" + "youtube.com" + "/watch?v=x";
    BareYoutubeComRejected("https://", "/watch?v=x");
  }

  // ---------------------------------------------------------------------------
  // Video-identifier extraction: getYoutubeIdentifierFromURL
  // ---------------------------------------------------------------------------

  /**
   * What the WHATWG URL parser yields for a string that parses: the host name,
   * the path name and the decoded query parameters in their order.
   */
  datatype ParsedUrl = ParsedUrl(hostname: string, pathname: string, searchParams: seq<(string, string)>)

  /** The position of the first parameter named `key`, or `|params|` when there is none. */
  function FirstIndexOf(params: seq<(string, string)>, key: string): (k: nat)
    ensures k <= |params|
    ensures forall j :: 0 <= j < k ==> params[j].0 != key
    ensures k < |params| ==> params[k].0 == key
  {
    if |params| == 0 then 0
    else if params[0].0 == key then 0
    else 1 + FirstIndexOf(params[1..], key)
  }

  /** `URLSearchParams.get`: the value of the first parameter named `key`, or null. */
  function GetParam(params: seq<(string, string)>, key: string): (v: Option<string>)
    ensures v.None? <==> forall j :: 0 <= j < |params| ==> params[j].0 != key
    ensures v.Some? ==>
      exists k :: 0 <= k < |params| && params[k] == (key, v.value)
              && forall j :: 0 <= j < k ==> params[j].0 != key
  {
    var k := FirstIndexOf(params, key);
    if k < |params| then Some(params[k].1) else None
  }

  /** `getYoutubeIdentifierFromURL`, given the parsed form of its argument. */
  function ExtractId(u: ParsedUrl): (id: string)
    ensures |id| <= |u.pathname| || u.hostname != "youtu.be"
  {
    if u.hostname == "youtu.be" then
      if |u.pathname| == 0 then "" else u.pathname[1..]
    else if u.hostname == "www.youtube.com" || u.hostname == "youtube.com" then
      match GetParam(u.searchParams, "v")
      case Some(v) => v
      case None => ""
    else
      ""
  }

  /** For `youtu.be`, the identifier is the path name with its leading `/` removed. */
  lemma ShortLinkId(path: string, params: seq<(string, string)>)
    ensures ExtractId(ParsedUrl("youtu.be", "/" + path, params)) == path
  {
    assert ("/" + path)[1..] == path;
  }

  /**
   * For the two long hosts, a non-empty identifier is the value of the first
   * `v` parameter, and the identifier is empty exactly when there is no `v`
   * parameter or the first one is empty.
   */
  lemma WatchLinkId(u: ParsedUrl)
    requires u.hostname == "www.youtube.com" || u.hostname == "youtube.com"
    ensures ExtractId(u) == "" <==>
      (forall j :: 0 <= j < |u.searchParams| ==> u.searchParams[j].0 != "v")
      || u.searchParams[FirstIndexOf(u.searchParams, "v")].1 == ""
    ensures ExtractId(u) != "" ==>
      exists k :: 0 <= k < |u.searchParams| && u.searchParams[k] == ("v", ExtractId(u))
              && forall j :: 0 <= j < k ==> u.searchParams[j].0 != "v"
  {
    var k := FirstIndexOf(u.searchParams, "v");
    if k < |u.searchParams| {
      assert u.searchParams[k] == ("v", u.searchParams[k].1);
    }
  }

  /** A `v` parameter placed first is the identifier, whatever follows it. */
  lemma WatchLinkLeadingV(host: string, path: string, id: string, rest: seq<(string, string)>)
    requires host == "www.youtube.com" || host == "youtube.com"
    ensures ExtractId(ParsedUrl(host, path, [("v", id)] + rest)) == id
  {
  }

  /** Any host other than `youtu.be`, `www.youtube.com` and `youtube.com` gives the empty identifier. */
  lemma OtherHostNoId(u: ParsedUrl)
    requires u.hostname != "youtu.be" && u.hostname != "www.youtube.com" && u.hostname != "youtube.com"
    ensures ExtractId(u) == ""
  {
  }

  /** The identifiers of three example links. */
  lemma IdExamples()
    ensures ExtractId(ParsedUrl("youtu.be", "/abc123", [])) == "abc123"
    ensures ExtractId(ParsedUrl("www.youtube.com", "/watch", [("v", "abc123"), ("t", "5")])) == "abc123"
    ensures ExtractId(ParsedUrl("www.youtube.com", "/watch", [])) == ""
  {
    ShortLinkId("abc123", []);
    assert "/abc123" == "/" + "abc123";
    assert [("v", "abc123"), ("t", "5")] == [("v", "abc123")] + [("t", "5")];
  }
}
