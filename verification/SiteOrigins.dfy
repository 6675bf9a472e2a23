/**
 The path part of an absolute address, as urllib.parse.urlsplit takes it apart,
 and the origins from which the builder's addresses can be taken apart again.
 */
module SiteOrigins {

  const HTTPS := "https://"

  /** s up to the first of these characters. */
  function Until(s: string, stops: set<char>): (t: string)
    ensures |t| <= |s| && t == s[..|t|] && (forall c :: c in t ==> c !in stops)
    ensures |t| < |s| ==> s[|t|] in stops
  {
    if s == "" || s[0] in stops then "" else [s[0]] + Until(s[1..], stops)
  }

  lemma {:induction false} UntilThere(s: string, t: string, stops: set<char>)
    requires t != "" && t[0] in stops && forall c :: c in s ==> c !in stops
    ensures Until(s + t, stops) == s
  {
    if s == "" {
      assert s + t == t;
    } else {
      assert (s + t)[1..] == s[1..] + t;
      assert s[0] in s;
      UntilThere(s[1..], t, stops);
    }
  }

  lemma {:induction false} UntilEarlier(s: string, t: string, stops: set<char>)
    requires exists c :: c in s && c in stops
    ensures Until(s + t, stops) == Until(s, stops)
  {
    assert s != "";
    if s[0] !in stops {
      assert (s + t)[1..] == s[1..] + t;
      UntilEarlier(s[1..], t, stops);
    }
  }

  lemma {:induction false} UntilWhole(s: string, stops: set<char>)
    requires forall c :: c in s ==> c !in stops
    ensures Until(s, stops) == s
  {
    if s != "" {
      assert s[0] in s;
      UntilWhole(s[1..], stops);
    }
  }

  /** What follows the authority, without query and fragment. */
  function PathPart(rest: string): string {
    Until(rest[|Until(rest, {'/', '?', '#'})|..], {'?', '#'})
  }

  /** urlsplit(url).path of an https address. */
  function UrlPath(url: string): string {
    if HTTPS <= url then PathPart(url[|HTTPS|..]) else ""
  }

  /** What _public_origin returns has an authority, no path of its own, and no slash at its end. */
  predicate AcceptedOrigin(origin: string) {
    HTTPS < origin && UrlPath(origin) in {"", "/"} && origin[|origin| - 1] != '/'
  }

  predicate PlainOrigin(origin: string) {
    '?' !in origin && '#' !in origin
  }

  predicate PlainPath(path: string) {
    |path| > 1 && path[0] == '/' && '?' !in path && '#' !in path
  }

  lemma PlainGivesPath(origin: string, path: string)
    requires AcceptedOrigin(origin) && PlainOrigin(origin) && PlainPath(path)
    ensures UrlPath(origin + path) == path
  {
    var rest := origin[|HTTPS|..];
    var host := Until(rest, {'/', '?', '#'});
    var tail := rest[|host|..];
    forall c | c in tail ensures c != '?' && c != '#' { assert c in origin; }
    UntilWhole(tail, {'?', '#'});
    assert tail == "";
    assert host == rest;
    assert (origin + path)[|HTTPS|..] == rest + path;
    UntilThere(rest, path, {'/', '?', '#'});
    assert (rest + path)[|rest|..] == path;
    UntilWhole(path, {'?', '#'});
  }

  lemma PathPartStays(rest: string, path: string)
    requires exists c :: c in rest && c in {'?', '#'}
    ensures PathPart(rest + path) == PathPart(rest)
  {
    hide Until;
    var stops := {'/', '?', '#'};
    var host := Until(rest, stops);
    var tail := rest[|host|..];
    var c :| c in rest && c in {'?', '#'};
    assert rest == host + tail;
    assert c in tail && c in stops;
    UntilEarlier(rest, path, stops);
    assert (rest + path)[|host|..] == tail + path;
    UntilEarlier(tail, path, {'?', '#'});
  }

  lemma UrlPathOf(rest: string)
    ensures UrlPath(HTTPS + rest) == PathPart(rest)
  {
    assert (HTTPS + rest)[|HTTPS|..] == rest;
  }

  lemma MarkIsBehindScheme(origin: string, rest: string)
    requires origin == HTTPS + rest && !PlainOrigin(origin)
    ensures exists c :: c in rest && c in {'?', '#'}
  {
    var c :| c in origin && c in {'?', '#'};
    assert c in rest;
  }

  lemma OtherwiseNoPath(origin: string, path: string)
    requires AcceptedOrigin(origin) && !PlainOrigin(origin)
    ensures UrlPath(origin + path) == UrlPath(origin)
  {
    var rest := origin[|HTTPS|..];
    assert origin == HTTPS + rest;
    hide *;
    MarkIsBehindScheme(origin, rest);
    PathPartStays(rest, path);
    assert origin + path == HTTPS + (rest + path);
    UrlPathOf(rest);
    UrlPathOf(rest + path);
  }

  /**
   The path of an address of this site can be read back exactly when the origin
   carries no question mark and no hash; otherwise every address has the same
   path, which is empty or a slash.
   */
  lemma UrlPathExactly(origin: string, path: string)
    requires AcceptedOrigin(origin) && PlainPath(path)
    ensures UrlPath(origin + path) == path <==> PlainOrigin(origin)
    ensures !PlainOrigin(origin) ==> UrlPath(origin + path) in {"", "/"}
  {
    if PlainOrigin(origin) { PlainGivesPath(origin, path); } else { OtherwiseNoPath(origin, path); }
  }

  /** Such origins exist: an empty query behind any host passes the check of the source, and every path is lost. */
  lemma EmptyQueryIsAccepted(host: string, path: string)
    requires host != "" && forall c :: c in host ==> c !in {'/', '?', '#'}
    ensures var o := HTTPS + host + "?"; AcceptedOrigin(o) && !PlainOrigin(o) && UrlPath(o + path) == ""
  {
    var o, rest := HTTPS + host + "?", host + "?";
    assert o[|o| - 1] == '?' && o[|HTTPS|..] == rest;
    UntilThere(host, "?", {'/', '?', '#'});
    assert rest[|host|..] == "?" && PathPart(rest) == "";
    hide PathPart;
    assert HTTPS <= o;
    OtherwiseNoPath(o, path);
  }
}
