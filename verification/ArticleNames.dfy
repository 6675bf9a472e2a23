/**
 Article paths, routes and artifact names as the release builder and the store
 spell them (article_delivery.article_path, article_release_store).
 */
module ArticleNames {
  import opened Text

  // ----- Character classes -----

  predicate Lower(c: char) { 'a' <= c <= 'z' }
  predicate Upper(c: char) { 'A' <= c <= 'Z' }
  predicate Digit(c: char) { '0' <= c <= '9' }

  /** ^[a-z]{2}(?:-[A-Z]{2})?$ */
  predicate IsLocale(s: string) {
    || (|s| == 2 && Lower(s[0]) && Lower(s[1]))
    || (|s| == 5 && Lower(s[0]) && Lower(s[1]) && s[2] == '-' && Upper(s[3]) && Upper(s[4]))
  }

  predicate SlugChar(c: char) { Lower(c) || Digit(c) || c == '_' || c == '-' }

  /** ^[a-z0-9][a-z0-9_-]{0,179}$ */
  predicate IsSlug(s: string) {
    1 <= |s| <= 180 && (Lower(s[0]) || Digit(s[0])) && forall c :: c in s ==> SlugChar(c)
  }

  predicate KeyChar(c: char) { Lower(c) || Upper(c) || Digit(c) || c == '.' || c == '_' || c == '-' }

  /** ^[A-Za-z0-9][A-Za-z0-9._-]{0,159}$ */
  predicate IsKey(s: string) {
    1 <= |s| <= 160 && (Lower(s[0]) || Upper(s[0]) || Digit(s[0])) && forall c :: c in s ==> KeyChar(c)
  }

  // ----- Paths -----

  function Prefix(locale: string, defaultLocale: string): string {
    if locale == defaultLocale then "" else "/" + locale
  }

  function ArticlePath(locale: string, slug: string, defaultLocale: string): string {
    Prefix(locale, defaultLocale) + "/articles/" + slug + "/"
  }

  /** The address an article had before it was delivered: always with its locale. */
  function SourcePath(locale: string, slug: string): string {
    "/" + locale + "/articles/" + slug + "/"
  }

  function HubPath(locale: string, defaultLocale: string): string {
    Prefix(locale, defaultLocale) + "/articles/"
  }

  // ----- Artifact names -----

  predicate PlainParts(parts: seq<string>) {
    forall p :: p in parts ==> p != "" && p != "." && p != ".."
  }

  function WithoutLocale(parts: seq<string>): seq<string> {
    if parts != [] && IsLocale(parts[0]) then parts[1..] else parts
  }

  /** _valid_artifact_name: a canonical relative path of the article tree, or the sitemap. */
  predicate ValidArtifactName(name: string) {
    if '\\' in name || (name != "" && name[0] == '/') then false
    else if name == "article-sitemap.xml" then true
    else
      var parts := Split(name);
      var tail := WithoutLocale(parts);
      && PlainParts(parts)
      && tail != [] && tail[0] == "articles" && tail[|tail| - 1] == "index.html"
      && (|tail| <= 2 || (|tail| == 3 && IsSlug(tail[1])))
  }

  predicate DoubleSlash(s: string) {
    exists i :: 0 <= i < |s| - 1 && s[i] == '/' && s[i + 1] == '/'
  }

  /** _valid_article_route: the address of one article. */
  predicate ValidArticleRoute(route: string) {
    && route != "" && route[0] == '/' && route[|route| - 1] == '/' && !DoubleSlash(route)
    && '\\' !in route && '?' !in route && '#' !in route && '%' !in route
    && var name := route[1..] + "index.html";
       && ValidArtifactName(name)
       && var tail := WithoutLocale(Split(name));
          |tail| == 3 && tail[0] == "articles"
  }

  /** str.strip('/') */
  function StripLeft(s: string): string {
    if s != "" && s[0] == '/' then StripLeft(s[1..]) else s
  }

  function StripRight(s: string): string {
    if s != "" && s[|s| - 1] == '/' then StripRight(s[..|s| - 1]) else s
  }

  /** The document name the renderer gives a route. */
  function DocumentName(route: string): string {
    StripRight(StripLeft(route)) + "/index.html"
  }

  /** The artifact a read of this route looks for. */
  function RouteName(route: string): string
    requires route != ""
  {
    if route == "/article-sitemap.xml" then route[1..] else route[1..] + "index.html"
  }

  predicate ReadableRoute(route: string) {
    && route != "" && route[0] == '/'
    && (route[|route| - 1] == '/' || route == "/article-sitemap.xml")
    && !DoubleSlash(route) && ValidArtifactName(RouteName(route))
  }

  // ----- Facts about the paths the builder produces -----

  lemma NoSlash(s: string)
    requires IsLocale(s) || IsSlug(s)
    ensures '/' !in s && '\\' !in s && '?' !in s && '#' !in s && '%' !in s && s != "" && s != "." && s != ".."
  {
  }

  /** The fourth character of a path tells how much of it is the locale. */
  lemma PathShape(l: string, t: string, d: string)
    requires IsLocale(l) && "/articles/" <= t
    ensures var p := Prefix(l, d) + t;
            && |p| > 9 && p[0] == '/'
            && p[3] == (if l == d then 't' else if |l| == 2 then '/' else '-')
            && (l != d ==> l == p[1..|l| + 1])
            && t == p[|Prefix(l, d)|..]
  {
    var p := Prefix(l, d) + t;
    assert t[..10] == "/articles/";
    assert t[0] == '/' && t[3] == 't' by { assert t[..10][0] == '/' && t[..10][3] == 't'; }
    if l != d {
      assert p[3] == (if |l| == 2 then t[0] else l[2]);
      assert l == p[1..|l| + 1];
    }
  }

  lemma SamePrefix(l1: string, t1: string, l2: string, t2: string, d: string)
    requires IsLocale(l1) && IsLocale(l2)
    requires "/articles/" <= t1 && "/articles/" <= t2
    requires Prefix(l1, d) + t1 == Prefix(l2, d) + t2
    ensures l1 == l2 && t1 == t2
  {
    PathShape(l1, t1, d);
    PathShape(l2, t2, d);
  }

  function Tail(slug: string): string { "/articles/" + slug + "/" }

  lemma PathParts(l: string, s: string, d: string)
    ensures ArticlePath(l, s, d) == Prefix(l, d) + Tail(s)
    ensures SourcePath(l, s) == "/" + l + Tail(s)
    ensures "/articles/" <= Tail(s) && |Tail(s)| == |s| + 11 && Tail(s)[10..|s| + 10] == s
  {
    assert (Prefix(l, d) + "/articles/" + s) + "/" == Prefix(l, d) + Tail(s);
    assert (("/" + l) + "/articles/" + s) + "/" == "/" + l + Tail(s);
  }

  /** Two articles share an address only when locale and slug are the same: no locale can be taken for the word after it. */
  lemma PathsAreDistinct(l1: string, s1: string, l2: string, s2: string, d: string)
    requires IsLocale(l1) && IsLocale(l2)
    requires ArticlePath(l1, s1, d) == ArticlePath(l2, s2, d)
    ensures l1 == l2 && s1 == s2
  {
    PathParts(l1, s1, d);
    PathParts(l2, s2, d);
    SamePrefix(l1, Tail(s1), l2, Tail(s2), d);
  }

  // ----- Documents and the addresses they are read at -----

  lemma JoinSingle(a: string, b: string)
    requires a != "" && '/' !in a && b != "" && b[0] == '/' && !DoubleSlash(b)
    ensures !DoubleSlash("/" + a + b)
  {
    var s := "/" + a + b;
    forall i | 0 <= i < |s| - 1 ensures !(s[i] == '/' && s[i + 1] == '/') {
      if 1 <= i <= |a| { assert s[i] == a[i - 1]; }
      if i == 0 { assert s[1] == a[0]; }
      if i > |a| { assert s[i] == b[i - |a| - 1] && s[i + 1] == b[i - |a|]; }
    }
  }

  lemma {:induction false} StripLeftOne(m: string)
    requires m != "" && m[0] != '/'
    ensures StripLeft("/" + m) == m
  {
    assert ("/" + m)[1..] == m;
  }

  lemma {:induction false} StripRightOne(m: string)
    requires m != "" && m[|m| - 1] != '/'
    ensures StripRight(m + "/") == m
  {
    assert (m + "/")[..|m|] == m;
  }

  /** A route with one slash at either end is stored under its own name plus index.html. */
  lemma NameOfRoute(m: string)
    requires m != "" && m[0] != '/' && m[|m| - 1] != '/'
    ensures var r := "/" + m + "/"; DocumentName(r) == RouteName(r) == m + "/index.html"
  {
    var r := "/" + m + "/";
    assert r == "/" + (m + "/");
    assert (m + "/")[0] == m[0];
    StripLeftOne(m + "/");
    StripRightOne(m);
    assert r[1..] == m + "/";
    assert r[|r| - 1] == '/';
    assert (m + "/") + "index.html" == m + "/index.html";
  }

  function LocalePart(l: string, d: string): seq<string> {
    if l == d then [] else [l]
  }

  function Place(l: string, n: string, d: string): string {
    if l == d then n else l + "/" + n
  }

  lemma SplitPlaced(l: string, n: string, d: string)
    requires IsLocale(l)
    ensures Split(Place(l, n, d)) == LocalePart(l, d) + Split(n)
  {
    if l != d { SplitHead(l, n); }
  }

  lemma PlacedRoute(l: string, m: string, d: string)
    requires IsLocale(l) && m != "" && m[0] != '/' && m[|m| - 1] != '/'
    ensures var r := Prefix(l, d) + ("/" + m + "/");
            DocumentName(r) == RouteName(r) == Place(l, m + "/index.html", d)
  {
    if l == d {
      NameOfRoute(m);
      assert Prefix(l, d) + ("/" + m + "/") == "/" + m + "/";
    } else {
      var n := l + "/" + m;
      assert Prefix(l, d) + ("/" + m + "/") == "/" + n + "/";
      assert n[|n| - 1] == m[|m| - 1] && n[0] == l[0];
      NameOfRoute(n);
      assert n + "/index.html" == Place(l, m + "/index.html", d);
    }
  }

  /** The hub of a language is an artifact of the store, and its name has two parts after the locale. */
  lemma HubName(l: string, d: string)
    requires IsLocale(l)
    ensures var r := HubPath(l, d);
            && DocumentName(r) == RouteName(r) && ValidArtifactName(DocumentName(r))
            && Split(DocumentName(r)) == LocalePart(l, d) + ["articles", "index.html"]
  {
    HubPlace(l, d);
    SplitTwo("articles", "index.html");
    hide *;
    SplitPlaced(l, "articles" + "/" + "index.html", d);
    NameIsValid(Place(l, "articles" + "/" + "index.html", d), LocalePart(l, d), ["articles", "index.html"]);
  }

  lemma HubPlace(l: string, d: string)
    requires IsLocale(l)
    ensures var r := HubPath(l, d);
            DocumentName(r) == RouteName(r) == Place(l, "articles" + "/" + "index.html", d)
  {
    assert HubPath(l, d) == Prefix(l, d) + ("/" + "articles" + "/");
    hide IsLocale, DocumentName, RouteName, HubPath;
    PlacedRoute(l, "articles", d);
    assert "articles" + "/index.html" == "articles" + "/" + "index.html";
  }

  lemma ArticleName(l: string, s: string, d: string)
    requires IsLocale(l) && IsSlug(s)
    ensures var r := ArticlePath(l, s, d);
            && DocumentName(r) == RouteName(r) && ValidArtifactName(DocumentName(r))
            && Split(DocumentName(r)) == LocalePart(l, d) + ["articles", s, "index.html"]
  {
    NoSlash(s);
    hide IsLocale, DocumentName, RouteName, ValidArtifactName, Split, IsSlug;
    var m := "articles" + "/" + s;
    assert m[|m| - 1] == s[|s| - 1] && s[|s| - 1] in s;
    assert ArticlePath(l, s, d) == Prefix(l, d) + ("/" + m + "/");
    PlacedRoute(l, m, d);
    SlugDocument(s, m);
    SplitPlaced(l, m + "/index.html", d);
    NameIsValid(Place(l, m + "/index.html", d), LocalePart(l, d), ["articles", s, "index.html"]);
  }

  lemma SlugDocument(s: string, m: string)
    requires '/' !in s && m == "articles" + "/" + s
    ensures Split(m + "/index.html") == ["articles", s, "index.html"]
  {
    var a, c := "articles", "index.html";
    assert m + "/index.html" == a + "/" + (s + "/" + c);
    SplitThree(a, s, c);
  }

  lemma NameIsValid(name: string, front: seq<string>, tail: seq<string>)
    requires Split(name) == front + tail
    requires front == [] || (|front| == 1 && IsLocale(front[0]))
    requires tail == ["articles", "index.html"] || (|tail| == 3 && tail == ["articles", tail[1], "index.html"] && IsSlug(tail[1]))
    ensures ValidArtifactName(name)
    ensures WithoutLocale(Split(name)) == tail
  {
    var parts := Split(name);
    forall p | p in parts ensures p != "" && p != "." && p != ".." && '\\' !in p {
      if p in front { NoSlash(p); } else if |tail| == 3 && p == tail[1] { NoSlash(p); }
    }
    if '\\' in name { PartsHoldTheChars(name, '\\'); }
    assert parts[0] != "";
    assert name != "" ==> name[0] != '/';
    if front == [] { assert parts == tail; }
    assert WithoutLocale(parts) == tail;
  }

  /** Every address the builder gives an article is one the store accepts, and is found under its document's name. */
  lemma ArticleIsReadable(l: string, s: string, d: string)
    requires IsLocale(l) && IsSlug(s)
    ensures ValidArticleRoute(ArticlePath(l, s, d)) && ReadableRoute(ArticlePath(l, s, d))
  {
    var r := ArticlePath(l, s, d);
    ArticleName(l, s, d);
    NoSlash(l);
    NoSlash(s);
    PathParts(l, s, d);
    assert r[|r| - 1] == '/';
    RouteIsPlain(l, s, d);
    assert Split(RouteName(r)) == LocalePart(l, d) + ["articles", s, "index.html"];
    if l == d { assert LocalePart(l, d) + ["articles", s, "index.html"] == ["articles", s, "index.html"]; }
    else { assert (LocalePart(l, d) + ["articles", s, "index.html"])[1..] == ["articles", s, "index.html"]; }
    assert r != "/article-sitemap.xml" by { assert "/article-sitemap.xml"[19] == 'l'; }
  }

  lemma RouteIsPlain(l: string, s: string, d: string)
    requires IsLocale(l) && IsSlug(s)
    ensures var r := ArticlePath(l, s, d);
            r[0] == '/' && !DoubleSlash(r) && '\\' !in r && '?' !in r && '#' !in r && '%' !in r
  {
    NoSlash(l);
    NoSlash(s);
    var t := "/" + "articles" + ("/" + s + "/");
    assert ArticlePath(l, s, d) == Prefix(l, d) + t;
    TailIsPlain(s, t);
    hide IsLocale, IsSlug, DoubleSlash, ArticlePath;
    if l != d {
      JoinSingle(l, t);
    } else {
      assert Prefix(l, d) + t == t;
    }
  }

  lemma TailIsPlain(s: string, t: string)
    requires IsSlug(s) && t == "/" + "articles" + ("/" + s + "/")
    ensures t != "" && t[0] == '/' && !DoubleSlash(t) && '\\' !in t && '?' !in t && '#' !in t && '%' !in t
  {
    NoSlash(s);
    assert !DoubleSlash("/");
    hide IsSlug, DoubleSlash;
    JoinSingle(s, "/");
    JoinSingle("articles", "/" + s + "/");
  }

  /** An address with its locale spelled out is the address under some other default. */
  lemma SourceIsReadable(l: string, s: string)
    requires IsLocale(l) && IsSlug(s)
    ensures ValidArticleRoute(SourcePath(l, s))
  {
    assert SourcePath(l, s) == ArticlePath(l, s, "");
    ArticleIsReadable(l, s, "");
  }

  lemma HubNamesAreDistinct(l1: string, l2: string, d: string)
    requires IsLocale(l1) && IsLocale(l2)
    requires DocumentName(HubPath(l1, d)) == DocumentName(HubPath(l2, d))
    ensures l1 == l2
  {
    HubName(l1, d);
    HubName(l2, d);
    SameFront(l1, ["articles", "index.html"], l2, ["articles", "index.html"], d);
  }

  lemma ArticleNamesAreDistinct(l1: string, s1: string, l2: string, s2: string, d: string)
    requires IsLocale(l1) && IsLocale(l2) && IsSlug(s1) && IsSlug(s2)
    requires DocumentName(ArticlePath(l1, s1, d)) == DocumentName(ArticlePath(l2, s2, d))
    ensures l1 == l2 && s1 == s2
  {
    ArticleName(l1, s1, d);
    ArticleName(l2, s2, d);
    SameFront(l1, ["articles", s1, "index.html"], l2, ["articles", s2, "index.html"], d);
  }

  lemma HubIsNoArticle(l1: string, l2: string, s: string, d: string)
    requires IsLocale(l1) && IsLocale(l2) && IsSlug(s)
    ensures DocumentName(HubPath(l1, d)) != DocumentName(ArticlePath(l2, s, d))
  {
    HubName(l1, d);
    ArticleName(l2, s, d);
    var hub, article := LocalePart(l1, d) + ["articles", "index.html"], LocalePart(l2, d) + ["articles", s, "index.html"];
    assert |hub| == |article| ==> hub[0] == l1 && article[0] == "articles";
    assert "articles"[2] == 't';
  }

  lemma SameFront(l1: string, t1: seq<string>, l2: string, t2: seq<string>, d: string)
    requires IsLocale(l1) && IsLocale(l2)
    requires |t1| == |t2| > 0
    requires LocalePart(l1, d) + t1 == LocalePart(l2, d) + t2
    ensures l1 == l2 && t1 == t2
  {
    var p1, p2 := LocalePart(l1, d) + t1, LocalePart(l2, d) + t2;
    assert |p1| == |p2|;
    assert l1 != d && l2 != d ==> l1 == p1[0] && l2 == p2[0];
    assert t1 == p1[|LocalePart(l1, d)|..] && t2 == p2[|LocalePart(l2, d)|..];
  }

  // ----- Which names and routes are valid -----

  function Joined(parts: seq<string>): string {
    if parts == [] then "" else if |parts| == 1 then parts[0] else parts[0] + "/" + Joined(parts[1..])
  }

  lemma JoinedFrom(a: string, rest: seq<string>)
    requires rest != []
    ensures Joined([""] + rest) == "/" + Joined(rest)
    ensures Joined([a + rest[0]] + rest[1..]) == a + Joined(rest)
  {
    assert ([""] + rest)[1..] == rest;
    assert ([a + rest[0]] + rest[1..])[1..] == rest[1..];
  }

  /** Splitting loses nothing: the parts with slashes between them are the text. */
  lemma {:induction false} SplitJoins(s: string)
    ensures Joined(Split(s)) == s
  {
    if s != "" {
      SplitJoins(s[1..]);
      JoinedFrom([s[0]], Split(s[1..]));
      hide Joined;
    }
  }

  /** The rest stands alone or after a locale. */
  ghost predicate Localised(n: string, rest: string) {
    n == rest || exists l :: IsLocale(l) && n == l + "/" + rest
  }

  lemma FrontLocalises(n: string, parts: seq<string>)
    requires Joined(parts) == n && WithoutLocale(parts) != []
    ensures Localised(n, Joined(WithoutLocale(parts)))
  {
    if IsLocale(parts[0]) { assert n == parts[0] + "/" + Joined(parts[1..]); }
    hide IsLocale;
  }

  lemma JoinedThree(a: string, b: string, c: string)
    ensures Joined([b, c]) == b + "/" + c
    ensures Joined([a, b, c]) == a + "/" + (b + "/" + c)
  {
    assert [b, c][1..] == [c] && [a, b, c][1..] == [b, c];
  }

  lemma JoinedForms(tail: seq<string>)
    ensures tail == ["articles", "index.html"] ==> Joined(tail) == "articles/index.html"
    ensures |tail| == 3 && tail[0] == "articles" && tail[2] == "index.html" ==> Joined(tail) == "articles/" + tail[1] + "/index.html"
  {
    hide *;
    if |tail| == 3 && tail[0] == "articles" && tail[2] == "index.html" {
      assert tail == ["articles", tail[1], "index.html"];
      JoinedThree("articles", tail[1], "index.html");
      assert "articles" + "/" + (tail[1] + "/" + "index.html") == "articles/" + tail[1] + "/index.html";
    } else {
      JoinedThree("", "articles", "index.html");
      assert "articles" + "/" + "index.html" == "articles/index.html";
    }
  }

  lemma TailForms(n: string)
    requires ValidArtifactName(n) && n != "article-sitemap.xml"
    ensures var tail := WithoutLocale(Split(n)); tail == ["articles", "index.html"] || (|tail| == 3 && tail[0] == "articles" && IsSlug(tail[1]) && tail[2] == "index.html")
  {
    var tail := WithoutLocale(Split(n));
    hide Split, IsSlug, WithoutLocale, PlainParts;
    assert |tail| != 1 by { assert "articles"[0] != "index.html"[0]; }
  }

  lemma NameForms(n: string)
    requires ValidArtifactName(n) && n != "article-sitemap.xml"
    ensures var tail := WithoutLocale(Split(n));
            || (tail == ["articles", "index.html"] && Localised(n, "articles/index.html"))
            || (|tail| == 3 && IsSlug(tail[1]) && Localised(n, "articles/" + tail[1] + "/index.html"))
  {
    TailForms(n);
    hide *;
    SplitJoins(n);
    FrontLocalises(n, Split(n));
    JoinedForms(WithoutLocale(Split(n)));
  }

  lemma LocalisedIsValid(n: string, rest: string, tail: seq<string>)
    requires Localised(n, rest) && Split(rest) == tail
    requires tail == ["articles", "index.html"] || (|tail| == 3 && tail == ["articles", tail[1], "index.html"] && IsSlug(tail[1]))
    ensures ValidArtifactName(n) && WithoutLocale(Split(n)) == tail
  {
    hide ValidArtifactName, IsSlug, IsLocale, WithoutLocale, Split;
    if n == rest {
      assert Split(n) == [] + tail;
      NameIsValid(n, [], tail);
    } else {
      var l :| IsLocale(l) && n == l + "/" + rest;
      NoSlash(l);
      SplitHead(l, rest);
      NameIsValid(n, [l], tail);
    }
  }

  /** The files of a release are its sitemap, the hubs and the articles, with or without a locale in front, and nothing else. */
  lemma ArtifactNamesExactly(n: string)
    ensures ValidArtifactName(n) <==>
              || n == "article-sitemap.xml" || Localised(n, "articles/index.html")
              || exists s :: IsSlug(s) && Localised(n, "articles/" + s + "/index.html")
  {
    hide Localised, IsSlug, Split, WithoutLocale;
    if Localised(n, "articles/index.html") {
      SplitTwo("articles", "index.html");
      assert "articles/index.html" == "articles" + "/" + "index.html";
      LocalisedIsValid(n, "articles/index.html", ["articles", "index.html"]);
    }
    if s :| IsSlug(s) && Localised(n, "articles/" + s + "/index.html") {
      NoSlash(s);
      SlugDocument(s, "articles" + "/" + s);
      assert "articles" + "/" + s == "articles/" + s;
      LocalisedIsValid(n, "articles/" + s + "/index.html", ["articles", s, "index.html"]);
    }
    if ValidArtifactName(n) && n != "article-sitemap.xml" { NameForms(n); }
    if n == "article-sitemap.xml" { assert '\\' !in n; }
  }

  /** A redirect may name the address of an article, with or without a locale in front, and nothing else. */
  lemma RoutesExactly(r: string)
    ensures ValidArticleRoute(r) <==> r != "" && r[0] == '/' && exists s :: IsSlug(s) && Localised(r[1..], "articles/" + s + "/")
  {
    if ValidArticleRoute(r) { RouteForm(r); }
    if r != "" && r[0] == '/' {
      if s :| IsSlug(s) && Localised(r[1..], "articles/" + s + "/") { FormIsRoute(r, s); }
    }
    hide *;
  }

  lemma RouteForm(r: string)
    requires ValidArticleRoute(r)
    ensures exists s :: IsSlug(s) && Localised(r[1..], "articles/" + s + "/")
  {
    var n := r[1..] + "index.html";
    assert ValidArtifactName(n) && |WithoutLocale(Split(n))| == 3;
    hide *;
    SitemapIsNoIndex(n, r[1..]);
    NameForms(n);
    FormWithoutIndex(n, r[1..], WithoutLocale(Split(n))[1]);
  }

  lemma FormWithoutIndex(n: string, a: string, s: string)
    requires n == a + "index.html" && Localised(n, "articles/" + s + "/index.html")
    ensures Localised(a, "articles/" + s + "/")
  {
    var m := "articles/" + s + "/";
    assert "articles/" + s + "/index.html" == m + "index.html";
    hide IsLocale;
    if n == m + "index.html" {
      SameEnd(a, m, "index.html");
    } else {
      var l :| IsLocale(l) && n == l + "/" + (m + "index.html");
      assert n == (l + "/" + m) + "index.html";
      SameEnd(a, l + "/" + m, "index.html");
    }
  }

  lemma SameEnd(a: string, b: string, e: string)
    requires a + e == b + e
    ensures a == b
  {
    assert (a + e)[..|a|] == a && (b + e)[..|b|] == b;
  }

  lemma SitemapIsNoIndex(n: string, a: string)
    requires n == a + "index.html"
    ensures n != "article-sitemap.xml"
  {
    assert n[|n| - 3] == "index.html"[7] == 't';
    assert "article-sitemap.xml"[16] == 'x';
  }

  lemma FormIsRoute(r: string, s: string)
    requires r != "" && r[0] == '/' && IsSlug(s) && Localised(r[1..], "articles/" + s + "/")
    ensures ValidArticleRoute(r)
  {
    var m := "articles/" + s + "/";
    assert r == "/" + r[1..];
    if r[1..] == m {
      assert IsLocale("en");
      assert r == ArticlePath("en", s, "en") by { assert "" + "/articles/" + s + "/" == "/" + m; }
      ArticleIsReadable("en", s, "en");
    } else {
      var l :| IsLocale(l) && r[1..] == l + "/" + m;
      assert r == SourcePath(l, s) by { assert "/" + l + "/articles/" + s + "/" == "/" + (l + "/" + m); }
      SourceIsReadable(l, s);
    }
    hide *;
  }
}
