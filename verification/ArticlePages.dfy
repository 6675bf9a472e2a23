/**
 The document map and the link map of the renderer
 (article_rendering.render_article_documents): which page is stored under which
 name, and where a link to another article leads in each language.
 */
module ArticlePages {
  import opened Wrappers
  import opened Digests
  import opened Text
  import opened ArticleNames
  import opened ArticleRelease
  import opened ArticleLinks
  import opened SiteOrigins

  /** What a page is made from: its language, its article (or none, for the hub) and the link map its body is rendered with. */
  datatype Page = Page(language: string, row: Option<Document>, links: map<string, string>)

  // ----- Links -----

  ghost function Resolved(p: Payload, a: string): string {
    if a in p.redirects then p.redirects[a] else a
  }

  ghost predicate Knows(p: Payload, language: string, x: Document) {
    x in p.articles && language in x.alternates
  }

  /** In this language, a link to `a` leads to `target`: `a` is, or redirects to, an article with a translation there. */
  ghost predicate LinksTo(p: Payload, language: string, a: string, target: string) {
    exists x :: Knows(p, language, x) && x.draft.path == Resolved(p, a) && target == UrlPath(x.alternates[language])
  }

  lemma KnownOrigin(p: Payload, x: Document, language: string)
    requires WellLinked(p) && x in p.articles && language in Codes(p.locales) && language in x.alternates
    ensures Knows(p, language, x)
    ensures exists y :: y in p.articles && y.draft.language == language && y.draft.contentKey == x.draft.contentKey
                        && x.alternates[language] == p.origin + y.draft.path
  {
    hide WellAddressed, OneHop, Complement, SpeaksLocales;
    assert NamesTranslations(p, x);
    assert HasTranslation(p, x.draft.contentKey, language);
    var y :| y in p.articles && y.draft.contentKey == x.draft.contentKey && y.draft.language == language;
    assert x.alternates[language] == p.origin + y.draft.path;
  }

  lemma OneAtAnAddress(p: Payload, x: Document, y: Document)
    requires WellLinked(p) && x in p.articles && y in p.articles && x.draft.path == y.draft.path
    ensures x == y
  {
    hide OneHop, Complement, SpeaksLocales, Translated;
    assert Ascending(PathsOf(p.articles));
    var i :| 0 <= i < |p.articles| && p.articles[i] == x;
    var j :| 0 <= j < |p.articles| && p.articles[j] == y;
    var paths := PathsOf(p.articles);
    BeforeTotal(paths[i], paths[j]);
  }

  lemma AddressIsPlain(l: string, s: string, d: string)
    requires IsLocale(l) && IsSlug(s)
    ensures PlainPath(ArticlePath(l, s, d))
  {
    NoSlash(l);
    NoSlash(s);
    hide IsLocale, IsSlug;
    assert '?' !in "/articles/" && '#' !in "/articles/";
  }

  /**
   A rewritten link names a published translation of the very article it named,
   and leads to it exactly when the site's origin is plain; otherwise every such
   link leads to no article at all.
   */
  lemma LinksReachTranslations(p: Payload, language: string, a: string, target: string)
    requires WellLinked(p) && AcceptedOrigin(p.origin) && language in Codes(p.locales) && LinksTo(p, language, a, target)
    ensures exists x, y :: x in p.articles && y in p.articles && x.draft.path == Resolved(p, a)
                           && y.draft.contentKey == x.draft.contentKey && y.draft.language == language
                           && (y.draft.path == target <==> PlainOrigin(p.origin))
    ensures PlainOrigin(p.origin) ==> target in Addresses(p) && target !in p.redirects
    ensures !PlainOrigin(p.origin) ==> target in {"", "/"}
  {
    var x :| Knows(p, language, x) && x.draft.path == Resolved(p, a) && target == UrlPath(x.alternates[language]);
    KnownOrigin(p, x, language);
    var y :| y in p.articles && y.draft.language == language && y.draft.contentKey == x.draft.contentKey
             && x.alternates[language] == p.origin + y.draft.path;
    var s := SlugOf(p, y);
    AddressIsPlain(language, s, p.defaultLocale);
    UrlPathExactly(p.origin, y.draft.path);
    hide WellAddressed, Complement, SpeaksLocales, Translated, UrlPath, PlainOrigin, PlainPath, ArticlePath, AcceptedOrigin;
    assert OneHop(p);
  }

  /** article_links: every published address first, then every redirect to one. */
  method BuildLinks(p: Payload, language: string) returns (links: map<string, string>)
    requires WellLinked(p) && language in Codes(p.locales)
    ensures forall a, t :: (a in links && links[a] == t) <==> LinksTo(p, language, a, t)
  {
    hide *;
    var direct := DirectLinks(p, language);
    AliasesAreNew(p, direct.Keys);
    links := AliasLinks(p.redirects, direct);
    LinksAreAll(p, language, direct, links);
  }

  method AliasLinks(redirects: map<string, string>, direct: map<string, string>) returns (links: map<string, string>)
    requires forall a :: a in redirects ==> a !in direct && redirects[a] !in redirects
    ensures forall a :: a in direct ==> a in links && links[a] == direct[a]
    ensures forall a :: a in redirects && redirects[a] in direct ==> a in links && links[a] == direct[redirects[a]]
    ensures forall a :: a in links ==> a in direct || (a in redirects && redirects[a] in direct)
  {
    links := direct;
    var order := Sorted(redirects.Keys);
    hide Ascending;
    var i := 0;
    while i < |order|
      invariant 0 <= i <= |order|
      invariant forall a :: a in direct ==> a in links && links[a] == direct[a]
      invariant forall k :: 0 <= k < i && redirects[order[k]] in direct ==> order[k] in links && links[order[k]] == direct[redirects[order[k]]]
      invariant forall a :: a in links ==> a in direct || (a in redirects && redirects[a] in direct)
    {
      assert order[i] in order;
      var destination := redirects[order[i]];
      if destination in links {
        links := links[order[i] := links[destination]];
      }
      i := i + 1;
    }
    forall a | a in redirects ensures exists k :: 0 <= k < |order| && order[k] == a { assert a in order; }
  }

  lemma AliasesAreNew(p: Payload, paths: set<string>)
    requires WellLinked(p) && paths <= Addresses(p)
    ensures forall a :: a in p.redirects ==> a !in paths && p.redirects[a] !in p.redirects
  {
    hide WellAddressed, Complement, SpeaksLocales, Translated;
    assert OneHop(p);
  }

  ghost predicate IsDirect(p: Payload, language: string, a: string, t: string) {
    exists x :: Knows(p, language, x) && x.draft.path == a && t == UrlPath(x.alternates[language])
  }

  method DirectLinks(p: Payload, language: string) returns (links: map<string, string>)
    requires WellLinked(p) && language in Codes(p.locales)
    ensures forall a, t :: (a in links && links[a] == t) <==> IsDirect(p, language, a, t)
    ensures links.Keys <= Addresses(p)
  {
    hide WellLinked, PathsOf, Codes, Addresses, IsDirect;
    links := map[];
    var i := 0;
    while i < |p.articles|
      invariant 0 <= i <= |p.articles|
      invariant forall k :: 0 <= k < i && Knows(p, language, p.articles[k]) ==>
                  p.articles[k].draft.path in links && links[p.articles[k].draft.path] == UrlPath(p.articles[k].alternates[language])
      invariant forall a :: a in links ==> exists k :: 0 <= k < i && Knows(p, language, p.articles[k]) && p.articles[k].draft.path == a
    {
      var source := p.articles[i];
      assert source in p.articles;
      if language in source.alternates {
        KnownOrigin(p, source, language);
        forall k | 0 <= k < i && p.articles[k].draft.path == source.draft.path ensures p.articles[k] == source {
          OneAtAnAddress(p, p.articles[k], source);
        }
        links := links[source.draft.path := UrlPath(source.alternates[language])];
      }
      i := i + 1;
    }
    DirectAreAll(p, language, links);
  }

  lemma DirectAreAll(p: Payload, language: string, links: map<string, string>)
    requires WellLinked(p)
    requires forall k :: 0 <= k < |p.articles| && Knows(p, language, p.articles[k]) ==>
               p.articles[k].draft.path in links && links[p.articles[k].draft.path] == UrlPath(p.articles[k].alternates[language])
    requires forall a :: a in links ==> exists k :: 0 <= k < |p.articles| && Knows(p, language, p.articles[k]) && p.articles[k].draft.path == a
    ensures forall a, t :: (a in links && links[a] == t) <==> IsDirect(p, language, a, t)
    ensures links.Keys <= Addresses(p)
  {
    hide WellLinked;
    forall a, t ensures (a in links && links[a] == t) <==> IsDirect(p, language, a, t) {
      if a in links && links[a] == t {
        var k :| 0 <= k < |p.articles| && Knows(p, language, p.articles[k]) && p.articles[k].draft.path == a;
        assert IsDirect(p, language, a, t);
      }
      if IsDirect(p, language, a, t) {
        var x :| Knows(p, language, x) && x.draft.path == a && t == UrlPath(x.alternates[language]);
        var k :| 0 <= k < |p.articles| && p.articles[k] == x;
        assert p.articles[k].draft.path in links;
      }
    }
    forall a | a in links ensures a in Addresses(p) {
      var k :| 0 <= k < |p.articles| && Knows(p, language, p.articles[k]) && p.articles[k].draft.path == a;
    }
  }

  lemma LinksAreAll(p: Payload, language: string, direct: map<string, string>, links: map<string, string>)
    requires WellLinked(p) && direct.Keys <= Addresses(p)
    requires forall a, t :: (a in direct && direct[a] == t) <==> IsDirect(p, language, a, t)
    requires forall a :: a in direct ==> a in links && links[a] == direct[a]
    requires forall a :: a in p.redirects && p.redirects[a] in direct ==> a in links && links[a] == direct[p.redirects[a]]
    requires forall a :: a in links ==> a in direct || (a in p.redirects && p.redirects[a] in direct)
    ensures forall a, t :: (a in links && links[a] == t) <==> LinksTo(p, language, a, t)
  {
    AliasesAreNew(p, direct.Keys);
    hide WellLinked, Knows, UrlPath;
    forall a, t ensures (a in links && links[a] == t) <==> LinksTo(p, language, a, t) {
      assert LinksTo(p, language, a, t) <==> IsDirect(p, language, Resolved(p, a), t);
    }
  }

  // ----- Documents -----

  ghost predicate HasLinks(p: Payload, page: Page) {
    forall a, t :: (a in page.links && page.links[a] == t) <==> LinksTo(p, page.language, a, t)
  }

  /** A page of the release and the route it is rendered for: the hub of a language, or an article in its own language. */
  ghost predicate IsPage(p: Payload, route: string, page: Page) {
    && page.language in Codes(p.locales) && HasLinks(p, page)
    && match page.row
       case None => route == HubPath(page.language, p.defaultLocale)
       case Some(x) => x in p.articles && x.draft.language == page.language && route == x.draft.path
  }

  lemma LinksAreUnique(p: Payload, g: Page, h: Page)
    requires HasLinks(p, g) && HasLinks(p, h) && g.language == h.language
    ensures g.links == h.links
  {
    forall a ensures a in g.links <==> a in h.links {
      if a in g.links { assert LinksTo(p, g.language, a, g.links[a]); }
      if a in h.links { assert LinksTo(p, h.language, a, h.links[a]); }
    }
    forall a | a in g.links ensures g.links[a] == h.links[a] {
      assert LinksTo(p, g.language, a, g.links[a]);
    }
  }

  lemma SlugOf(p: Payload, x: Document) returns (s: string)
    requires WellLinked(p) && x in p.articles
    ensures IsSlug(s) && x.draft.path == ArticlePath(x.draft.language, s, p.defaultLocale)
    ensures IsLocale(x.draft.language)
  {
    hide OneHop, Translated, Complement;
    assert WellAddressed(p) && SpeaksLocales(p);
    s :| IsSlug(s) && x.draft.path == ArticlePath(x.draft.language, s, p.defaultLocale);
  }

  lemma SpokenLocale(p: Payload, c: string)
    requires WellLinked(p) && c in Codes(p.locales)
    ensures IsLocale(c)
  {
    hide OneHop, Translated, Complement, WellAddressed;
    assert SpeaksLocales(p);
  }

  /** No two pages of a release are stored under one name, so none overwrites another. */
  lemma PageNamesAreDistinct(p: Payload, r: string, g: Page, t: string, h: Page)
    requires WellLinked(p) && IsPage(p, r, g) && IsPage(p, t, h) && DocumentName(r) == DocumentName(t)
    ensures r == t && g == h
  {
    var d := p.defaultLocale;
    SpokenLocale(p, g.language);
    SpokenLocale(p, h.language);
    hide HasLinks, WellLinked, DocumentName, HubPath, ArticlePath, IsLocale, IsSlug;
    if g.row.Some? {
      var s := SlugOf(p, g.row.value);
      if h.row.Some? {
        var u := SlugOf(p, h.row.value);
        ArticleNamesAreDistinct(g.language, s, h.language, u, d);
        OneAtAnAddress(p, g.row.value, h.row.value);
      } else {
        HubIsNoArticle(h.language, g.language, s, d);
      }
    } else if h.row.Some? {
      var u := SlugOf(p, h.row.value);
      HubIsNoArticle(g.language, h.language, u, d);
    } else {
      HubNamesAreDistinct(g.language, h.language, d);
    }
    LinksAreUnique(p, g, h);
  }

  /** Every page is stored under a name the release store accepts, and a read of its route looks for that name. */
  lemma PageNameIsValid(p: Payload, route: string, page: Page)
    requires WellLinked(p) && IsPage(p, route, page)
    ensures route != "" && ValidArtifactName(DocumentName(route)) && DocumentName(route) == RouteName(route)
    ensures DocumentName(route) != "article-sitemap.xml"
    ensures page.row.Some? ==> ReadableRoute(route)
  {
    var d := p.defaultLocale;
    SpokenLocale(p, page.language);
    hide HasLinks, WellLinked, IsSlug, IsLocale, ValidArtifactName, DocumentName, RouteName, Split;
    match page.row
    case None =>
      HubName(page.language, d);
      NotSitemap(DocumentName(route), LocalePart(page.language, d) + ["articles", "index.html"]);
    case Some(x) =>
      var s := SlugOf(p, x);
      ArticleName(page.language, s, d);
      ArticleIsReadable(page.language, s, d);
      NotSitemap(DocumentName(route), LocalePart(page.language, d) + ["articles", s, "index.html"]);
  }

  lemma NotSitemap(name: string, parts: seq<string>)
    requires Split(name) == parts && |parts| > 1
    ensures name != "article-sitemap.xml"
  {
    SplitAtom("article-sitemap.xml");
  }

  /** The page that belongs to a route has been stored. */
  ghost predicate Stored(documents: map<string, Page>, route: string, page: Page) {
    DocumentName(route) in documents && documents[DocumentName(route)] == page
  }

  ghost predicate OnlyPages(p: Payload, documents: map<string, Page>) {
    forall n :: n in documents ==> exists route :: IsPage(p, route, documents[n]) && DocumentName(route) == n
  }

  ghost predicate Complete(p: Payload, documents: map<string, Page>) {
    forall route, page :: IsPage(p, route, page) ==> Stored(documents, route, page)
  }

  lemma StoreOne(p: Payload, documents: map<string, Page>, route: string, page: Page)
    requires WellLinked(p) && OnlyPages(p, documents) && IsPage(p, route, page)
    ensures OnlyPages(p, documents[DocumentName(route) := page])
    ensures Stored(documents[DocumentName(route) := page], route, page)
    ensures forall r, g :: IsPage(p, r, g) && Stored(documents, r, g) ==> Stored(documents[DocumentName(route) := page], r, g)
  {
    hide IsPage, WellLinked, DocumentName;
    forall r, g | IsPage(p, r, g) && Stored(documents, r, g) ensures Stored(documents[DocumentName(route) := page], r, g) {
      if DocumentName(r) == DocumentName(route) { PageNamesAreDistinct(p, r, g, route, page); }
    }
  }

  method RenderLanguage(p: Payload, language: string, documents: map<string, Page>) returns (more: map<string, Page>)
    requires WellLinked(p) && language in Codes(p.locales) && OnlyPages(p, documents)
    ensures OnlyPages(p, more)
    ensures forall r, g :: IsPage(p, r, g) && (Stored(documents, r, g) || g.language == language) ==> Stored(more, r, g)
  {
    var links := BuildLinks(p, language);
    var hub := Page(language, None, links);
    var route := HubPath(language, p.defaultLocale);
    assert IsPage(p, route, hub);
    StoreOne(p, documents, route, hub);
    more := documents[DocumentName(route) := hub];
    var i := 0;
    while i < |p.articles|
      invariant 0 <= i <= |p.articles|
      invariant OnlyPages(p, more) && Stored(more, route, hub)
      invariant forall r, g :: IsPage(p, r, g) && Stored(documents, r, g) ==> Stored(more, r, g)
      invariant forall k :: 0 <= k < i && p.articles[k].draft.language == language ==>
                  Stored(more, p.articles[k].draft.path, Page(language, Some(p.articles[k]), links))
    {
      more := RenderRow(p, language, links, i, more);
      i := i + 1;
    }
    EveryPageOf(p, language, links, more);
  }

  method RenderRow(p: Payload, language: string, links: map<string, string>, i: nat, documents: map<string, Page>) returns (more: map<string, Page>)
    requires WellLinked(p) && language in Codes(p.locales) && OnlyPages(p, documents) && i < |p.articles|
    requires HasLinks(p, Page(language, None, links))
    ensures OnlyPages(p, more)
    ensures forall r, g :: IsPage(p, r, g) && Stored(documents, r, g) ==> Stored(more, r, g)
    ensures forall k :: 0 <= k < |p.articles| && p.articles[k].draft.language == language ==>
              (k == i || Stored(documents, p.articles[k].draft.path, Page(language, Some(p.articles[k]), links))) ==>
                Stored(more, p.articles[k].draft.path, Page(language, Some(p.articles[k]), links))
    ensures Stored(documents, HubPath(language, p.defaultLocale), Page(language, None, links)) ==>
              Stored(more, HubPath(language, p.defaultLocale), Page(language, None, links))
  {
    hide *;
    var row := p.articles[i];
    more := documents;
    RowsArePages(p, language, links);
    if row.draft.language == language {
      var page := Page(language, Some(row), links);
      StoreOne(p, documents, row.draft.path, page);
      more := documents[DocumentName(row.draft.path) := page];
    }
  }

  lemma RowsArePages(p: Payload, language: string, links: map<string, string>)
    requires HasLinks(p, Page(language, None, links)) && language in Codes(p.locales)
    ensures IsPage(p, HubPath(language, p.defaultLocale), Page(language, None, links))
    ensures forall k :: 0 <= k < |p.articles| && p.articles[k].draft.language == language ==>
              IsPage(p, p.articles[k].draft.path, Page(language, Some(p.articles[k]), links))
  {
    hide LinksTo;
    forall k | 0 <= k < |p.articles| && p.articles[k].draft.language == language
      ensures IsPage(p, p.articles[k].draft.path, Page(language, Some(p.articles[k]), links))
    {
      assert p.articles[k] in p.articles;
    }
  }

  lemma EveryPageOf(p: Payload, language: string, links: map<string, string>, documents: map<string, Page>)
    requires WellLinked(p) && HasLinks(p, Page(language, None, links))
    requires Stored(documents, HubPath(language, p.defaultLocale), Page(language, None, links))
    requires forall k :: 0 <= k < |p.articles| && p.articles[k].draft.language == language ==>
               Stored(documents, p.articles[k].draft.path, Page(language, Some(p.articles[k]), links))
    ensures forall r, g :: IsPage(p, r, g) && g.language == language ==> Stored(documents, r, g)
  {
    hide WellLinked, Stored, HasLinks;
    forall r, g | IsPage(p, r, g) && g.language == language ensures Stored(documents, r, g) {
      LinksAreUnique(p, g, Page(language, None, links));
      if g.row.Some? {
        var k :| 0 <= k < |p.articles| && p.articles[k] == g.row.value;
        assert g == Page(language, Some(p.articles[k]), links);
      }
    }
  }

  /** The renderer stores exactly the pages of the release, each under its own name. */
  method RenderDocuments(p: Payload) returns (documents: map<string, Page>)
    requires WellLinked(p)
    ensures OnlyPages(p, documents) && Complete(p, documents)
  {
    documents := map[];
    var i := 0;
    var codes := Codes(p.locales);
    while i < |codes|
      invariant 0 <= i <= |codes|
      invariant OnlyPages(p, documents)
      invariant forall r, g :: IsPage(p, r, g) && g.language in codes[..i] ==> Stored(documents, r, g)
    {
      assert codes[i] in codes;
      documents := RenderLanguage(p, codes[i], documents);
      assert codes[..i + 1] == codes[..i] + [codes[i]];
      i := i + 1;
    }
    assert codes[..i] == codes;
  }
}
