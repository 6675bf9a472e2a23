/**
 From the builder to the visitor: an accepted release, rendered, staged and
 activated, is served exactly at the addresses of its hubs and articles.
 */
module ArticlePublication {
  import opened Wrappers
  import opened Digests
  import opened ArticleNames
  import opened ArticleRelease
  import Builder = ArticleBuilder
  import opened ArticleLinks
  import Pages = ArticlePages
  import opened ReleaseStore
  import Protocol = ReleaseProtocol
  import Reads = ReleaseReads
  import opened SiteOrigins

  const SITEMAP := "article-sitemap.xml"

  /** The page templates, as a function of what a page is made from. */
  type Renderer = Pages.Page -> string

  function Rendered(pages: map<string, Pages.Page>, render: Renderer): map<string, Bytes> {
    map n | n in pages :: Utf8(render(pages[n]))
  }

  function SnapshotOf(p: Payload, pages: map<string, Pages.Page>, render: Renderer, sitemap: string, source: nat): Snapshot {
    Snapshot(p.siteCode, p.missing != [], source, Rendered(pages, render)[SITEMAP := Utf8(sitemap)], p.redirects)
  }

  ghost predicate IsRendering(p: Payload, pages: map<string, Pages.Page>) {
    WellLinked(p) && Pages.OnlyPages(p, pages) && Pages.Complete(p, pages)
  }

  lemma RedirectsAreRoutes(p: Payload)
    requires WellLinked(p)
    ensures RedirectsOk(p.redirects)
  {
    hide Translated, Complement, ValidArticleRoute, ArticlePath, SourcePath, IsSlug, IsLocale;
    assert OneHop(p) && WellAddressed(p);
    forall a | a in p.redirects ensures ValidArticleRoute(a) && ValidArticleRoute(p.redirects[a]) {
      var l, s :| IsLocale(l) && IsSlug(s) && a == SourcePath(l, s);
      SourceIsReadable(l, s);
      var x :| x in p.articles && x.draft.path == p.redirects[a];
      var u := Pages.SlugOf(p, x);
      ArticleIsReadable(x.draft.language, u, p.defaultLocale);
    }
  }

  lemma NamesAreValid(p: Payload, pages: map<string, Pages.Page>)
    requires IsRendering(p, pages)
    ensures forall n :: n in pages ==> ValidArtifactName(n) && n != SITEMAP
  {
    hide WellLinked, Pages.IsPage, ValidArtifactName, DocumentName, RouteName, ReadableRoute;
    forall n | n in pages ensures ValidArtifactName(n) && n != SITEMAP {
      var route :| Pages.IsPage(p, route, pages[n]) && DocumentName(route) == n;
      Pages.PageNameIsValid(p, route, pages[n]);
    }
  }

  /** A release without gaps, or any release in a preview store, is staged and verifies. */
  lemma ReleaseIsStageable(o: Owner, p: Payload, pages: map<string, Pages.Page>, render: Renderer, sitemap: string, source: nat)
    requires IsRendering(p, pages) && o.siteCode == p.siteCode && (o.preview || p.missing == [])
    ensures var snap := SnapshotOf(p, pages, render, sitemap, source);
            && StageFault(o, snap).None?
            && Intact(o, Protocol.NameOf(o, snap), Folder(Written(ManifestOf(o, snap)), snap.documents))
  {
    RedirectsAreRoutes(p);
    NamesAreValid(p, pages);
    var snap := SnapshotOf(p, pages, render, sitemap, source);
    assert ValidArtifactName(SITEMAP);
    hide IsRendering, ValidArtifactName, ValidArticleRoute;
    WrittenIsComplete(o, snap);
    assert NamesOk(Shas(snap.documents));
    assert RedirectsOk(ManifestOf(o, snap).redirects);
  }

  ghost predicate Serves(s: Protocol.Store, v: Version, f: Folder) {
    Protocol.CurrentIn(s.pointers) == Some(v) && v in s.folders && s.folders[v] == f
  }

  lemma FileIsServed(s: Protocol.Store, v: Version, f: Folder, route: string)
    requires Serves(s, v, f) && ReadableRoute(route) && RouteName(route) in f.files
    ensures Reads.Page(s, route) == Some((f.files[RouteName(route)], Sha(f.files[RouteName(route)])))
  {
    hide ReadableRoute, RouteName;
  }

  lemma PageIsInSnapshot(p: Payload, pages: map<string, Pages.Page>, render: Renderer, sitemap: string, source: nat, route: string, page: Pages.Page)
    requires Pages.Complete(p, pages) && Pages.IsPage(p, route, page)
    requires route != "" && DocumentName(route) == RouteName(route) != SITEMAP
    ensures var documents := SnapshotOf(p, pages, render, sitemap, source).documents;
            RouteName(route) in documents && documents[RouteName(route)] == Utf8(render(page))
  {
    hide Pages.IsPage, DocumentName, RouteName;
    assert Pages.Stored(pages, route, page);
  }

  /** While the release is active, the address of each article answers with the page of that very article. */
  lemma ArticleIsServed(s: Protocol.Store, o: Owner, p: Payload, pages: map<string, Pages.Page>, render: Renderer, sitemap: string, source: nat, x: Document)
    requires IsRendering(p, pages) && x in p.articles
    requires var snap := SnapshotOf(p, pages, render, sitemap, source);
             Serves(s, Protocol.NameOf(o, snap), Folder(Written(ManifestOf(o, snap)), snap.documents))
    ensures exists page :: Pages.IsPage(p, x.draft.path, page) && page.row == Some(x)
                           && Reads.Page(s, x.draft.path) == Some((Utf8(render(page)), Sha(Utf8(render(page)))))
  {
    var route := x.draft.path;
    ArticleHasPage(p, pages, x);
    var page :| Pages.IsPage(p, route, page) && page.row == Some(x);
    Pages.PageNameIsValid(p, route, page);
    PageIsInSnapshot(p, pages, render, sitemap, source, route, page);
    hide *;
    var snap := SnapshotOf(p, pages, render, sitemap, source);
    FileIsServed(s, Protocol.NameOf(o, snap), Folder(Written(ManifestOf(o, snap)), snap.documents), route);
  }

  lemma ArticleHasPage(p: Payload, pages: map<string, Pages.Page>, x: Document)
    requires IsRendering(p, pages) && x in p.articles
    ensures exists page :: Pages.IsPage(p, x.draft.path, page) && page.row == Some(x)
  {
    hide OneHop, Translated, Complement, DocumentName;
    assert WellAddressed(p);
    var language := x.draft.language;
    var hub := LanguageHub(p, pages, language);
    assert Pages.IsPage(p, x.draft.path, Pages.Page(language, Some(x), hub.links));
  }

  lemma LanguageHub(p: Payload, pages: map<string, Pages.Page>, language: string) returns (hub: Pages.Page)
    requires IsRendering(p, pages) && language in Codes(p.locales)
    ensures hub.language == language && Pages.HasLinks(p, hub)
  {
    var links := LinkMap(p, language);
    hub := Pages.Page(language, None, links);
  }

  /** The link map of a language exists: the one the renderer builds. */
  lemma LinkMap(p: Payload, language: string) returns (links: map<string, string>)
    requires WellLinked(p) && language in Codes(p.locales)
    ensures forall a, t :: (a in links && links[a] == t) <==> Pages.LinksTo(p, language, a, t)
  {
    var known := Addresses(p) + p.redirects.Keys;
    links := map a | a in known && Leads(p, language, a) :: Target(p, language, a);
    forall a, t ensures (a in links && links[a] == t) <==> Pages.LinksTo(p, language, a, t) {
      if Pages.LinksTo(p, language, a, t) {
        LinkIsKnown(p, language, a, t);
        LinkIsUnique(p, language, a, t, Target(p, language, a));
      }
    }
  }

  ghost predicate Leads(p: Payload, language: string, a: string) { exists t :: Pages.LinksTo(p, language, a, t) }

  ghost function Target(p: Payload, language: string, a: string): string
    requires Leads(p, language, a)
  {
    var t :| Pages.LinksTo(p, language, a, t);
    t
  }

  lemma LinkIsKnown(p: Payload, language: string, a: string, t: string)
    requires Pages.LinksTo(p, language, a, t)
    ensures a in Addresses(p) + p.redirects.Keys
  {
  }

  lemma LinkIsUnique(p: Payload, language: string, a: string, t: string, u: string)
    requires WellLinked(p) && Pages.LinksTo(p, language, a, t) && Pages.LinksTo(p, language, a, u)
    ensures t == u
  {
    hide WellLinked;
    var x :| Pages.Knows(p, language, x) && x.draft.path == Pages.Resolved(p, a) && t == UrlPath(x.alternates[language]);
    var y :| Pages.Knows(p, language, y) && y.draft.path == Pages.Resolved(p, a) && u == UrlPath(y.alternates[language]);
    Pages.OneAtAnAddress(p, x, y);
  }

  lemma RouteNameFixesRoute(r: string, t: string)
    requires r != "" && t != "" && r[0] == '/' && t[0] == '/'
    requires RouteName(r) == RouteName(t) != SITEMAP
    ensures r == t
  {
    assert r == "/" + r[1..] && t == "/" + t[1..];
    var n := RouteName(r);
    assert r[1..] == n[..|n| - 10] && t[1..] == n[..|n| - 10];
  }

  /** Nothing else is served: what is not a hub, an article or the sitemap of the active release has no page. */
  lemma OnlyThisReleaseIsServed(s: Protocol.Store, o: Owner, p: Payload, pages: map<string, Pages.Page>, render: Renderer, sitemap: string, source: nat, route: string)
    requires IsRendering(p, pages) && Reads.Page(s, route).Some?
    requires var snap := SnapshotOf(p, pages, render, sitemap, source);
             Serves(s, Protocol.NameOf(o, snap), Folder(Written(ManifestOf(o, snap)), snap.documents))
    ensures RouteName(route) == SITEMAP || exists page :: Pages.IsPage(p, route, page)
  {
    hide WellLinked, Pages.IsPage, ValidArtifactName, DocumentName, RouteName;
    var n := RouteName(route);
    if n != SITEMAP {
      assert n in pages;
      var r :| Pages.IsPage(p, r, pages[n]) && DocumentName(r) == n;
      Pages.PageNameIsValid(p, r, pages[n]);
      PageStartsWithSlash(p, r, pages[n]);
      RouteNameFixesRoute(route, r);
    }
  }

  lemma PageStartsWithSlash(p: Payload, r: string, page: Pages.Page)
    requires WellLinked(p) && Pages.IsPage(p, r, page)
    ensures r != "" && r[0] == '/'
  {
    hide WellLinked, IsSlug, Pages.HasLinks;
    if page.row.Some? {
      var u := Pages.SlugOf(p, page.row.value);
    }
  }

  /** The build input of an active release has the release's own redirects, its pages and its sitemap, and nothing else. */
  lemma BuildInputTells(world: Reads.World, p: Payload, pages: map<string, Pages.Page>, render: Renderer, sitemap: string, source: nat)
    requires Reads.Evolves(world)
    requires Protocol.CurrentIn(world(0).pointers) == Some(Protocol.NameOf(world(0).owner, SnapshotOf(p, pages, render, sitemap, source)))
    ensures var v := Protocol.CurrentIn(world(0).pointers).value;
            && v in world(0).folders && world(0).folders[v].manifest.Written?
            && var input := Reads.InputOf(v, world(0).folders[v]);
               && input.Ok? && input.value.manifest.redirects == p.redirects && input.value.manifest.source == source
               && input.value.documents.Keys == pages.Keys + {"article-sitemap.xml"}
               && input.value.documents["article-sitemap.xml"] == sitemap
               && (forall n :: n in pages && n != "article-sitemap.xml" ==> input.value.documents[n] == render(pages[n]))
  {
    var snap := SnapshotOf(p, pages, render, sitemap, source);
    Reads.ActiveInputTells(world, snap);
    hide Reads.Evolves, Reads.InputOf, Protocol.NameOf;
    var v := Protocol.CurrentIn(world(0).pointers).value;
    var input := Reads.InputOf(v, world(0).folders[v]);
    assert snap.documents.Keys == pages.Keys + {SITEMAP} && forall n :: n in snap.documents ==> snap.documents[n].Utf8?;
    forall n | n in pages && n != SITEMAP ensures input.value.documents[n] == render(pages[n]) {
      assert snap.documents[n] == Utf8(render(pages[n]));
    }
    assert snap.documents[SITEMAP] == Utf8(sitemap);
  }

  /** Whatever the builder accepts can be published: its guarantees are the ones rendering and staging need. */
  lemma BuiltReleaseIsWellLinked(urls: Urls, site: Site, versions: seq<ArticleVersion>, r: Result<Release, string>)
    requires Builder.Outcome(urls, site, versions, r) && r.Ok?
    ensures WellLinked(r.value.payload)
  {
    hide WellLinked, IsRelease, Builder.Accepts, Orderly;
    ReleaseIsWellLinked(urls, site, multiset(Published(versions)), r.value.payload);
  }
}
