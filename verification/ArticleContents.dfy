/**
 What an accepted release says, field by field: each article is one live version
 with its own words and the fallbacks of the empty ones, each live version has
 its article, and the conditions under which all of them are accepted.
 */
module ArticleContents {
  import opened Wrappers
  import opened Digests
  import opened Text
  import opened ArticleNames
  import opened ArticleRelease
  import opened ArticleBuilder
  import opened ArticleLinks

  // ----- One version, one article -----

  predicate Shown(v: ArticleVersion) {
    v.status == "published" && v.routeStatus == "published" && v.enabled
  }

  /** The address of a version: without its language for the default one, and under its public slug if it has one. */
  function AddressOf(d: string, v: ArticleVersion): string {
    (if v.locale == d then "" else "/" + v.locale) + "/articles/" + (if v.publicSlug != "" then v.publicSlug else v.slug) + "/"
  }

  /** The version was served at another address before. */
  predicate Moved(d: string, v: ArticleVersion) {
    v.sourcePath != "" && v.sourcePath != AddressOf(d, v)
  }

  predicate WrittenIn(locales: seq<Locale>, language: string, direction: string) {
    exists i :: 0 <= i < |locales| && locales[i].code == language && locales[i].direction == direction
  }

  /** The article says what the version says; an empty field falls back to the one it stands for. */
  predicate Tells(site: Site, p: Payload, v: ArticleVersion, x: Document) {
    var a := x.draft;
    && a.contentKey == v.contentKey && a.language == v.locale && WrittenIn(site.locales, v.locale, a.direction)
    && a.path == AddressOf(p.defaultLocale, v) && a.canonical == p.origin + AddressOf(p.defaultLocale, v)
    && a.title == v.title && a.excerpt == v.excerpt && a.body == v.markdown && a.author == v.author && a.coverUrl == v.coverUrl
    && a.description == (if v.description != "" then v.description else v.excerpt)
    && a.ogTitle == (if v.ogTitle != "" then v.ogTitle else v.title)
    && a.ogDescription == (if v.ogDescription != "" then v.ogDescription else if v.description != "" then v.description else v.excerpt)
    && a.ogImageUrl == (if v.ogImageUrl != "" then v.ogImageUrl else v.coverUrl)
    && a.robots == (if v.robots != "" then v.robots else "index,follow,max-image-preview:large")
    && a.category == (if v.categoryKey != "" then Some((v.categoryKey, v.categoryLabel)) else None)
    && x.sha256 == Sha(a)
  }

  predicate SameArticle(v: ArticleVersion, x: Document) {
    x.draft.contentKey == v.contentKey && x.draft.language == v.locale
  }

  lemma {:induction false} DirectionIsWritten(locales: seq<Locale>, code: string)
    requires code in Codes(locales)
    ensures WrittenIn(locales, code, DirectionOf(locales, code))
  {
    if locales[0].code == code {
      assert locales[0].direction == DirectionOf(locales, code);
    } else {
      var k :| 0 <= k < |locales| && Codes(locales)[k] == code;
      assert Codes(locales[1..])[k - 1] == code;
      DirectionIsWritten(locales[1..], code);
      var i :| 0 <= i < |locales[1..]| && locales[1..][i].code == code && locales[1..][i].direction == DirectionOf(locales[1..], code);
      assert locales[i + 1] == locales[1..][i];
    }
  }

  // ----- Which versions are released -----

  lemma Twice<T>(s: seq<T>, i: nat, j: nat)
    requires i < j < |s| && s[i] == s[j]
    ensures multiset(s)[s[i]] >= 2
  {
    assert s == s[..j] + [s[j]] + s[j + 1..];
    assert s[..j][i] == s[i] && s[i] in s[..j];
  }

  lemma {:induction false} AtMostOnce<T>(s: seq<T>, x: T)
    requires forall i, j :: 0 <= i < j < |s| ==> !(s[i] == x && s[j] == x)
    ensures multiset(s)[x] <= 1
  {
    if s != [] {
      var front := s[..|s| - 1];
      assert s == front + [s[|s| - 1]];
      AtMostOnce(front, x);
      assert s[|s| - 1] == x ==> x !in front;
    }
  }

  /** The released versions are the shown ones. */
  lemma ReleasedAt(versions: seq<ArticleVersion>, v: ArticleVersion)
    ensures v in Members(multiset(Published(versions))) <==> exists i :: 0 <= i < |versions| && versions[i] == v && Shown(v)
  {
    PublishedCounts(versions, v);
    if v in multiset(versions) { assert v in versions; }
    if i :| 0 <= i < |versions| && versions[i] == v { assert v in multiset(versions); }
  }

  lemma ShownAreDistinct(urls: Urls, codes: set<string>, d: string, versions: seq<ArticleVersion>, i: nat, j: nat)
    requires Compatible(urls, codes, d, multiset(Published(versions)))
    requires i < j < |versions| && Shown(versions[i]) && Shown(versions[j])
    ensures Agree(d, versions[i], versions[j])
  {
    var v, w := versions[i], versions[j];
    ReleasedAt(versions, v);
    ReleasedAt(versions, w);
    assert versions[i] == v && versions[j] == w;
    if v == w {
      Twice(versions, i, j);
      PublishedCounts(versions, v);
    }
    hide Sound, Agree, Published;
  }

  // ----- The articles of a release -----

  lemma DocumentTells(urls: Urls, site: Site, live: multiset<ArticleVersion>, p: Payload, v: ArticleVersion)
    requires Released(urls, site, live, p) && v in Members(live)
    ensures DocumentOf(site, p.defaultLocale, Members(live), v) in p.articles
    ensures Tells(site, p, v, DocumentOf(site, p.defaultLocale, Members(live), v))
  {
    VersionIsSound(urls, site, live, p, v);
    DocumentIn(site, p.defaultLocale, Members(live), p, v);
    DirectionIsWritten(site.locales, v.locale);
    hide Compatible, Documents, Gaps, Redirects, SiteSound, NoShadow, Alternates, Group, WrittenIn, IsKey, IsSlug;
  }

  /** Every article is that of exactly one live version, and says what it says. */
  lemma ArticlesTell(urls: Urls, site: Site, versions: seq<ArticleVersion>, r: Result<Release, string>, x: Document)
    requires Outcome(urls, site, versions, r) && r.Ok? && x in r.value.payload.articles
    ensures exists i :: 0 <= i < |versions| && Shown(versions[i]) && Tells(site, r.value.payload, versions[i], x)
    ensures forall i, j :: 0 <= i < j < |versions| && Shown(versions[i]) && Shown(versions[j]) ==> !(SameArticle(versions[i], x) && SameArticle(versions[j], x))
  {
    var p, live := r.value.payload, multiset(Published(versions));
    var v := MemberOf(site, p.defaultLocale, Members(live), p, x);
    DocumentTells(urls, site, live, p, v);
    ReleasedAt(versions, v);
    var i :| 0 <= i < |versions| && versions[i] == v && Shown(v);
    forall i, j | 0 <= i < j < |versions| && Shown(versions[i]) && Shown(versions[j])
      ensures !(SameArticle(versions[i], x) && SameArticle(versions[j], x))
    {
      ShownAreDistinct(urls, Supported(site), p.defaultLocale, versions, i, j);
    }
    hide Outcome, Tells, Shown, Published;
  }

  /** Every live version has its article. */
  lemma VersionsAreTold(urls: Urls, site: Site, versions: seq<ArticleVersion>, r: Result<Release, string>, i: nat)
    requires Outcome(urls, site, versions, r) && r.Ok? && i < |versions| && Shown(versions[i])
    ensures exists x :: x in r.value.payload.articles && Tells(site, r.value.payload, versions[i], x)
  {
    ReleasedAt(versions, versions[i]);
    DocumentTells(urls, site, multiset(Published(versions)), r.value.payload, versions[i]);
    hide Outcome, Tells, Shown, Published, DocumentOf;
  }

  // ----- The rest of the payload -----

  /** The public origin is the site's without its final slashes. */
  lemma {:induction false} OriginIsUnslashed(s: string)
    ensures var o := StripRight(s); |o| <= |s| && o == s[..|o|] && (forall i :: |o| <= i < |s| ==> s[i] == '/') && (o != "" ==> o[|o| - 1] != '/')
  {
    if s != "" && s[|s| - 1] == '/' { OriginIsUnslashed(s[..|s| - 1]); }
  }

  /** Site, languages and redirects of a release: a redirect for each live version that moved, to its address, and no other. */
  lemma PayloadTells(urls: Urls, site: Site, versions: seq<ArticleVersion>, r: Result<Release, string>)
    requires Outcome(urls, site, versions, r) && r.Ok?
    ensures var p := r.value.payload;
            && p.siteCode == site.code && p.siteName == Strip(site.name) && p.logo == site.logo && p.mode == site.mode
            && p.origin == StripRight(site.origin) && r.value.sha256 == Sha(p)
    ensures var p := r.value.payload;
            && |p.locales| == |site.locales|
            && (forall i :: 0 <= i < |p.locales| ==>
                  var l := site.locales[i];
                  p.locales[i] == Locale(l.code, Strip(l.text), l.direction, l.isDefault) && (l.isDefault <==> l.code == p.defaultLocale))
    ensures var p := r.value.payload;
            && (forall a :: a in p.redirects <==>
                  exists i :: 0 <= i < |versions| && Shown(versions[i]) && Moved(p.defaultLocale, versions[i]) && versions[i].sourcePath == a)
            && (forall i :: 0 <= i < |versions| && Shown(versions[i]) && Moved(p.defaultLocale, versions[i]) ==>
                  versions[i].sourcePath in p.redirects && p.redirects[versions[i].sourcePath] == AddressOf(p.defaultLocale, versions[i]))
  {
    var p := r.value.payload;
    HeaderTells(urls, site, multiset(Published(versions)), p);
    forall i | 0 <= i < |versions| && Shown(versions[i]) && Moved(p.defaultLocale, versions[i])
      ensures versions[i].sourcePath in p.redirects && p.redirects[versions[i].sourcePath] == AddressOf(p.defaultLocale, versions[i])
    {
      ReleasedAt(versions, versions[i]);
      MovedIsRedirected(urls, site, multiset(Published(versions)), p, versions[i]);
    }
    forall a | a in p.redirects
      ensures exists i :: 0 <= i < |versions| && Shown(versions[i]) && Moved(p.defaultLocale, versions[i]) && versions[i].sourcePath == a
    {
      var v := RedirectOf(urls, site, multiset(Published(versions)), p, a);
      ReleasedAt(versions, v);
      var i :| 0 <= i < |versions| && versions[i] == v && Shown(v);
    }
    hide Outcome, Shown, Moved, Published, AddressOf;
  }

  lemma HeaderTells(urls: Urls, site: Site, live: multiset<ArticleVersion>, p: Payload)
    requires Released(urls, site, live, p)
    ensures p.siteCode == site.code && p.siteName == Strip(site.name) && p.logo == site.logo && p.mode == site.mode && p.origin == StripRight(site.origin)
    ensures |p.locales| == |site.locales|
    ensures forall i :: 0 <= i < |p.locales| ==>
              var l := site.locales[i];
              p.locales[i] == Locale(l.code, Strip(l.text), l.direction, l.isDefault) && (l.isDefault <==> l.code == p.defaultLocale)
  {
    LocalesAreSpoken(urls, site, live, p);
    hide Compatible, Documents, Gaps, Redirects, NoShadow, Strip, StripRight, LocaleFault, IsLocale;
    var codes := Codes(site.locales);
    forall i | 0 <= i < |p.locales| ensures site.locales[i].isDefault <==> site.locales[i].code == p.defaultLocale {
      var k :| 0 <= k < |site.locales| && site.locales[k].isDefault && site.locales[k].code == p.defaultLocale
               && forall j :: 0 <= j < |site.locales| && site.locales[j].isDefault ==> j == k;
      assert codes[k] == p.defaultLocale && codes[i] == site.locales[i].code;
    }
  }

  lemma MovedIsRedirected(urls: Urls, site: Site, live: multiset<ArticleVersion>, p: Payload, v: ArticleVersion)
    requires Released(urls, site, live, p) && v in Members(live) && Moved(p.defaultLocale, v)
    ensures v.sourcePath in p.redirects && p.redirects[v.sourcePath] == AddressOf(p.defaultLocale, v)
  {
    hide Compatible, Documents, Gaps, NoShadow, SiteSound;
    assert Aliased(p.defaultLocale, v);
  }

  lemma RedirectOf(urls: Urls, site: Site, live: multiset<ArticleVersion>, p: Payload, a: string) returns (v: ArticleVersion)
    requires Released(urls, site, live, p) && a in p.redirects
    ensures v in Members(live) && Moved(p.defaultLocale, v) && v.sourcePath == a
  {
    hide Compatible, Documents, Gaps, NoShadow, SiteSound;
    v :| v in Members(live) && Aliased(p.defaultLocale, v) && v.sourcePath == a;
  }

  // ----- What is accepted -----

  predicate HasText(s: string) {
    exists c :: c in s && !White(c)
  }

  ghost predicate SiteFits(urls: Urls, site: Site, d: string) {
    var locales := site.locales;
    && IsKey(site.code) && HasText(site.name) && |Strip(site.name)| <= 200
    && (forall i :: 0 <= i < |locales| ==>
          && IsLocale(locales[i].code) && locales[i].direction in {"ltr", "rtl"}
          && HasText(locales[i].text) && |Strip(locales[i].text)| <= 100)
    && (forall i, j :: 0 <= i < j < |locales| ==> locales[i].code != locales[j].code && !(locales[i].isDefault && locales[j].isDefault))
    && (exists i :: 0 <= i < |locales| && locales[i].isDefault && locales[i].code == d)
    && urls.origin(site.origin) && (site.logo == "" || urls.asset(site.logo)) && site.mode in {"localized", "shared"}
  }

  predicate VersionFits(urls: Urls, site: Site, d: string, v: ArticleVersion) {
    && (exists i :: 0 <= i < |site.locales| && site.locales[i].code == v.locale)
    && IsKey(v.contentKey) && IsSlug(v.slug) && (v.publicSlug == "" || IsSlug(v.publicSlug))
    && HasText(v.title) && HasText(v.markdown)
    && (v.categoryKey == "" || v.categoryLocale == v.locale)
    && v.sourcePath in {"", AddressOf(d, v), "/" + v.locale + "/articles/" + v.slug + "/"}
    && (v.coverUrl == "" || urls.asset(v.coverUrl)) && (v.ogImageUrl == "" || urls.asset(v.ogImageUrl))
  }

  /** Two live versions differ in key or language, in address, and in the address they moved from. */
  predicate Apart(d: string, v: ArticleVersion, w: ArticleVersion) {
    && !(v.contentKey == w.contentKey && v.locale == w.locale) && AddressOf(d, v) != AddressOf(d, w)
    && !(Moved(d, v) && Moved(d, w) && v.sourcePath == w.sourcePath)
  }

  /** Where a version moved from, no live version is now. */
  ghost predicate NoneBehind(d: string, versions: seq<ArticleVersion>) {
    forall i, j :: 0 <= i < |versions| && 0 <= j < |versions| && Shown(versions[i]) && Shown(versions[j]) && Moved(d, versions[i]) ==>
      versions[i].sourcePath != AddressOf(d, versions[j])
  }

  ghost predicate Publishable(urls: Urls, site: Site, d: string, versions: seq<ArticleVersion>) {
    && SiteFits(urls, site, d)
    && (forall i :: 0 <= i < |versions| && Shown(versions[i]) ==> VersionFits(urls, site, d, versions[i]))
    && (forall i, j :: 0 <= i < j < |versions| && Shown(versions[i]) && Shown(versions[j]) ==> Apart(d, versions[i], versions[j]))
    && NoneBehind(d, versions)
  }

  lemma TextIsKept(s: string)
    ensures HasText(s) <==> Strip(s) != ""
  {
    StripIsTrimmed(s);
    hide Strip, White;
  }

  lemma LocaleFits(locales: seq<Locale>, i: nat)
    requires i < |locales|
    ensures LocaleFault(Codes(locales)[..i], locales[i]).None? <==>
              && IsLocale(locales[i].code) && locales[i].direction in {"ltr", "rtl"}
              && HasText(locales[i].text) && |Strip(locales[i].text)| <= 100
              && forall k :: 0 <= k < i ==> locales[k].code != locales[i].code
  {
    TextIsKept(locales[i].text);
    var taken := Codes(locales)[..i];
    forall k | 0 <= k < i ensures taken[k] == locales[k].code {}
    assert locales[i].code in taken <==> exists k :: 0 <= k < i && taken[k] == locales[i].code;
    hide IsLocale, HasText, Strip, Codes;
  }

  lemma SiteFitsExactly(urls: Urls, site: Site, d: string)
    ensures SiteFits(urls, site, d) <==> SiteSound(urls, site, d)
  {
    TextIsKept(site.name);
    forall i | 0 <= i < |site.locales| { LocaleFits(site.locales, i); }
    hide HasText, IsLocale, IsKey, Strip, LocaleFault, Codes;
  }

  lemma VersionFitsExactly(urls: Urls, site: Site, d: string, v: ArticleVersion)
    ensures VersionFits(urls, site, d, v) <==> Sound(urls, Supported(site), d, v)
  {
    TextIsKept(v.title);
    TextIsKept(v.markdown);
    assert (exists i :: 0 <= i < |site.locales| && site.locales[i].code == v.locale) <==> v.locale in Supported(site) by {
      if i :| 0 <= i < |site.locales| && site.locales[i].code == v.locale { assert Codes(site.locales)[i] in Codes(site.locales); }
      if v.locale in Codes(site.locales) { var i :| 0 <= i < |site.locales| && Codes(site.locales)[i] == v.locale; }
    }
    assert AddressOf(d, v) == Destination(d, v);
    hide HasText, Strip, IsKey, IsSlug, AddressOf, Destination, Supported;
  }

  lemma ApartExactly(d: string, v: ArticleVersion, w: ArticleVersion)
    ensures Apart(d, v, w) <==> Agree(d, v, w)
    ensures AddressOf(d, v) == Destination(d, v) && (Moved(d, v) <==> Aliased(d, v))
  {
    assert forall u :: AddressOf(d, u) == Destination(d, u);
  }

  lemma BehindOne(d: string, versions: seq<ArticleVersion>, v: ArticleVersion, w: ArticleVersion)
    requires NoneBehind(d, versions) && v in Members(multiset(Published(versions))) && w in Members(multiset(Published(versions)))
    requires Aliased(d, v)
    ensures v.sourcePath != Destination(d, w)
  {
    ReleasedAt(versions, v);
    ReleasedAt(versions, w);
    ApartExactly(d, v, w);
    ApartExactly(d, w, v);
    hide Published, Shown, Aliased, Moved, AddressOf, Destination;
  }

  lemma AheadOne(d: string, versions: seq<ArticleVersion>, i: nat, j: nat)
    requires NoShadow(d, Members(multiset(Published(versions))))
    requires i < |versions| && j < |versions| && Shown(versions[i]) && Shown(versions[j]) && Moved(d, versions[i])
    ensures versions[i].sourcePath != AddressOf(d, versions[j])
  {
    var seen := Members(multiset(Published(versions)));
    ReleasedAt(versions, versions[i]);
    ReleasedAt(versions, versions[j]);
    ApartExactly(d, versions[i], versions[j]);
    ApartExactly(d, versions[j], versions[i]);
    assert versions[i].sourcePath in Aliases(d, seen) && Destination(d, versions[j]) in Paths(d, seen);
    assert versions[i].sourcePath !in Paths(d, seen) * Aliases(d, seen);
  }

  lemma NoneBehindExactly(d: string, versions: seq<ArticleVersion>)
    ensures NoneBehind(d, versions) <==> NoShadow(d, Members(multiset(Published(versions))))
  {
    var seen := Members(multiset(Published(versions)));
    hide Published, Shown;
    if NoneBehind(d, versions) && !NoShadow(d, seen) {
      var a :| a in Paths(d, seen) * Aliases(d, seen);
      var v :| v in seen && Aliased(d, v) && v.sourcePath == a;
      var w :| w in seen && Destination(d, w) == a;
      BehindOne(d, versions, v, w);
      assert false;
    }
    if NoShadow(d, seen) {
      forall i, j | 0 <= i < |versions| && 0 <= j < |versions| && Shown(versions[i]) && Shown(versions[j]) && Moved(d, versions[i])
        ensures versions[i].sourcePath != AddressOf(d, versions[j])
      {
        AheadOne(d, versions, i, j);
      }
    }
  }

  lemma FitsOnce(urls: Urls, site: Site, d: string, versions: seq<ArticleVersion>, v: ArticleVersion)
    requires Publishable(urls, site, d, versions) && v in multiset(Published(versions))
    ensures multiset(Published(versions))[v] == 1 && Sound(urls, Supported(site), d, v)
  {
    ReleasedAt(versions, v);
    VersionFitsExactly(urls, site, d, v);
    PublishedCounts(versions, v);
    hide SiteFits, VersionFits, NoneBehind, Sound, Published, Supported;
    forall j, k | 0 <= j < k < |versions| ensures !(versions[j] == v && versions[k] == v) {
      assert Shown(versions[j]) && Shown(versions[k]) ==> Apart(d, versions[j], versions[k]);
    }
    AtMostOnce(versions, v);
  }

  lemma FitsApart(urls: Urls, site: Site, d: string, versions: seq<ArticleVersion>, v: ArticleVersion, w: ArticleVersion)
    requires Publishable(urls, site, d, versions) && v != w
    requires v in multiset(Published(versions)) && w in multiset(Published(versions))
    ensures Agree(d, v, w)
  {
    ReleasedAt(versions, v);
    ReleasedAt(versions, w);
    hide SiteFits, VersionFits, NoneBehind, Published, Shown;
    var i :| 0 <= i < |versions| && versions[i] == v && Shown(v);
    var j :| 0 <= j < |versions| && versions[j] == w && Shown(w);
    assert if i < j then Apart(d, v, w) else Apart(d, w, v);
    ApartExactly(d, v, w);
  }

  lemma FitIsCompatible(urls: Urls, site: Site, d: string, versions: seq<ArticleVersion>)
    requires Publishable(urls, site, d, versions)
    ensures Compatible(urls, Supported(site), d, multiset(Published(versions)))
  {
    hide Publishable, Sound, Agree, Published;
    var live := multiset(Published(versions));
    forall v | v in live ensures live[v] == 1 && Sound(urls, Supported(site), d, v) { FitsOnce(urls, site, d, versions, v); }
    forall v, w | v in live && w in live && v != w ensures Agree(d, v, w) { FitsApart(urls, site, d, versions, v, w); }
  }

  lemma EachFits(urls: Urls, site: Site, d: string, versions: seq<ArticleVersion>)
    requires Compatible(urls, Supported(site), d, multiset(Published(versions)))
    ensures forall i :: 0 <= i < |versions| && Shown(versions[i]) ==> VersionFits(urls, site, d, versions[i])
  {
    hide Published, VersionFits, Sound, Agree, Shown;
    forall i | 0 <= i < |versions| && Shown(versions[i]) ensures VersionFits(urls, site, d, versions[i]) {
      ReleasedAt(versions, versions[i]);
      VersionFitsExactly(urls, site, d, versions[i]);
    }
  }

  lemma PairFits(urls: Urls, site: Site, d: string, versions: seq<ArticleVersion>)
    requires Compatible(urls, Supported(site), d, multiset(Published(versions)))
    ensures forall i, j :: 0 <= i < j < |versions| && Shown(versions[i]) && Shown(versions[j]) ==> Apart(d, versions[i], versions[j])
  {
    hide Compatible, Shown, Apart, Agree;
    forall i, j | 0 <= i < j < |versions| && Shown(versions[i]) && Shown(versions[j]) ensures Apart(d, versions[i], versions[j]) {
      ShownAreDistinct(urls, Supported(site), d, versions, i, j);
      ApartExactly(d, versions[i], versions[j]);
    }
  }

  /** A release is built exactly when the site fits, each live version fits it, and no two get in each other's way. */
  lemma ReleasedExactly(urls: Urls, site: Site, versions: seq<ArticleVersion>, r: Result<Release, string>)
    requires Outcome(urls, site, versions, r)
    ensures r.Ok? <==> exists d :: Publishable(urls, site, d, versions)
    ensures r.Ok? ==> Publishable(urls, site, r.value.payload.defaultLocale, versions)
  {
    if r.Ok? {
      var d := r.value.payload.defaultLocale;
      SiteFitsExactly(urls, site, d);
      EachFits(urls, site, d, versions);
      PairFits(urls, site, d, versions);
      NoneBehindExactly(d, versions);
      hide SiteFits, SiteSound, VersionFits, Compatible, NoneBehind, NoShadow, Apart, Shown, IsRelease;
      assert Publishable(urls, site, d, versions);
    } else {
      forall d ensures !Publishable(urls, site, d, versions) {
        if Publishable(urls, site, d, versions) {
          SiteFitsExactly(urls, site, d);
          FitIsCompatible(urls, site, d, versions);
          NoneBehindExactly(d, versions);
          hide SiteFits, SiteSound, VersionFits, Compatible, NoneBehind, NoShadow, Apart, Shown, Blames;
          assert !Accepts(urls, site, multiset(Published(versions)), d) by { BlameMeansRefusal(urls, site, versions, r.error, d); }
        }
      }
    }
  }
}
