/**
 What every accepted release guarantees to the pages that link into it: where
 redirects lead, which translations an article names, and which are reported missing.
 */
module ArticleLinks {
  import opened Wrappers
  import opened Digests
  import opened Text
  import opened ArticleNames
  import opened ArticleRelease
  import opened ArticleBuilder

  ghost predicate Released(urls: Urls, site: Site, live: multiset<ArticleVersion>, p: Payload) {
    && Accepts(urls, site, live, p.defaultLocale)
    && Orderly(p.defaultLocale, Members(live)) && IsRelease(site, p.defaultLocale, Members(live), p)
  }

  // ----- The guarantees, in terms of the payload alone -----

  ghost function Addresses(p: Payload): set<string> { set x | x in p.articles :: x.draft.path }

  ghost predicate HasTranslation(p: Payload, key: string, language: string) {
    exists x :: x in p.articles && x.draft.contentKey == key && x.draft.language == language
  }

  /** The supported languages are distinct codes, the default among them. */
  ghost predicate SpeaksLocales(p: Payload) {
    var codes := Codes(p.locales);
    && (forall c :: c in codes ==> IsLocale(c))
    && (forall i, j :: 0 <= i < j < |codes| ==> codes[i] != codes[j])
    && p.defaultLocale in codes
  }

  /** Each article is in a supported language, at the address of its own language and slug; no two share an address. */
  ghost predicate WellAddressed(p: Payload) {
    && Ascending(PathsOf(p.articles))
    && forall x :: x in p.articles ==>
         x.draft.language in Codes(p.locales) && exists s :: IsSlug(s) && x.draft.path == ArticlePath(x.draft.language, s, p.defaultLocale)
  }

  /** A redirect leads to a published article in one hop and stands in front of none. */
  ghost predicate OneHop(p: Payload) {
    forall a :: a in p.redirects ==>
      && p.redirects[a] in Addresses(p) && a !in Addresses(p) && p.redirects[a] !in p.redirects
      && exists l, s :: IsLocale(l) && IsSlug(s) && a == SourcePath(l, s)
  }

  /** An article names exactly the published translations of its key, and the default one as x-default. */
  ghost predicate NamesTranslations(p: Payload, x: Document) {
    && (forall c :: c in Codes(p.locales) ==> (c in x.alternates <==> HasTranslation(p, x.draft.contentKey, c)))
    && (forall y :: y in p.articles && y.draft.contentKey == x.draft.contentKey ==>
          y.draft.language in x.alternates && x.alternates[y.draft.language] == p.origin + y.draft.path)
    && (forall c :: c in x.alternates ==> c in Codes(p.locales) || c == "x-default")
    && ("x-default" in x.alternates <==> p.defaultLocale in x.alternates)
    && ("x-default" in x.alternates ==> x.alternates["x-default"] == x.alternates[p.defaultLocale])
  }

  ghost predicate Translated(p: Payload) {
    && (forall x :: x in p.articles ==> NamesTranslations(p, x))
    && (forall x, y :: x in p.articles && y in p.articles && x.draft.contentKey == y.draft.contentKey ==> x.alternates == y.alternates)
  }

  /** For every published key and supported language: published, or reported missing, and never both. */
  ghost predicate Complement(p: Payload) {
    && (forall x, c :: x in p.articles && c in Codes(p.locales) ==>
          (HasTranslation(p, x.draft.contentKey, c) <==>
           !exists m :: m in p.missing && m.contentKey == x.draft.contentKey && c in m.languages))
    && (forall m :: m in p.missing ==>
          m.languages != [] && (forall c :: c in m.languages ==> c in Codes(p.locales)) && exists x :: x in p.articles && x.draft.contentKey == m.contentKey)
  }

  ghost predicate WellLinked(p: Payload) {
    SpeaksLocales(p) && WellAddressed(p) && OneHop(p) && Translated(p) && Complement(p)
  }

  // ----- Proofs, one guarantee at a time -----

  lemma MemberOf(site: Site, d: string, seen: set<ArticleVersion>, p: Payload, x: Document) returns (v: ArticleVersion)
    requires Orderly(d, seen) && IsRelease(site, d, seen, p) && x in p.articles
    ensures v in seen && x == DocumentOf(site, d, seen, v)
  {
    assert x in Elems(p.articles);
    v :| v in seen && x == DocumentOf(site, d, seen, v);
  }

  lemma DocumentIn(site: Site, d: string, seen: set<ArticleVersion>, p: Payload, v: ArticleVersion)
    requires Orderly(d, seen) && IsRelease(site, d, seen, p) && v in seen
    ensures DocumentOf(site, d, seen, v) in p.articles
  {
    assert DocumentOf(site, d, seen, v) in Elems(p.articles);
  }

  lemma LocalesAreSpoken(urls: Urls, site: Site, live: multiset<ArticleVersion>, p: Payload)
    requires Released(urls, site, live, p)
    ensures SpeaksLocales(p) && Codes(p.locales) == Codes(site.locales)
  {
    hide Compatible, Documents, Gaps, Redirects;
    var codes := Codes(site.locales);
    assert Codes(p.locales) == codes;
    LocalesAreDistinct(site.locales, p.defaultLocale);
  }

  lemma LocalesAreDistinct(locales: seq<Locale>, d: string)
    requires ValidLocales(locales, d)
    ensures forall c :: c in Codes(locales) ==> IsLocale(c)
    ensures forall i, j :: 0 <= i < j < |locales| ==> Codes(locales)[i] != Codes(locales)[j]
    ensures d in Codes(locales)
  {
    var codes := Codes(locales);
    forall i | 0 <= i < |codes| ensures IsLocale(codes[i]) && codes[i] !in codes[..i] {
      assert LocaleFault(codes[..i], locales[i]).None?;
    }
    forall i, j | 0 <= i < j < |codes| ensures codes[i] != codes[j] {
      assert codes[..j][i] == codes[i];
    }
    var k :| 0 <= k < |locales| && locales[k].isDefault && locales[k].code == d;
    assert codes[k] == d;
  }

  lemma VersionIsSound(urls: Urls, site: Site, live: multiset<ArticleVersion>, p: Payload, v: ArticleVersion)
    requires Released(urls, site, live, p) && v in Members(live)
    ensures Sound(urls, Supported(site), p.defaultLocale, v)
  {
    hide Sound, Documents, Gaps, Redirects, SiteSound;
  }

  lemma ArticlesAreAddressed(urls: Urls, site: Site, live: multiset<ArticleVersion>, p: Payload)
    requires Released(urls, site, live, p)
    ensures WellAddressed(p)
  {
    LocalesAreSpoken(urls, site, live, p);
    hide Compatible, Gaps, Redirects, SiteSound, IsSlug;
    var d := p.defaultLocale;
    forall x | x in p.articles
      ensures x.draft.language in Codes(p.locales)
      ensures exists s :: IsSlug(s) && x.draft.path == ArticlePath(x.draft.language, s, d)
    {
      var v := MemberOf(site, d, Members(live), p, x);
      VersionIsSound(urls, site, live, p, v);
      assert IsSlug(PublicSlug(v)) && x.draft.path == ArticlePath(v.locale, PublicSlug(v), d);
    }
  }

  lemma AddressesAreDestinations(site: Site, d: string, seen: set<ArticleVersion>, p: Payload)
    requires Orderly(d, seen) && IsRelease(site, d, seen, p)
    ensures Addresses(p) == Paths(d, seen)
  {
    hide Gaps, Redirects;
    forall a | a in Addresses(p) ensures a in Paths(d, seen) {
      var x :| x in p.articles && x.draft.path == a;
      var v := MemberOf(site, d, seen, p, x);
    }
    forall a | a in Paths(d, seen) ensures a in Addresses(p) {
      var v :| v in seen && Destination(d, v) == a;
      DocumentIn(site, d, seen, p, v);
    }
  }

  lemma HopFrom(d: string, seen: set<ArticleVersion>, p: Payload, a: string)
    requires OneWay(d, seen) && p.redirects == Redirects(d, seen) && Addresses(p) == Paths(d, seen) && NoShadow(d, seen)
    requires a in p.redirects
    ensures p.redirects[a] in Addresses(p) && a !in Addresses(p) && p.redirects[a] !in p.redirects
    ensures a in Aliases(d, seen)
  {
    hide Redirects, Addresses, Paths, Aliases, OneWay;
    RedirectIsListed(d, seen, a);
    SameKeys(d, seen);
    assert p.redirects.Keys * Addresses(p) == {};
    assert a !in p.redirects.Keys * Addresses(p) && p.redirects[a] !in p.redirects.Keys * Addresses(p);
  }

  lemma AliasSource(urls: Urls, site: Site, live: multiset<ArticleVersion>, p: Payload, a: string)
    requires Released(urls, site, live, p) && a in Aliases(p.defaultLocale, Members(live))
    ensures exists l, s :: IsLocale(l) && IsSlug(s) && a == SourcePath(l, s)
  {
    LocalesAreSpoken(urls, site, live, p);
    hide Compatible, Gaps, SiteSound, IsSlug, IsLocale, IsRelease, Released;
    var v :| v in Members(live) && Aliased(p.defaultLocale, v) && v.sourcePath == a;
    VersionIsSound(urls, site, live, p, v);
    assert v.locale in Codes(site.locales);
    assert IsLocale(v.locale) && IsSlug(v.slug) && a == SourcePath(v.locale, v.slug);
  }

  lemma RedirectsHopOnce(urls: Urls, site: Site, live: multiset<ArticleVersion>, p: Payload)
    requires Released(urls, site, live, p)
    ensures OneHop(p)
  {
    hide Compatible, Gaps, SiteSound, IsSlug, IsLocale, Documents, Redirects, Paths, Aliases, Addresses, NoShadow, SourcePath, IsHeader, Ascending;
    var d, seen := p.defaultLocale, Members(live);
    AddressesAreDestinations(site, d, seen, p);
    forall a | a in p.redirects
      ensures p.redirects[a] in Addresses(p) && a !in Addresses(p) && p.redirects[a] !in p.redirects
      ensures exists l, s :: IsLocale(l) && IsSlug(s) && a == SourcePath(l, s)
    {
      HopFrom(d, seen, p, a);
      AliasSource(urls, site, live, p, a);
    }
  }

  lemma GroupHas(d: string, seen: set<ArticleVersion>, key: string, l: string)
    requires OneEach(seen)
    ensures l in Group(d, seen, key) <==> exists v :: v in seen && v.contentKey == key && v.locale == l
  {
  }

  lemma GroupIsPublished(site: Site, d: string, seen: set<ArticleVersion>, p: Payload, key: string, l: string)
    requires Orderly(d, seen) && IsRelease(site, d, seen, p)
    ensures l in Group(d, seen, key) <==> HasTranslation(p, key, l)
  {
    hide Gaps, Redirects, Alternates;
    GroupHas(d, seen, key, l);
    if l in Group(d, seen, key) {
      var v :| v in seen && v.contentKey == key && v.locale == l;
      DocumentIn(site, d, seen, p, v);
    }
    if HasTranslation(p, key, l) {
      var x :| x in p.articles && x.draft.contentKey == key && x.draft.language == l;
      var v := MemberOf(site, d, seen, p, x);
    }
  }

  lemma GroupIsSupported(urls: Urls, site: Site, live: multiset<ArticleVersion>, p: Payload, key: string, l: string)
    requires Released(urls, site, live, p) && l in Group(p.defaultLocale, Members(live), key)
    ensures l in Codes(p.locales)
  {
    LocalesAreSpoken(urls, site, live, p);
    var v :| v in Members(live) && v.contentKey == key && v.locale == l;
    VersionIsSound(urls, site, live, p, v);
  }

  lemma AlternatesOf(origin: string, d: string, siblings: map<string, string>)
    requires "x-default" !in siblings && d != "x-default"
    ensures var urls := Alternates(origin, d, siblings);
            && (forall c :: c in urls <==> c in siblings || (c == "x-default" && d in siblings))
            && (forall c :: c in siblings ==> urls[c] == origin + siblings[c])
            && (d in siblings ==> urls["x-default"] == urls[d])
  {
  }

  lemma NamesFrom(p: Payload, x: Document, siblings: map<string, string>)
    requires SpeaksLocales(p) && x.alternates == Alternates(p.origin, p.defaultLocale, siblings)
    requires forall c :: c in siblings <==> HasTranslation(p, x.draft.contentKey, c)
    requires forall c :: c in siblings ==> c in Codes(p.locales)
    requires forall y :: y in p.articles && y.draft.contentKey == x.draft.contentKey ==>
               y.draft.language in siblings && siblings[y.draft.language] == y.draft.path
    ensures NamesTranslations(p, x)
  {
    NoLocaleIsXDefault(p);
    AlternatesOf(p.origin, p.defaultLocale, siblings);
    hide Alternates, HasTranslation;
  }

  lemma ArticleNamesTranslations(urls: Urls, site: Site, live: multiset<ArticleVersion>, p: Payload, x: Document)
    requires Released(urls, site, live, p) && x in p.articles
    ensures NamesTranslations(p, x)
  {
    LocalesAreSpoken(urls, site, live, p);
    hide Compatible, Gaps, Redirects, SiteSound, Alternates, Ascending, NoShadow, SpeaksLocales, NamesTranslations, HasTranslation, Group;
    var d, seen, key := p.defaultLocale, Members(live), x.draft.contentKey;
    var v := MemberOf(site, d, seen, p, x);
    var siblings := Group(d, seen, key);
    forall c ensures c in siblings <==> HasTranslation(p, key, c) { GroupIsPublished(site, d, seen, p, key, c); }
    forall c | c in siblings ensures c in Codes(p.locales) { GroupIsSupported(urls, site, live, p, key, c); }
    forall y | y in p.articles && y.draft.contentKey == key
      ensures y.draft.language in siblings && siblings[y.draft.language] == y.draft.path
    {
      var w := MemberOf(site, d, seen, p, y);
      GroupAddress(d, seen, w);
    }
    NamesFrom(p, x, siblings);
  }

  lemma GroupAddress(d: string, seen: set<ArticleVersion>, w: ArticleVersion)
    requires OneEach(seen) && w in seen
    ensures w.locale in Group(d, seen, w.contentKey) && Group(d, seen, w.contentKey)[w.locale] == Destination(d, w)
  {
  }

  lemma NoLocaleIsXDefault(p: Payload)
    requires SpeaksLocales(p)
    ensures "x-default" !in Codes(p.locales) && p.defaultLocale != "x-default"
  {
    assert !IsLocale("x-default");
  }

  lemma ArticlesAreTranslated(urls: Urls, site: Site, live: multiset<ArticleVersion>, p: Payload)
    requires Released(urls, site, live, p)
    ensures Translated(p)
  {
    hide NamesTranslations, Compatible, Gaps, Redirects, SiteSound, Alternates, Ascending, NoShadow;
    forall x | x in p.articles ensures NamesTranslations(p, x) { ArticleNamesTranslations(urls, site, live, p, x); }
    forall x, y | x in p.articles && y in p.articles && x.draft.contentKey == y.draft.contentKey ensures x.alternates == y.alternates {
      var v := MemberOf(site, p.defaultLocale, Members(live), p, x);
      var w := MemberOf(site, p.defaultLocale, Members(live), p, y);
    }
  }

  lemma GapOf(site: Site, d: string, seen: set<ArticleVersion>, p: Payload, m: Missing)
    requires Orderly(d, seen) && IsRelease(site, d, seen, p)
    ensures m in p.missing <==> m.contentKey in Keys(seen) && Group(d, seen, m.contentKey).Keys != Elems(Codes(site.locales))
                                && m.languages == Lacking(Codes(site.locales), Group(d, seen, m.contentKey).Keys)
  {
    hide Documents, Redirects, PathsOf, KeysOf, Ascending;
    assert m in p.missing <==> m in Elems(p.missing);
  }

  lemma ReportedOrPublished(site: Site, d: string, seen: set<ArticleVersion>, p: Payload, x: Document, c: string)
    requires Orderly(d, seen) && IsRelease(site, d, seen, p) && x in p.articles && c in Codes(site.locales)
    ensures HasTranslation(p, x.draft.contentKey, c) <==> !exists m :: m in p.missing && m.contentKey == x.draft.contentKey && c in m.languages
  {
    var v := MemberOf(site, d, seen, p, x);
    hide Redirects, Alternates, Gaps, IsHeader, Documents, Ascending, PathsOf, KeysOf, IsRelease, HasTranslation, Destination, DraftOf;
    var key := v.contentKey;
    var codes, have := Codes(site.locales), Group(d, seen, key).Keys;
    GroupIsPublished(site, d, seen, p, key, c);
    var m := Missing(key, Lacking(codes, have));
    GapOf(site, d, seen, p, m);
    forall n | n in p.missing && n.contentKey == key ensures n == m { GapOf(site, d, seen, p, n); }
    if c !in have { assert c in Elems(codes) && c in m.languages; }
  }

  lemma MissingIsReal(urls: Urls, site: Site, live: multiset<ArticleVersion>, p: Payload, m: Missing)
    requires Released(urls, site, live, p) && m in p.missing
    ensures m.languages != [] && (forall c :: c in m.languages ==> c in Codes(p.locales)) && exists x :: x in p.articles && x.draft.contentKey == m.contentKey
  {
    LocalesAreSpoken(urls, site, live, p);
    hide Compatible, Redirects, SiteSound, Alternates, Ascending, NoShadow, Gaps, IsHeader, Documents, Group, Destination;
    var d, seen, codes := p.defaultLocale, Members(live), Codes(site.locales);
    GapOf(site, d, seen, p, m);
    var have := Group(d, seen, m.contentKey).Keys;
    forall l | l in have ensures l in Elems(codes) { GroupIsSupported(urls, site, live, p, m.contentKey, l); }
    var c :| c in Elems(codes) && c !in have;
    assert c in m.languages;
    var v :| v in seen && v.contentKey == m.contentKey;
    DocumentIn(site, d, seen, p, v);
  }

  lemma MissingIsComplement(urls: Urls, site: Site, live: multiset<ArticleVersion>, p: Payload)
    requires Released(urls, site, live, p)
    ensures Complement(p)
  {
    LocalesAreSpoken(urls, site, live, p);
    hide Compatible, Redirects, SiteSound, Ascending, NoShadow, Gaps, IsHeader, Documents, Paths, HasTranslation;
    forall x, c | x in p.articles && c in Codes(p.locales)
      ensures HasTranslation(p, x.draft.contentKey, c) <==> !exists m :: m in p.missing && m.contentKey == x.draft.contentKey && c in m.languages
    {
      ReportedOrPublished(site, p.defaultLocale, Members(live), p, x, c);
    }
    forall m | m in p.missing
      ensures m.languages != [] && (forall c :: c in m.languages ==> c in Codes(p.locales)) && exists x :: x in p.articles && x.draft.contentKey == m.contentKey
    {
      MissingIsReal(urls, site, live, p, m);
    }
  }

  /** Every accepted release is well linked. */
  lemma ReleaseIsWellLinked(urls: Urls, site: Site, live: multiset<ArticleVersion>, p: Payload)
    requires Released(urls, site, live, p)
    ensures WellLinked(p)
  {
    hide *;
    LocalesAreSpoken(urls, site, live, p);
    ArticlesAreAddressed(urls, site, live, p);
    RedirectsHopOnce(urls, site, live, p);
    ArticlesAreTranslated(urls, site, live, p);
    MissingIsComplement(urls, site, live, p);
    AllGuarantees(p);
  }

  lemma AllGuarantees(p: Payload)
    requires SpeaksLocales(p) && WellAddressed(p) && OneHop(p) && Translated(p) && Complement(p)
    ensures WellLinked(p)
  {
    hide SpeaksLocales, WellAddressed, OneHop, Translated, Complement;
  }
}
