/**
 build_article_release in its own loop form, proved to give exactly the release
 ArticleRelease describes, and the consequence: the order in which the versions
 arrive decides neither whether they are accepted nor what is frozen.
 */
module ArticleBuilder {
  import opened Wrappers
  import opened Digests
  import opened Text
  import opened ArticleNames
  import opened ArticleRelease

  /** What the builder's loop carries: the rows, and the sets and dictionaries it checks against. */
  datatype Book = Book(
    drafts: seq<Draft>,
    identities: set<(string, string)>,
    paths: set<string>,
    redirects: map<string, string>,
    groups: map<string, map<string, string>>)

  const EMPTY := Book([], {}, {}, map[], map[])

  ghost function Identities(seen: set<ArticleVersion>): set<(string, string)> {
    set v | v in seen :: (v.contentKey, v.locale)
  }

  ghost function Groups(d: string, seen: set<ArticleVersion>): map<string, map<string, string>>
    requires OneEach(seen)
  {
    map k | k in Keys(seen) :: Group(d, seen, k)
  }

  ghost predicate Rows(site: Site, d: string, items: seq<ArticleVersion>, drafts: seq<Draft>) {
    |drafts| == |items| && forall i :: 0 <= i < |items| ==> drafts[i] == DraftOf(site, d, items[i])
  }

  ghost predicate Reflects(site: Site, d: string, items: seq<ArticleVersion>, b: Book) {
    var seen := Elems(items);
    && Orderly(d, seen)
    && Rows(site, d, items, b.drafts)
    && b.identities == Identities(seen)
    && b.paths == Paths(d, seen)
    && b.redirects == Redirects(d, seen)
    && b.groups == Groups(d, seen)
  }

  // ----- How the sets and dictionaries grow by one version -----

  lemma ElemsGrow(items: seq<ArticleVersion>, v: ArticleVersion)
    ensures Elems(items + [v]) == Elems(items) + {v}
  {
    forall x ensures x in Elems(items + [v]) <==> x in Elems(items) + {v} {
      assert (items + [v])[|items|] == v;
      assert forall i :: 0 <= i < |items| ==> (items + [v])[i] == items[i];
    }
  }

  lemma SetsGrow(d: string, seen: set<ArticleVersion>, v: ArticleVersion)
    ensures Identities(seen + {v}) == Identities(seen) + {(v.contentKey, v.locale)}
    ensures Paths(d, seen + {v}) == Paths(d, seen) + {Destination(d, v)}
    ensures Keys(seen + {v}) == Keys(seen) + {v.contentKey}
  {
    forall x | x in Identities(seen) ensures x in Identities(seen + {v}) {
      var w :| w in seen && x == (w.contentKey, w.locale);
      assert w in seen + {v};
    }
    forall x | x in Paths(d, seen) ensures x in Paths(d, seen + {v}) {
      var w :| w in seen && x == Destination(d, w);
      assert w in seen + {v};
    }
    forall x | x in Keys(seen) ensures x in Keys(seen + {v}) {
      var w :| w in seen && x == w.contentKey;
      assert w in seen + {v};
    }
    assert v in seen + {v};
  }

  lemma RedirectsGrow(d: string, seen: set<ArticleVersion>, v: ArticleVersion)
    requires OneWay(d, seen) && OneWay(d, seen + {v}) && v !in seen
    ensures Redirects(d, seen + {v}) ==
            if Aliased(d, v) then Redirects(d, seen)[v.sourcePath := Destination(d, v)] else Redirects(d, seen)
  {
    var grown, all := Redirects(d, seen), Redirects(d, seen + {v});
    forall a | a in grown ensures a in all && all[a] == grown[a] {
      var w :| w in seen && Aliased(d, w) && w.sourcePath == a;
      assert w in seen + {v};
    }
    if Aliased(d, v) { assert v in seen + {v} && v.sourcePath in all; }
    forall a | a in all ensures a in grown || (Aliased(d, v) && a == v.sourcePath) {
      var w :| w in seen + {v} && Aliased(d, w) && w.sourcePath == a;
      if w in seen { assert w.sourcePath in grown; }
    }
  }

  lemma GroupGrows(d: string, seen: set<ArticleVersion>, v: ArticleVersion, k: string)
    requires OneEach(seen) && OneEach(seen + {v}) && v !in seen
    ensures Group(d, seen + {v}, k) ==
            if k == v.contentKey then Group(d, seen, k)[v.locale := Destination(d, v)] else Group(d, seen, k)
  {
    hide Destination;
    var grown, all := Group(d, seen, k), Group(d, seen + {v}, k);
    forall l | l in grown ensures l in all && all[l] == grown[l] {
      var w :| w in seen && w.contentKey == k && w.locale == l;
      assert w in seen + {v};
    }
    if k == v.contentKey { assert v in seen + {v} && v.locale in all; }
    forall l | l in all ensures l in grown || (k == v.contentKey && l == v.locale) {
      var w :| w in seen + {v} && w.contentKey == k && w.locale == l;
      if w in seen { assert w.locale in grown; }
    }
  }

  function Enrolled(groups: map<string, map<string, string>>, key: string, locale: string, path: string): map<string, map<string, string>> {
    var siblings := if key in groups then groups[key] else map[];
    groups[key := siblings[locale := path]]
  }

  lemma GroupsGrow(d: string, seen: set<ArticleVersion>, v: ArticleVersion)
    requires OneEach(seen) && OneEach(seen + {v}) && v !in seen
    ensures Groups(d, seen + {v}) == Enrolled(Groups(d, seen), v.contentKey, v.locale, Destination(d, v))
  {
    hide Destination, Identities, Paths;
    SetsGrow(d, seen, v);
    GroupGrows(d, seen, v, v.contentKey);
    if v.contentKey !in Keys(seen) {
      assert Group(d, seen, v.contentKey) == map[];
    }
    forall k | k in Keys(seen) ensures Group(d, seen + {v}, k) == Enrolled(Groups(d, seen), v.contentKey, v.locale, Destination(d, v))[k] {
      GroupGrows(d, seen, v, k);
    }
  }

  // ----- The loop body -----

  /** The checks, in the source's order, against the sets and dictionaries at hand. */
  method CheckVersion(urls: Urls, codes: set<string>, site: Site, d: string, b: Book, v: ArticleVersion, ghost items: seq<ArticleVersion>)
      returns (fault: Option<string>)
    requires Reflects(site, d, items, b)
    ensures fault == Fault(urls, codes, d, Elems(items), v)
  {
    if v.locale !in codes { return Some("unsupported_locale"); }
    if !IsKey(v.contentKey) { return Some("missing_content_identity"); }
    if !IsSlug(v.slug) || !IsSlug(PublicSlug(v)) { return Some("invalid_article_slug"); }
    IdentityIsListed(Elems(items), v);
    if (v.contentKey, v.locale) in b.identities { return Some("duplicate_content_locale"); }
    if Destination(d, v) in b.paths { return Some("duplicate_public_path"); }
    if Strip(v.title) == "" || Strip(v.markdown) == "" { return Some("empty_published_content"); }
    if v.categoryKey != "" && v.categoryLocale != v.locale { return Some("category_locale_mismatch"); }
    if Aliased(d, v) {
      if v.sourcePath != SourcePath(v.locale, v.slug) { return Some("unexpected_source_path"); }
      RedirectIsListed(d, Elems(items), v.sourcePath);
      if v.sourcePath in b.redirects && b.redirects[v.sourcePath] != Destination(d, v) {
        return Some("conflicting_redirect");
      }
    }
    if !AssetOk(urls, v.coverUrl) || !AssetOk(urls, Or(v.ogImageUrl, v.coverUrl)) { return Some("invalid_asset_url"); }
    return None;
  }

  lemma IdentityIsListed(seen: set<ArticleVersion>, v: ArticleVersion)
    ensures (v.contentKey, v.locale) in Identities(seen) <==> exists w :: w in seen && SameIdentity(w, v)
  {
  }

  lemma RedirectIsListed(d: string, seen: set<ArticleVersion>, a: string)
    requires OneWay(d, seen)
    ensures a in Redirects(d, seen) <==> a in Aliases(d, seen)
    ensures a in Redirects(d, seen) ==> Redirects(d, seen)[a] in Paths(d, seen)
  {
  }

  lemma RowsGrow(site: Site, d: string, items: seq<ArticleVersion>, drafts: seq<Draft>, v: ArticleVersion)
    requires Rows(site, d, items, drafts)
    ensures Rows(site, d, items + [v], drafts + [DraftOf(site, d, v)])
  {
  }

  lemma AddedReflects(site: Site, d: string, items: seq<ArticleVersion>, b: Book, v: ArticleVersion, c: Book)
    requires Reflects(site, d, items, b) && Orderly(d, Elems(items + [v])) && v !in Elems(items)
    requires c == Added(site, d, b, v)
    ensures Reflects(site, d, items + [v], c)
  {
    var seen := Elems(items);
    ElemsGrow(items, v);
    assert c.identities == Identities(Elems(items + [v])) && c.paths == Paths(d, Elems(items + [v])) by { SetsGrow(d, seen, v); }
    assert c.redirects == Redirects(d, Elems(items + [v])) by { RedirectsGrow(d, seen, v); }
    assert c.groups == Groups(d, Elems(items + [v])) by { GroupsGrow(d, seen, v); }
    RowsGrow(site, d, items, b.drafts, v);
  }

  function Added(site: Site, d: string, b: Book, v: ArticleVersion): Book {
    var path := Destination(d, v);
    Book(
      b.drafts + [DraftOf(site, d, v)],
      b.identities + {(v.contentKey, v.locale)},
      b.paths + {path},
      if Aliased(d, v) then b.redirects[v.sourcePath := path] else b.redirects,
      Enrolled(b.groups, v.contentKey, v.locale, path))
  }

  ghost predicate BlamesVersion(urls: Urls, codes: set<string>, d: string, versions: seq<ArticleVersion>, code: string) {
    exists i :: 0 <= i < |versions| && Live(versions[i]) && Compatible(urls, codes, d, multiset(Published(versions[..i])))
                && Fault(urls, codes, d, Elems(Published(versions[..i])), versions[i]) == Some(code)
  }

  lemma PublishedStep(versions: seq<ArticleVersion>, i: nat)
    requires i < |versions|
    ensures Published(versions[..i + 1]) ==
            if Live(versions[i]) then Published(versions[..i]) + [versions[i]] else Published(versions[..i])
  {
    assert versions[..i + 1][..i] == versions[..i];
  }

  lemma BlameVersion(urls: Urls, codes: set<string>, d: string, versions: seq<ArticleVersion>, i: nat, code: string)
    requires i < |versions| && Live(versions[i]) && Compatible(urls, codes, d, multiset(Published(versions[..i])))
    requires Fault(urls, codes, d, Elems(Published(versions[..i])), versions[i]) == Some(code)
    ensures BlamesVersion(urls, codes, d, versions, code)
  {
  }

  lemma TakenVersion(urls: Urls, codes: set<string>, site: Site, d: string, b: Book, items: seq<ArticleVersion>, v: ArticleVersion)
    requires Reflects(site, d, items, b) && Compatible(urls, codes, d, multiset(items))
    requires Fault(urls, codes, d, Elems(items), v).None?
    ensures Compatible(urls, codes, d, multiset(items + [v]))
    ensures Reflects(site, d, items + [v], Added(site, d, b, v))
  {
    FaultFreeStep(urls, codes, d, items, v);
    CompatibleIsOrderly(urls, codes, d, items + [v]);
    assert v !in Elems(items) by { assert SameIdentity(v, v); }
    AddedReflects(site, d, items, b, v, Added(site, d, b, v));
  }

  method TakeVersion(urls: Urls, codes: set<string>, site: Site, d: string, b: Book, v: ArticleVersion, ghost items: seq<ArticleVersion>)
      returns (r: Result<Book, string>)
    requires Reflects(site, d, items, b) && Compatible(urls, codes, d, multiset(items))
    ensures r.Err? ==> Fault(urls, codes, d, Elems(items), v) == Some(r.error)
    ensures r.Ok? ==> Compatible(urls, codes, d, multiset(items + [v])) && Reflects(site, d, items + [v], r.value)
  {
    var fault := CheckVersion(urls, codes, site, d, b, v, items);
    if fault.Some? { return Err(fault.value); }
    TakenVersion(urls, codes, site, d, b, items, v);
    return Ok(Added(site, d, b, v));
  }

  method Collect(urls: Urls, codes: set<string>, site: Site, d: string, versions: seq<ArticleVersion>)
      returns (r: Result<Book, string>)
    ensures r.Ok? ==> Compatible(urls, codes, d, multiset(Published(versions))) && Reflects(site, d, Published(versions), r.value)
    ensures r.Err? ==> BlamesVersion(urls, codes, d, versions, r.error)
  {
    hide *;
    r := Ok(EMPTY);
    var i := 0;
    NothingYet(urls, codes, site, d);
    assert versions[..0] == [];
    while i < |versions| && r.Ok?
      invariant 0 <= i <= |versions|
      invariant r.Ok? ==> Compatible(urls, codes, d, multiset(Published(versions[..i]))) && Reflects(site, d, Published(versions[..i]), r.value)
      invariant r.Err? ==> BlamesVersion(urls, codes, d, versions, r.error)
    {
      PublishedStep(versions, i);
      if Live(versions[i]) {
        r := TakeVersion(urls, codes, site, d, r.value, versions[i], Published(versions[..i]));
        if r.Err? { BlameVersion(urls, codes, d, versions, i, r.error); }
      }
      i := i + 1;
    }
    assert r.Ok? ==> versions[..i] == versions;
  }

  lemma NothingYet(urls: Urls, codes: set<string>, site: Site, d: string)
    ensures Published([]) == [] && Reflects(site, d, [], EMPTY) && Compatible(urls, codes, d, multiset([]))
  {
  }

  // ----- Assembling the payload -----

  lemma DocumentFound(site: Site, d: string, items: seq<ArticleVersion>, b: Book, i: nat)
    requires Reflects(site, d, items, b) && i < |b.drafts|
    ensures b.drafts[i].contentKey in b.groups && b.drafts[i].path == Destination(d, items[i])
    ensures var draft := b.drafts[i];
            Document(draft, Sha(draft), Alternates(StripRight(site.origin), d, b.groups[draft.contentKey]))
            == DocumentOf(site, d, Elems(items), items[i])
  {
    assert items[i] in Elems(items);
  }

  ghost predicate Holds(site: Site, d: string, seen: set<ArticleVersion>, rows: map<string, Document>, v: ArticleVersion)
    requires OneEach(seen)
  {
    Destination(d, v) in rows && rows[Destination(d, v)] == DocumentOf(site, d, seen, v)
  }

  lemma HoldsMore(site: Site, d: string, seen: set<ArticleVersion>, rows: map<string, Document>, v: ArticleVersion, w: ArticleVersion)
    requires Orderly(d, seen) && v in seen && w in seen && Holds(site, d, seen, rows, v)
    ensures Holds(site, d, seen, rows[Destination(d, w) := DocumentOf(site, d, seen, w)], v)
  {
  }

  /** The rows, each under its address; addresses are distinct, so no row is lost. */
  method Documented(site: Site, d: string, b: Book, ghost items: seq<ArticleVersion>) returns (rows: map<string, Document>)
    requires Reflects(site, d, items, b)
    ensures forall v :: v in Elems(items) ==> Holds(site, d, Elems(items), rows, v)
    ensures rows.Keys == Paths(d, Elems(items))
  {
    hide DraftOf, DirectionOf, Destination, Redirects, Groups;
    rows := map[];
    var i := 0;
    ghost var seen := Elems(items);
    while i < |b.drafts|
      invariant 0 <= i <= |b.drafts| == |items|
      invariant OneEach(seen)
      invariant forall k :: 0 <= k < i ==> Holds(site, d, seen, rows, items[k])
      invariant forall p :: p in rows ==> exists k :: 0 <= k < i && Destination(d, items[k]) == p
    {
      var draft := b.drafts[i];
      DocumentFound(site, d, items, b, i);
      var document := Document(draft, Sha(draft), Alternates(StripRight(site.origin), d, b.groups[draft.contentKey]));
      forall k | 0 <= k < i ensures Holds(site, d, seen, rows[draft.path := document], items[k]) {
        assert items[k] in seen && items[i] in seen;
        HoldsMore(site, d, seen, rows, items[k], items[i]);
      }
      rows := rows[draft.path := document];
      i := i + 1;
    }
    RowsAreAll(d, items, rows.Keys);
  }

  lemma RowsAreAll(d: string, items: seq<ArticleVersion>, keys: set<string>)
    requires forall k :: 0 <= k < |items| ==> Destination(d, items[k]) in keys
    requires forall p :: p in keys ==> exists k :: 0 <= k < |items| && Destination(d, items[k]) == p
    ensures keys == Paths(d, Elems(items))
  {
    forall p | p in keys ensures p in Paths(d, Elems(items)) {
      var k :| 0 <= k < |items| && Destination(d, items[k]) == p;
      assert items[k] in Elems(items);
    }
  }

  method Articles(site: Site, d: string, b: Book, ghost items: seq<ArticleVersion>) returns (articles: seq<Document>)
    requires Reflects(site, d, items, b)
    ensures Ascending(PathsOf(articles)) && Elems(articles) == Documents(site, d, Elems(items))
  {
    var rows := Documented(site, d, b, items);
    var order := Sorted(rows.Keys);
    articles := seq(|order|, i requires 0 <= i < |order| && order[i] in rows => rows[order[i]]);
    ghost var seen := Elems(items);
    forall i | 0 <= i < |order| ensures exists v :: v in seen && order[i] == Destination(d, v) && articles[i] == DocumentOf(site, d, seen, v) {
      assert order[i] in order;
    }
    assert PathsOf(articles) == order;
    forall x | x in Documents(site, d, seen) ensures x in Elems(articles) {
      var v :| v in seen && x == DocumentOf(site, d, seen, v);
      assert Destination(d, v) in order;
      var i :| 0 <= i < |order| && order[i] == Destination(d, v);
      assert articles[i] == x;
    }
  }

  method Untranslated(codes: seq<string>, groups: map<string, map<string, string>>) returns (missing: seq<Missing>)
    ensures Ascending(KeysOf(missing))
    ensures Elems(missing) == set k | k in groups && groups[k].Keys != Elems(codes) :: Missing(k, Lacking(codes, groups[k].Keys))
  {
    hide Before, Lacking;
    missing := [];
    var order := Sorted(groups.Keys);
    var i := 0;
    var all := set c | c in codes;
    while i < |order|
      invariant 0 <= i <= |order|
      invariant forall m :: m in missing <==> (exists k :: 0 <= k < i && groups[order[k]].Keys != all && m == Missing(order[k], Lacking(codes, groups[order[k]].Keys)))
      invariant Ascending(KeysOf(missing))
      invariant forall m :: 0 <= m < |missing| && i < |order| ==> Before(missing[m].contentKey, order[i])
    {
      assert order[i] in order;
      ghost var had := missing;
      if groups[order[i]].Keys != all {
        missing := missing + [Missing(order[i], Lacking(codes, groups[order[i]].Keys))];
        assert KeysOf(missing) == KeysOf(had) + [order[i]];
      }
      forall m | 0 <= m < |missing| && i + 1 < |order| ensures Before(missing[m].contentKey, order[i + 1]) {
        if m < |had| { BeforeTransitive(missing[m].contentKey, order[i], order[i + 1]); }
      }
      i := i + 1;
    }
    forall k | k in groups ensures exists n :: 0 <= n < |order| && order[n] == k { assert k in order; }
  }

  // ----- The builder -----

  ghost predicate NameSound(site: Site) { Strip(site.name) != "" && |Strip(site.name)| <= 200 }

  predicate ModeSound(site: Site) { site.mode == "localized" || site.mode == "shared" }

  ghost predicate SiteSound(urls: Urls, site: Site, d: string) {
    && IsKey(site.code) && NameSound(site) && ValidLocales(site.locales, d)
    && urls.origin(site.origin) && AssetOk(urls, site.logo) && ModeSound(site)
  }

  ghost function Supported(site: Site): set<string> { Elems(Codes(site.locales)) }

  /** What the builder accepts; nothing in it depends on the order of the versions. */
  ghost predicate Accepts(urls: Urls, site: Site, live: multiset<ArticleVersion>, d: string) {
    && SiteSound(urls, site, d)
    && Compatible(urls, Supported(site), d, live)
    && NoShadow(d, Members(live))
  }

  ghost function Members(live: multiset<ArticleVersion>): set<ArticleVersion> { set v | v in live }

  ghost predicate Blames(urls: Urls, site: Site, versions: seq<ArticleVersion>, code: string) {
    if !IsKey(site.code) then code == "invalid_site_code"
    else if !NameSound(site) then code == "invalid_site_name"
    else BlamesLocales(site.locales, code) || exists d :: ValidLocales(site.locales, d) && BlamesRest(urls, site, d, versions, code)
  }

  ghost predicate BlamesRest(urls: Urls, site: Site, d: string, versions: seq<ArticleVersion>, code: string) {
    if !urls.origin(site.origin) then code == "invalid_public_origin"
    else if !AssetOk(urls, site.logo) then code == "invalid_asset_url"
    else if !ModeSound(site) then code == "invalid_base_route_mode"
    else
      || BlamesVersion(urls, Supported(site), d, versions, code)
      || (&& Compatible(urls, Supported(site), d, multiset(Published(versions)))
          && !NoShadow(d, Elems(Published(versions))) && code == "redirect_shadows_article")
  }

  ghost predicate Outcome(urls: Urls, site: Site, versions: seq<ArticleVersion>, r: Result<Release, string>) {
    match r
    case Ok(release) =>
      var d, live := release.payload.defaultLocale, multiset(Published(versions));
      && release.sha256 == Sha(release.payload)
      && Accepts(urls, site, live, d) && Orderly(d, Members(live)) && IsRelease(site, d, Members(live), release.payload)
    case Err(code) => Blames(urls, site, versions, code)
  }

  lemma MembersAreElems(items: seq<ArticleVersion>)
    ensures Members(multiset(items)) == Elems(items)
  {
  }

  lemma ShadowFree(d: string, items: seq<ArticleVersion>, b: Book, site: Site)
    requires Reflects(site, d, items, b)
    ensures b.paths * b.redirects.Keys == {} <==> NoShadow(d, Elems(items))
  {
    var seen := Elems(items);
    assert b.paths == Paths(d, seen) && b.redirects == Redirects(d, seen);
    SameKeys(d, seen);
  }

  lemma SameKeys(d: string, seen: set<ArticleVersion>)
    requires OneWay(d, seen)
    ensures Redirects(d, seen).Keys == Aliases(d, seen)
  {
    forall a ensures a in Redirects(d, seen) <==> a in Aliases(d, seen) { RedirectIsListed(d, seen, a); }
  }

  method Assemble(site: Site, d: string, locales: seq<Locale>, b: Book, ghost items: seq<ArticleVersion>) returns (p: Payload)
    requires Reflects(site, d, items, b)
    requires |locales| == |site.locales| && CleanedUpTo(site.locales, locales)
    ensures p.defaultLocale == d && IsRelease(site, d, Elems(items), p)
  {
    var articles := Articles(site, d, b, items);
    var missing := Untranslated(Codes(locales), b.groups);
    GapsAreUntranslated(site, d, locales, b, items, missing);
    return Payload(site.code, Strip(site.name), site.logo, site.mode, StripRight(site.origin), d, locales, articles, b.redirects, missing);
  }

  lemma GapsAreUntranslated(site: Site, d: string, locales: seq<Locale>, b: Book, items: seq<ArticleVersion>, missing: seq<Missing>)
    requires Reflects(site, d, items, b) && Codes(locales) == Codes(site.locales)
    requires Elems(missing) == set k | k in b.groups && b.groups[k].Keys != Elems(Codes(locales)) :: Missing(k, Lacking(Codes(locales), b.groups[k].Keys))
    ensures Elems(missing) == Gaps(site.locales, d, Elems(items))
  {
    var seen, codes := Elems(items), Codes(site.locales);
    forall k | k in Keys(seen) ensures k in b.groups && b.groups[k] == Group(d, seen, k) {}
    forall m | m in Elems(missing) ensures m in Gaps(site.locales, d, seen) {
      var k :| k in b.groups && b.groups[k].Keys != Elems(codes) && m == Missing(k, Lacking(codes, b.groups[k].Keys));
      assert k in Keys(seen);
    }
    forall m | m in Gaps(site.locales, d, seen) ensures m in Elems(missing) {
      var k :| k in Keys(seen) && Group(d, seen, k).Keys != Elems(codes) && m == Missing(k, Lacking(codes, Group(d, seen, k).Keys));
      assert k in b.groups;
    }
  }

  method BuildRelease(urls: Urls, site: Site, versions: seq<ArticleVersion>) returns (r: Result<Release, string>)
    ensures Outcome(urls, site, versions, r)
  {
    if !IsKey(site.code) { return Err("invalid_site_code"); }
    var name := Strip(site.name);
    if name == "" || |name| > 200 { return Err("invalid_site_name"); }
    var checked := ValidateLocales(site.locales);
    if checked.Err? { return Err(checked.error); }
    var locales, d := checked.value.0, checked.value.1;
    r := Freeze(urls, site, locales, d, versions);
  }

  method Freeze(urls: Urls, site: Site, locales: seq<Locale>, d: string, versions: seq<ArticleVersion>) returns (r: Result<Release, string>)
    requires IsKey(site.code) && NameSound(site) && ValidLocales(site.locales, d)
    requires |locales| == |site.locales| && CleanedUpTo(site.locales, locales)
    ensures r.Ok? ==> Outcome(urls, site, versions, r)
    ensures r.Err? ==> BlamesRest(urls, site, d, versions, r.error)
  {
    hide Compatible, Fault, NoShadow, IsRelease, Outcome, BlamesVersion, Reflects, IsKey, ValidLocales, NameSound, BlamesLocales, Cleaned;
    if !urls.origin(site.origin) { return Err("invalid_public_origin"); }
    if !AssetOk(urls, site.logo) { return Err("invalid_asset_url"); }
    if site.mode != "localized" && site.mode != "shared" { return Err("invalid_base_route_mode"); }
    var codes := set c | c in Codes(site.locales);
    var collected := Collect(urls, codes, site, d, versions);
    if collected.Err? { return Err(collected.error); }
    ghost var items := Published(versions);
    ShadowFree(d, items, collected.value, site);
    if collected.value.paths * collected.value.redirects.Keys != {} { return Err("redirect_shadows_article"); }
    var p := Assemble(site, d, locales, collected.value, items);
    Frozen(urls, site, d, versions, collected.value, p);
    return Ok(Release(p, Sha(p)));
  }

  lemma Frozen(urls: Urls, site: Site, d: string, versions: seq<ArticleVersion>, b: Book, p: Payload)
    requires SiteSound(urls, site, d) && p.defaultLocale == d
    requires Reflects(site, d, Published(versions), b)
    requires Compatible(urls, Supported(site), d, multiset(Published(versions)))
    requires NoShadow(d, Elems(Published(versions)))
    requires IsRelease(site, d, Elems(Published(versions)), p)
    ensures Outcome(urls, site, versions, Ok(Release(p, Sha(p))))
  {
    hide SiteSound, Compatible, NoShadow, IsRelease;
    MembersAreElems(Published(versions));
  }

  // ----- The order of the input does not matter -----

  lemma OneDefaultOnly(locales: seq<Locale>, d: string, e: string)
    requires ValidLocales(locales, d) && ValidLocales(locales, e)
    ensures d == e
  {
  }

  lemma {:induction false} PublishedCounts(versions: seq<ArticleVersion>, v: ArticleVersion)
    ensures multiset(Published(versions))[v] == if Live(v) then multiset(versions)[v] else 0
  {
    if versions != [] {
      var n := |versions| - 1;
      PublishedCounts(versions[..n], v);
      assert versions == versions[..n] + [versions[n]];
    }
  }

  lemma PublishedTogether(vs: seq<ArticleVersion>, ws: seq<ArticleVersion>)
    requires multiset(vs) == multiset(ws)
    ensures multiset(Published(vs)) == multiset(Published(ws))
  {
    forall v ensures multiset(Published(vs))[v] == multiset(Published(ws))[v] {
      PublishedCounts(vs, v);
      PublishedCounts(ws, v);
    }
  }

  /** A refusal is never wrong: what is blamed would be refused in any order. */
  lemma BlameMeansRefusal(urls: Urls, site: Site, versions: seq<ArticleVersion>, code: string, d: string)
    requires Blames(urls, site, versions, code)
    ensures !Accepts(urls, site, multiset(Published(versions)), d)
  {
    if SiteSound(urls, site, d) {
      if BlamesLocales(site.locales, code) { BlameIsJustified(site.locales, code, d); }
      var e :| ValidLocales(site.locales, e) && BlamesRest(urls, site, e, versions, code);
      OneDefaultOnly(site.locales, d, e);
      MembersAreElems(Published(versions));
      if BlamesVersion(urls, Supported(site), d, versions, code) {
        BlamedVersionRefused(urls, Supported(site), d, versions, code);
      }
    }
  }

  lemma BlamedVersionRefused(urls: Urls, codes: set<string>, d: string, versions: seq<ArticleVersion>, code: string)
    requires BlamesVersion(urls, codes, d, versions, code)
    ensures !Compatible(urls, codes, d, multiset(Published(versions)))
  {
    hide Compatible, Fault, Published, Live;
    var i :| 0 <= i < |versions| && Live(versions[i]) && Compatible(urls, codes, d, multiset(Published(versions[..i])))
             && Fault(urls, codes, d, Elems(Published(versions[..i])), versions[i]) == Some(code);
    PublishedStep(versions, i);
    FaultFreeStep(urls, codes, d, Published(versions[..i]), versions[i]);
    PublishedPrefix(versions, i + 1);
    if Compatible(urls, codes, d, multiset(Published(versions))) {
      CompatiblePart(urls, codes, d, multiset(Published(versions[..i + 1])), multiset(Published(versions)));
    }
  }

  lemma SameListing<T>(s: seq<T>, t: seq<T>, a: seq<string>, b: seq<string>)
    requires |s| == |a| && |t| == |b| && Ascending(a) && Ascending(b)
    requires forall x :: x in s <==> x in t
    requires forall i, j :: 0 <= i < |s| && 0 <= j < |t| && s[i] == t[j] ==> a[i] == b[j]
    ensures s == t
  {
    forall x ensures x in a <==> x in b {
      if x in a { var i :| 0 <= i < |a| && a[i] == x; assert s[i] in t; var j :| 0 <= j < |t| && t[j] == s[i]; assert b[j] == x; }
      if x in b { var i :| 0 <= i < |b| && b[i] == x; assert t[i] in s; var j :| 0 <= j < |s| && s[j] == t[i]; assert a[j] == x; }
    }
    ListingIsUnique(a, b);
    forall i | 0 <= i < |s| ensures s[i] == t[i] {
      assert s[i] in t;
      var j :| 0 <= j < |t| && t[j] == s[i];
      assert b[j] == a[i] == b[i];
      BeforeTotal(b[i], b[j]);
    }
  }

  lemma InBoth<T>(s: seq<T>, t: seq<T>)
    requires Elems(s) == Elems(t)
    ensures forall x :: x in s <==> x in t
  {
    forall x ensures x in s <==> x in t { assert x in Elems(s) <==> x in Elems(t); }
  }

  lemma ReleaseIsUnique(site: Site, d: string, seen: set<ArticleVersion>, p: Payload, q: Payload)
    requires Orderly(d, seen) && IsRelease(site, d, seen, p) && IsRelease(site, d, seen, q)
    ensures p == q
  {
    InBoth(p.articles, q.articles);
    SameListing(p.articles, q.articles, PathsOf(p.articles), PathsOf(q.articles));
    InBoth(p.missing, q.missing);
    SameListing(p.missing, q.missing, KeysOf(p.missing), KeysOf(q.missing));
    assert p.locales == q.locales;
  }

  /** The builder is canonical: over reordered input it succeeds or refuses alike, with the same payload and digest. */
  lemma BuilderIsCanonical(urls: Urls, site: Site, vs: seq<ArticleVersion>, ws: seq<ArticleVersion>, r: Result<Release, string>, t: Result<Release, string>)
    requires multiset(vs) == multiset(ws)
    requires Outcome(urls, site, vs, r) && Outcome(urls, site, ws, t)
    ensures r.Ok? <==> t.Ok?
    ensures r.Ok? ==> r.value == t.value
  {
    PublishedTogether(vs, ws);
    if r.Ok? && t.Err? { BlameMeansRefusal(urls, site, ws, t.error, r.value.payload.defaultLocale); }
    if r.Err? && t.Ok? { BlameMeansRefusal(urls, site, vs, r.error, t.value.payload.defaultLocale); }
    if r.Ok? && t.Ok? {
      var p, q := r.value.payload, t.value.payload;
      OneDefaultOnly(site.locales, p.defaultLocale, q.defaultLocale);
      ReleaseIsUnique(site, p.defaultLocale, Members(multiset(Published(vs))), p, q);
    }
  }
}
