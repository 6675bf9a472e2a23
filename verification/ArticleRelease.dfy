/**
 The deterministic release builder (article_delivery.build_article_release):
 which versions it accepts, what it freezes, and why the order of its input
 cannot show in the result.
 */
module ArticleRelease {
  import opened Wrappers
  import opened Digests
  import opened Text
  import opened ArticleNames

  // ----- Input -----

  datatype Locale = Locale(code: string, text: string, direction: string, isDefault: bool)

  datatype ArticleVersion = ArticleVersion(
    contentKey: string, locale: string, slug: string, title: string, markdown: string, excerpt: string,
    description: string, ogTitle: string, ogDescription: string, ogImageUrl: string, robots: string, author: string,
    coverUrl: string, categoryKey: string, categoryLabel: string, categoryLocale: string, sourcePath: string,
    publicSlug: string, status: string, routeStatus: string, enabled: bool)

  datatype Site = Site(code: string, name: string, locales: seq<Locale>, origin: string, logo: string, mode: string)

  /** The URL checks the builder leaves to the standard library: which origins and which asset addresses pass. */
  datatype Urls = Urls(origin: string -> bool, asset: string -> bool)

  // ----- Output -----

  datatype Draft = Draft(
    contentKey: string, language: string, direction: string, path: string, canonical: string, title: string,
    excerpt: string, body: string, description: string, author: string, coverUrl: string, ogTitle: string,
    ogDescription: string, ogImageUrl: string, robots: string, category: Option<(string, string)>)

  datatype Document = Document(draft: Draft, sha256: Digest<Draft>, alternates: map<string, string>)

  datatype Missing = Missing(contentKey: string, languages: seq<string>)

  datatype Payload = Payload(
    siteCode: string, siteName: string, logo: string, mode: string, origin: string, defaultLocale: string,
    locales: seq<Locale>, articles: seq<Document>, redirects: map<string, string>, missing: seq<Missing>)

  datatype Release = Release(payload: Payload, sha256: Digest<Payload>)

  // ----- Locales -----

  function Codes(locales: seq<Locale>): (codes: seq<string>)
    ensures |codes| == |locales|
    ensures forall i :: 0 <= i < |locales| ==> codes[i] == locales[i].code
  {
    seq(|locales|, i requires 0 <= i < |locales| => locales[i].code)
  }

  function Cleaned(l: Locale): Locale { l.(text := Strip(l.text)) }

  function LocaleFault(taken: seq<string>, l: Locale): Option<string> {
    if !IsLocale(l.code) || l.code in taken then Some("invalid_locale")
    else if l.direction != "ltr" && l.direction != "rtl" then Some("invalid_locale_direction")
    else if Strip(l.text) == "" || |Strip(l.text)| > 100 then Some("invalid_locale_label")
    else None
  }

  ghost predicate SoundUpTo(locales: seq<Locale>, n: nat)
    requires n <= |locales|
  {
    forall i :: 0 <= i < n ==> LocaleFault(Codes(locales)[..i], locales[i]).None?
  }

  ghost predicate OneDefault(locales: seq<Locale>, code: string) {
    exists i :: 0 <= i < |locales| && locales[i].isDefault && locales[i].code == code
                && forall j :: 0 <= j < |locales| && locales[j].isDefault ==> j == i
  }

  ghost predicate ValidLocales(locales: seq<Locale>, default: string) {
    locales != [] && SoundUpTo(locales, |locales|) && OneDefault(locales, default)
  }

  ghost predicate BlamesLocales(locales: seq<Locale>, code: string) {
    || (locales == [] && code == "locales_required")
    || (exists i :: 0 <= i < |locales| && SoundUpTo(locales, i) && LocaleFault(Codes(locales)[..i], locales[i]) == Some(code))
    || (locales != [] && SoundUpTo(locales, |locales|) && NotOneDefault(locales) && code == "one_default_locale_required")
  }

  ghost predicate NotOneDefault(locales: seq<Locale>) {
    || (forall i :: 0 <= i < |locales| ==> !locales[i].isDefault)
    || (exists i, j :: 0 <= i < j < |locales| && locales[i].isDefault && locales[j].isDefault)
  }

  /** A refusal is justified: no choice of default makes these locales valid. */
  lemma BlameIsJustified(locales: seq<Locale>, code: string, default: string)
    requires BlamesLocales(locales, code)
    ensures !ValidLocales(locales, default)
  {
  }

  /** An accepted locale is clean: checking what came of it again accepts it unchanged. */
  lemma CleaningSettles(taken: seq<string>, l: Locale)
    requires LocaleFault(taken, l).None?
    ensures LocaleFault(taken, Cleaned(l)).None? && Cleaned(Cleaned(l)) == Cleaned(l)
    ensures Trimmed(Cleaned(l).text) && 1 <= |Cleaned(l).text| <= 100
  {
    StripIsTrimmed(l.text);
    StripTrimmed(Strip(l.text));
  }

  method CheckLocale(taken: seq<string>, l: Locale) returns (r: Result<Locale, string>)
    ensures r == match LocaleFault(taken, l) { case Some(code) => Err(code) case None => Ok(Cleaned(l)) }
  {
    if !IsLocale(l.code) || l.code in taken { return Err("invalid_locale"); }
    if l.direction != "ltr" && l.direction != "rtl" { return Err("invalid_locale_direction"); }
    var text := Strip(l.text);
    if text == "" || |text| > 100 { return Err("invalid_locale_label"); }
    return Ok(Locale(l.code, text, l.direction, l.isDefault));
  }

  method ValidateLocales(locales: seq<Locale>) returns (r: Result<(seq<Locale>, string), string>)
    ensures r.Ok? ==> ValidLocales(locales, r.value.1)
    ensures r.Ok? ==> |r.value.0| == |locales| && CleanedUpTo(locales, r.value.0)
    ensures r.Err? ==> BlamesLocales(locales, r.error)
  {
    if locales == [] { return Err("locales_required"); }
    NoneYet(locales);
    var result: seq<Locale> := [];
    var defaults: seq<int> := [];
    hide *;
    var i := 0;
    while i < |locales|
      invariant 0 <= i == |result| <= |locales|
      invariant SoundUpTo(locales, i) && CleanedUpTo(locales, result)
      invariant DefaultsUpTo(locales, i, defaults)
    {
      SameCodes(locales, result);
      var checked := CheckLocale(Codes(result), locales[i]);
      SoundOrBlamed(locales, i);
      if checked.Err? { return Err(checked.error); }
      MoreCleaned(locales, result, checked.value);
      result := result + [checked.value];
      MoreDefaults(locales, i, defaults);
      if locales[i].isDefault { defaults := defaults + [i]; }
      i := i + 1;
    }
    CountsDefaults(locales, defaults);
    WholeListJudged(locales);
    if |defaults| != 1 { return Err("one_default_locale_required"); }
    return Ok((result, locales[defaults[0]].code));
  }

  lemma NoneYet(locales: seq<Locale>)
    ensures SoundUpTo(locales, 0) && DefaultsUpTo(locales, 0, []) && CleanedUpTo(locales, [])
  {
  }

  ghost predicate CleanedUpTo(locales: seq<Locale>, result: seq<Locale>)
    requires |result| <= |locales|
  {
    forall k :: 0 <= k < |result| ==> result[k] == Cleaned(locales[k])
  }

  lemma MoreCleaned(locales: seq<Locale>, result: seq<Locale>, l: Locale)
    requires |result| < |locales| && CleanedUpTo(locales, result) && l == Cleaned(locales[|result|])
    ensures CleanedUpTo(locales, result + [l])
  {
    hide Cleaned;
  }

  /** The positions of the default locales among the first `n`, in order. */
  ghost predicate DefaultsUpTo(locales: seq<Locale>, n: nat, defaults: seq<int>)
    requires n <= |locales|
  {
    && (forall k :: 0 <= k < |defaults| ==> 0 <= defaults[k] < n && locales[defaults[k]].isDefault)
    && (forall k, m :: 0 <= k < m < |defaults| ==> defaults[k] < defaults[m])
    && (forall k :: 0 <= k < n && locales[k].isDefault ==> k in defaults)
  }

  lemma MoreDefaults(locales: seq<Locale>, n: nat, defaults: seq<int>)
    requires n < |locales| && DefaultsUpTo(locales, n, defaults)
    ensures DefaultsUpTo(locales, n + 1, if locales[n].isDefault then defaults + [n] else defaults)
  {
    if locales[n].isDefault {
      var more := defaults + [n];
      forall k | 0 <= k < |more| ensures 0 <= more[k] < n + 1 && locales[more[k]].isDefault {
        if k < |defaults| { assert more[k] == defaults[k]; }
      }
      forall k, m | 0 <= k < m < |more| ensures more[k] < more[m] {
        assert more[k] == defaults[k];
        if m < |defaults| { assert more[m] == defaults[m]; }
      }
      forall k | 0 <= k < n + 1 && locales[k].isDefault ensures k in more {
        if k < n { assert k in defaults; } else { assert more[|defaults|] == k; }
      }
    }
  }

  lemma SameCodes(locales: seq<Locale>, result: seq<Locale>)
    requires |result| <= |locales| && CleanedUpTo(locales, result)
    ensures Codes(locales)[..|result|] == Codes(result)
  {
  }

  lemma SoundOrBlamed(locales: seq<Locale>, i: nat)
    requires i < |locales| && SoundUpTo(locales, i)
    ensures match LocaleFault(Codes(locales)[..i], locales[i])
            case None => SoundUpTo(locales, i + 1)
            case Some(code) => BlamesLocales(locales, code)
  {
    hide LocaleFault;
  }

  lemma WholeListJudged(locales: seq<Locale>)
    requires locales != [] && SoundUpTo(locales, |locales|)
    ensures NotOneDefault(locales) ==> BlamesLocales(locales, "one_default_locale_required")
    ensures forall d :: OneDefault(locales, d) ==> ValidLocales(locales, d)
  {
    hide LocaleFault, NotOneDefault, OneDefault;
  }

  lemma CountsDefaults(locales: seq<Locale>, defaults: seq<int>)
    requires DefaultsUpTo(locales, |locales|, defaults)
    ensures if |defaults| == 1 then 0 <= defaults[0] < |locales| && OneDefault(locales, locales[defaults[0]].code) else NotOneDefault(locales)
  {
    if |defaults| > 1 {
      assert locales[defaults[0]].isDefault && locales[defaults[1]].isDefault && defaults[0] < defaults[1];
    }
    if |defaults| == 1 {
      assert locales[defaults[0]].isDefault;
    }
  }

  function DirectionOf(locales: seq<Locale>, code: string): string {
    if locales == [] then ""
    else if locales[0].code == code then locales[0].direction
    else DirectionOf(locales[1..], code)
  }

  // ----- One version -----

  function Or(a: string, b: string): string { if a != "" then a else b }

  predicate Live(v: ArticleVersion) {
    v.status == "published" && v.routeStatus == "published" && v.enabled
  }

  function PublicSlug(v: ArticleVersion): string { Or(v.publicSlug, v.slug) }

  function Destination(d: string, v: ArticleVersion): string { ArticlePath(v.locale, PublicSlug(v), d) }

  /** The version was served elsewhere before, so its old address becomes a redirect. */
  predicate Aliased(d: string, v: ArticleVersion) { v.sourcePath != "" && v.sourcePath != Destination(d, v) }

  predicate SameIdentity(v: ArticleVersion, w: ArticleVersion) { v.contentKey == w.contentKey && v.locale == w.locale }

  predicate AssetOk(urls: Urls, url: string) { url == "" || urls.asset(url) }

  const ROBOTS := "index,follow,max-image-preview:large"

  function DraftOf(site: Site, d: string, v: ArticleVersion): Draft {
    var path := Destination(d, v);
    Draft(
      v.contentKey, v.locale, DirectionOf(site.locales, v.locale), path, StripRight(site.origin) + path, v.title, v.excerpt,
      v.markdown, Or(v.description, v.excerpt), v.author, v.coverUrl, Or(v.ogTitle, v.title),
      Or(v.ogDescription, Or(v.description, v.excerpt)), Or(v.ogImageUrl, v.coverUrl), Or(v.robots, ROBOTS),
      if v.categoryKey != "" then Some((v.categoryKey, v.categoryLabel)) else None)
  }

  // ----- What the builder accepts, whatever the order -----

  predicate Sound(urls: Urls, codes: set<string>, d: string, v: ArticleVersion) {
    && v.locale in codes && IsKey(v.contentKey) && IsSlug(v.slug) && IsSlug(PublicSlug(v))
    && Strip(v.title) != "" && Strip(v.markdown) != ""
    && (v.categoryKey != "" ==> v.categoryLocale == v.locale)
    && (Aliased(d, v) ==> v.sourcePath == SourcePath(v.locale, v.slug))
    && AssetOk(urls, v.coverUrl) && AssetOk(urls, Or(v.ogImageUrl, v.coverUrl))
  }

  predicate Agree(d: string, v: ArticleVersion, w: ArticleVersion) {
    && !SameIdentity(v, w)
    && Destination(d, v) != Destination(d, w)
    && !(Aliased(d, v) && Aliased(d, w) && v.sourcePath == w.sourcePath)
  }

  ghost predicate Compatible(urls: Urls, codes: set<string>, d: string, live: multiset<ArticleVersion>) {
    && (forall v :: v in live ==> live[v] == 1 && Sound(urls, codes, d, v))
    && (forall v, w :: v in live && w in live && v != w ==> Agree(d, v, w))
  }

  ghost function Paths(d: string, seen: set<ArticleVersion>): set<string> {
    set v | v in seen :: Destination(d, v)
  }

  ghost function Aliases(d: string, seen: set<ArticleVersion>): set<string> {
    set v | v in seen && Aliased(d, v) :: v.sourcePath
  }

  ghost predicate NoShadow(d: string, seen: set<ArticleVersion>) {
    Paths(d, seen) * Aliases(d, seen) == {}
  }

  // ----- What the builder says about one version, given the ones it has taken -----

  ghost function Fault(urls: Urls, codes: set<string>, d: string, seen: set<ArticleVersion>, v: ArticleVersion): Option<string> {
    if v.locale !in codes then Some("unsupported_locale")
    else if !IsKey(v.contentKey) then Some("missing_content_identity")
    else if !IsSlug(v.slug) || !IsSlug(PublicSlug(v)) then Some("invalid_article_slug")
    else if exists w :: w in seen && SameIdentity(w, v) then Some("duplicate_content_locale")
    else if Destination(d, v) in Paths(d, seen) then Some("duplicate_public_path")
    else if Strip(v.title) == "" || Strip(v.markdown) == "" then Some("empty_published_content")
    else if v.categoryKey != "" && v.categoryLocale != v.locale then Some("category_locale_mismatch")
    else if Aliased(d, v) && v.sourcePath != SourcePath(v.locale, v.slug) then Some("unexpected_source_path")
    else if Aliased(d, v) && v.sourcePath in Aliases(d, seen) then Some("conflicting_redirect")
    else if !AssetOk(urls, v.coverUrl) || !AssetOk(urls, Or(v.ogImageUrl, v.coverUrl)) then Some("invalid_asset_url")
    else None
  }

  function Published(versions: seq<ArticleVersion>): seq<ArticleVersion> {
    if versions == [] then []
    else
      var last := versions[|versions| - 1];
      Published(versions[..|versions| - 1]) + if Live(last) then [last] else []
  }

  ghost function Elems<T>(s: seq<T>): set<T> { set x | x in s }

  /** One more version is compatible with the rest exactly when the builder finds no fault with it. */
  lemma FaultFreeStep(urls: Urls, codes: set<string>, d: string, items: seq<ArticleVersion>, v: ArticleVersion)
    requires Compatible(urls, codes, d, multiset(items))
    ensures Compatible(urls, codes, d, multiset(items + [v])) <==> Fault(urls, codes, d, Elems(items), v).None?
  {
    if Fault(urls, codes, d, Elems(items), v).None? { FaultlessJoins(urls, codes, d, items, v); }
    if Compatible(urls, codes, d, multiset(items + [v])) { FaultyCannotJoin(urls, codes, d, items, v); }
  }

  lemma FaultlessJoins(urls: Urls, codes: set<string>, d: string, items: seq<ArticleVersion>, v: ArticleVersion)
    requires Compatible(urls, codes, d, multiset(items))
    requires Fault(urls, codes, d, Elems(items), v).None?
    ensures Compatible(urls, codes, d, multiset(items + [v]))
  {
    NoFault(urls, codes, d, Elems(items), v);
    hide Sound, Destination, Aliased, Fault, SameIdentity;
    var had, more := multiset(items), multiset(items + [v]);
    assert more == had + multiset{v};
    forall w | w in had ensures w != v && Agree(d, v, w) && Agree(d, w, v) {
      assert w in Elems(items);
    }
  }

  lemma NoFault(urls: Urls, codes: set<string>, d: string, seen: set<ArticleVersion>, v: ArticleVersion)
    requires Fault(urls, codes, d, seen, v).None?
    ensures Sound(urls, codes, d, v)
    ensures forall w :: w in seen ==> w != v && Agree(d, v, w) && Agree(d, w, v)
  {
    hide IsKey, IsSlug, AssetOk, Strip, Destination, SourcePath;
    forall w | w in seen ensures w != v && Agree(d, v, w) && Agree(d, w, v) {
      assert !SameIdentity(w, v);
      assert Destination(d, w) in Paths(d, seen);
      assert Aliased(d, w) ==> w.sourcePath in Aliases(d, seen);
    }
  }

  lemma FaultyCannotJoin(urls: Urls, codes: set<string>, d: string, items: seq<ArticleVersion>, v: ArticleVersion)
    requires Compatible(urls, codes, d, multiset(items + [v]))
    ensures Fault(urls, codes, d, Elems(items), v).None?
  {
    var more := multiset(items + [v]);
    assert more == multiset(items) + multiset{v};
    assert v in more && more[v] == 1;
    NoneLikeIt(d, items, v);
  }

  lemma NoneLikeIt(d: string, items: seq<ArticleVersion>, v: ArticleVersion)
    requires forall w :: w in multiset(items) ==> w != v && Agree(d, w, v)
    ensures forall w :: w in Elems(items) ==> !SameIdentity(w, v)
    ensures Destination(d, v) !in Paths(d, Elems(items))
    ensures Aliased(d, v) ==> v.sourcePath !in Aliases(d, Elems(items))
  {
    forall w | w in Elems(items) ensures Agree(d, w, v) {
      assert w in multiset(items);
    }
  }

  /** A part of a compatible collection is compatible. */
  lemma CompatiblePart(urls: Urls, codes: set<string>, d: string, part: multiset<ArticleVersion>, whole: multiset<ArticleVersion>)
    requires part <= whole && Compatible(urls, codes, d, whole)
    ensures Compatible(urls, codes, d, part)
  {
    forall v | v in part ensures v in whole && part[v] == 1 {
      assert part[v] <= whole[v];
    }
  }

  lemma {:induction false} PublishedPrefix(versions: seq<ArticleVersion>, n: nat)
    requires n <= |versions|
    ensures multiset(Published(versions[..n])) <= multiset(Published(versions))
    decreases |versions| - n
  {
    if n < |versions| {
      PublishedPrefix(versions, n + 1);
      assert versions[..n + 1][..n] == versions[..n];
    } else {
      assert versions[..n] == versions;
    }
  }

  // ----- The frozen release, as a function of the set of live versions -----

  ghost predicate OneEach(seen: set<ArticleVersion>) {
    forall v, w :: v in seen && w in seen && SameIdentity(v, w) ==> v == w
  }

  ghost predicate OneWay(d: string, seen: set<ArticleVersion>) {
    forall v, w :: v in seen && w in seen && Aliased(d, v) && Aliased(d, w) && v.sourcePath == w.sourcePath ==> v == w
  }

  ghost predicate PathsDiffer(d: string, seen: set<ArticleVersion>) {
    forall v, w :: v in seen && w in seen && Destination(d, v) == Destination(d, w) ==> v == w
  }

  ghost predicate Orderly(d: string, seen: set<ArticleVersion>) {
    OneEach(seen) && OneWay(d, seen) && PathsDiffer(d, seen)
  }

  lemma CompatibleIsOrderly(urls: Urls, codes: set<string>, d: string, items: seq<ArticleVersion>)
    requires Compatible(urls, codes, d, multiset(items))
    ensures Orderly(d, Elems(items))
  {
    forall v, w | v in Elems(items) && w in Elems(items) && v != w ensures Agree(d, v, w) {
      assert v in multiset(items) && w in multiset(items);
    }
    AgreeIsOrderly(d, Elems(items));
  }

  lemma AgreeIsOrderly(d: string, seen: set<ArticleVersion>)
    requires forall v, w :: v in seen && w in seen && v != w ==> Agree(d, v, w)
    ensures Orderly(d, seen)
  {
  }

  ghost function Redirects(d: string, seen: set<ArticleVersion>): map<string, string>
    requires OneWay(d, seen)
  {
    map v | v in seen && Aliased(d, v) :: v.sourcePath := Destination(d, v)
  }

  ghost function Keys(seen: set<ArticleVersion>): set<string> { set v | v in seen :: v.contentKey }

  /** The translations of one content key: language to address. */
  ghost function Group(d: string, seen: set<ArticleVersion>, key: string): map<string, string>
    requires OneEach(seen)
  {
    map v | v in seen && v.contentKey == key :: v.locale := Destination(d, v)
  }

  function Alternates(origin: string, d: string, siblings: map<string, string>): map<string, string> {
    var urls := map l | l in siblings :: origin + siblings[l];
    if d in siblings then urls["x-default" := origin + siblings[d]] else urls
  }

  ghost function DocumentOf(site: Site, d: string, seen: set<ArticleVersion>, v: ArticleVersion): Document
    requires OneEach(seen)
  {
    var draft := DraftOf(site, d, v);
    Document(draft, Sha(draft), Alternates(StripRight(site.origin), d, Group(d, seen, v.contentKey)))
  }

  function Lacking(codes: seq<string>, have: set<string>): (lacking: seq<string>)
    ensures forall c :: c in lacking <==> c in codes && c !in have
  {
    if codes == [] then []
    else (if codes[0] !in have then [codes[0]] else []) + Lacking(codes[1..], have)
  }

  ghost function Documents(site: Site, d: string, seen: set<ArticleVersion>): set<Document>
    requires OneEach(seen)
  {
    set v | v in seen :: DocumentOf(site, d, seen, v)
  }

  ghost function Gaps(locales: seq<Locale>, d: string, seen: set<ArticleVersion>): set<Missing>
    requires OneEach(seen)
  {
    set k | k in Keys(seen) && Group(d, seen, k).Keys != Elems(Codes(locales)) :: Missing(k, Lacking(Codes(locales), Group(d, seen, k).Keys))
  }

  function PathsOf(docs: seq<Document>): seq<string> {
    seq(|docs|, i requires 0 <= i < |docs| => docs[i].draft.path)
  }

  function KeysOf(gaps: seq<Missing>): seq<string> {
    seq(|gaps|, i requires 0 <= i < |gaps| => gaps[i].contentKey)
  }

  ghost predicate IsHeader(site: Site, d: string, p: Payload) {
    && p.siteCode == site.code && p.siteName == Strip(site.name) && p.logo == site.logo && p.mode == site.mode
    && p.origin == StripRight(site.origin) && p.defaultLocale == d
    && |p.locales| == |site.locales| && forall i :: 0 <= i < |site.locales| ==> p.locales[i] == Cleaned(site.locales[i])
  }

  ghost predicate IsRelease(site: Site, d: string, seen: set<ArticleVersion>, p: Payload)
    requires Orderly(d, seen)
  {
    && IsHeader(site, d, p)
    && Ascending(PathsOf(p.articles)) && Elems(p.articles) == Documents(site, d, seen)
    && p.redirects == Redirects(d, seen)
    && Ascending(KeysOf(p.missing)) && Elems(p.missing) == Gaps(site.locales, d, seen)
  }
}
