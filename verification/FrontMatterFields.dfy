/**
 What an export says and what an import reads back, on the article itself: which
 of its values stands under which key, and its body.
 */
module FrontMatterFields {
  import opened Text
  import opened FrontMatter

  /** The text stands under this key exactly when it is not empty. */
  predicate Under(m: map<string, string>, key: string, value: string) {
    (key in m <==> value != "") && (value != "" ==> m[key] == value)
  }

  /** Title and slug always, the category's code if there is one, every other text unless it is empty, and nothing else. */
  predicate SaysArticle(m: map<string, string>, a: Article) {
    && "title" in m && m["title"] == a.title && "slug" in m && m["slug"] == a.slug
    && ("category_code" in m <==> a.category.Some?) && (a.category.Some? ==> m["category_code"] == a.category.value)
    && Under(m, "status", a.status) && Under(m, "published_at", a.publishedAt) && Under(m, "excerpt", a.excerpt)
    && Under(m, "author_name", a.authorName) && Under(m, "reading_minutes", a.readingMinutes)
    && Under(m, "meta_description", a.metaDescription) && Under(m, "og_title", a.ogTitle)
    && Under(m, "og_description", a.ogDescription) && Under(m, "og_image_url", a.ogImageUrl) && Under(m, "robots", a.robots)
    && m.Keys <= {"title", "slug", "category_code", "status", "published_at", "excerpt", "author_name", "reading_minutes",
                  "meta_description", "og_title", "og_description", "og_image_url", "robots"}
  }

  // ----- Fields that are left out when empty -----

  function Filled(first: seq<Field>, rest: seq<Field>): seq<Field> {
    if rest == [] then first else Filled(first, rest[..|rest| - 1]) + When(rest[|rest| - 1].0, rest[|rest| - 1].1)
  }

  lemma FilledMore(first: seq<Field>, rest: seq<Field>, key: string, value: string)
    ensures Filled(first, rest + [(key, value)]) == Filled(first, rest) + When(key, value)
  {
    assert (rest + [(key, value)])[..|rest|] == rest;
  }

  predicate KeysDiffer(fields: seq<Field>) { forall i, j :: 0 <= i < j < |fields| ==> fields[i].0 != fields[j].0 }

  lemma MapMore(fields: seq<Field>, key: string, value: string)
    ensures AsMap(fields + [(key, value)]) == AsMap(fields)[key := value]
    ensures AsMap(fields + When(key, value)) == if value != "" then AsMap(fields)[key := value] else AsMap(fields)
  {
    assert (fields + [(key, value)])[..|fields|] == fields;
    assert fields + [] == fields;
  }

  lemma {:induction false} FilledSays(first: seq<Field>, rest: seq<Field>)
    requires KeysDiffer(rest) && forall i :: 0 <= i < |rest| ==> rest[i].0 !in AsMap(first)
    ensures var m := AsMap(Filled(first, rest));
            && (forall i :: 0 <= i < |rest| ==> Under(m, rest[i].0, rest[i].1))
            && (forall k :: k in AsMap(first) ==> k in m && m[k] == AsMap(first)[k])
            && (forall k :: k in m ==> k in AsMap(first) || exists i :: 0 <= i < |rest| && rest[i].0 == k)
  {
    hide AsMap;
    if rest != [] {
      var n := |rest| - 1;
      FilledSays(first, rest[..n]);
      MapMore(Filled(first, rest[..n]), rest[n].0, rest[n].1);
      var m := AsMap(Filled(first, rest[..n]));
      forall i | 0 <= i < n ensures Under(m, rest[i].0, rest[i].1) && rest[i].0 != rest[n].0 { assert rest[..n][i] == rest[i]; }
    }
  }

  // ----- The thirteen fields -----

  function First(a: Article): seq<Field> {
    [("title", a.title), ("slug", a.slug)] + if a.category.Some? then [("category_code", a.category.value)] else []
  }

  function Texts(a: Article): seq<Field> {
    [("status", a.status), ("published_at", a.publishedAt), ("excerpt", a.excerpt), ("author_name", a.authorName),
     ("reading_minutes", a.readingMinutes), ("meta_description", a.metaDescription), ("og_title", a.ogTitle),
     ("og_description", a.ogDescription), ("og_image_url", a.ogImageUrl), ("robots", a.robots)]
  }

  lemma ExportedIsFilled(a: Article)
    ensures Exported(a) == Filled(First(a), Texts(a))
  {
    hide When;
    var f, r := First(a), [];
    assert Filled(f, r) == f;
    hide Filled, First;
    FilledMore(f, r, "status", a.status);
    r := r + [("status", a.status)];
    FilledMore(f, r, "published_at", a.publishedAt);
    r := r + [("published_at", a.publishedAt)];
    FilledMore(f, r, "excerpt", a.excerpt);
    r := r + [("excerpt", a.excerpt)];
    FilledMore(f, r, "author_name", a.authorName);
    r := r + [("author_name", a.authorName)];
    FilledMore(f, r, "reading_minutes", a.readingMinutes);
    r := r + [("reading_minutes", a.readingMinutes)];
    FilledMore(f, r, "meta_description", a.metaDescription);
    r := r + [("meta_description", a.metaDescription)];
    FilledMore(f, r, "og_title", a.ogTitle);
    r := r + [("og_title", a.ogTitle)];
    FilledMore(f, r, "og_description", a.ogDescription);
    r := r + [("og_description", a.ogDescription)];
    FilledMore(f, r, "og_image_url", a.ogImageUrl);
    r := r + [("og_image_url", a.ogImageUrl)];
    FilledMore(f, r, "robots", a.robots);
    r := r + [("robots", a.robots)];
    assert r == Texts(a);
  }

  lemma TextsAreRanked(a: Article)
    ensures forall i :: 0 <= i < 10 ==> Rank(Texts(a)[i].0) == 3 + i
    ensures Rank("title") == 0 && Rank("slug") == 1 && Rank("category_code") == 2
  {
    FirstKeys();
    StatusKeys();
    AuthorKeys();
    MetaKeys();
    OpenGraphKeys();
    LastKey();
    hide Rank, IsKey;
  }

  lemma FirstMap(a: Article)
    ensures var m := AsMap(First(a));
            && "title" in m && m["title"] == a.title && "slug" in m && m["slug"] == a.slug
            && ("category_code" in m <==> a.category.Some?) && (a.category.Some? ==> m["category_code"] == a.category.value)
            && m.Keys <= {"title", "slug", "category_code"}
  {
    TextsAreRanked(a);
    var f: seq<Field> := [];
    assert AsMap(f) == map[];
    hide AsMap, Rank;
    MapMore(f, "title", a.title);
    f := f + [("title", a.title)];
    MapMore(f, "slug", a.slug);
    f := f + [("slug", a.slug)];
    assert f == [("title", a.title), ("slug", a.slug)] && f + [] == f;
    if a.category.Some? { MapMore(f, "category_code", a.category.value); }
  }

  lemma ExportedSays(a: Article)
    ensures SaysArticle(AsMap(Exported(a)), a)
  {
    TextsAreRanked(a);
    ExportedIsFilled(a);
    FirstMap(a);
    hide AsMap, Exported, Rank, First;
    var r, m := Texts(a), AsMap(Exported(a));
    FilledSays(First(a), r);
    assert Under(m, r[0].0, r[0].1) && Under(m, r[1].0, r[1].1) && Under(m, r[2].0, r[2].1) && Under(m, r[3].0, r[3].1) && Under(m, r[4].0, r[4].1);
    assert Under(m, r[5].0, r[5].1) && Under(m, r[6].0, r[6].1) && Under(m, r[7].0, r[7].1) && Under(m, r[8].0, r[8].1) && Under(m, r[9].0, r[9].1);
    hide Under, Filled;
  }

  // ----- Reading back -----

  predicate HasText(s: string) { exists c :: c in s && !White(c) }

  lemma CleanIsOneLine(fields: seq<Field>)
    requires AllClean(fields)
    ensures FieldsOnOneLine(fields)
  {
    hide White, Break, Trimmed, Quoted;
  }

  /** What comes back of an article with clean values: all its fields, and its body or, without one, its title and excerpt. */
  lemma ArticleReadsBack(a: Article)
    requires AllClean(Exported(a))
    ensures SaysArticle(Parsed(Printed(a)).0, a)
    ensures Strip(Parsed(Printed(a)).1) == if HasText(a.body) then Strip(a.body) else Strip("# " + a.title + "\n\n" + Strip(a.excerpt))
  {
    ExportedSays(a);
    FieldsReadBack(a);
    CleanIsOneLine(Exported(a));
    BodyReadsBack(a);
    StripIsTrimmed(a.body);
    hide Parsed, Printed, Exported, SaysArticle, AllClean, White, Strip;
  }
}
