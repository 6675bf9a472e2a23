/**
 The front matter of exported articles: the printer (article_exports) and the
 parser (article_imports.parse_front_matter), each as the code spells it, and
 exactly when what was printed reads back.
 */
module FrontMatter {
  import opened Wrappers
  import opened Text

  /** Reading time and publication time are given as the texts they are printed as; empty when absent. */
  datatype Article = Article(
    title: string, slug: string, category: Option<string>, status: string, publishedAt: string, excerpt: string,
    authorName: string, readingMinutes: string, metaDescription: string, ogTitle: string, ogDescription: string,
    ogImageUrl: string, robots: string, body: string)

  // ----- Printing -----

  type Field = (string, string)

  function When(key: string, value: string): seq<Field> {
    if value != "" then [(key, value)] else []
  }

  /** The fields an article is exported with, in order. */
  function Exported(a: Article): seq<Field> {
    [("title", a.title), ("slug", a.slug)]
    + (if a.category.Some? then [("category_code", a.category.value)] else [])
    + When("status", a.status) + When("published_at", a.publishedAt) + When("excerpt", a.excerpt)
    + When("author_name", a.authorName) + When("reading_minutes", a.readingMinutes)
    + When("meta_description", a.metaDescription) + When("og_title", a.ogTitle)
    + When("og_description", a.ogDescription) + When("og_image_url", a.ogImageUrl) + When("robots", a.robots)
  }

  function Line(f: Field): string { f.0 + ": " + f.1 }

  function Lines(fields: seq<Field>): seq<string> {
    seq(|fields|, i requires 0 <= i < |fields| => Line(fields[i]))
  }

  function Join(lines: seq<string>): string {
    if lines == [] then "" else if |lines| == 1 then lines[0] else lines[0] + "\n" + Join(lines[1..])
  }

  function BodyOf(a: Article): string {
    var body := Strip(a.body);
    if body != "" then body else Strip("# " + a.title + "\n\n" + Strip(a.excerpt))
  }

  function Printed(a: Article): string {
    Join(["---"] + Lines(Exported(a)) + ["---"]) + "\n\n" + BodyOf(a) + "\n"
  }

  method AppendField(lines: seq<string>, key: string, value: string, ghost fields: seq<Field>) returns (more: seq<string>)
    requires lines == ["---"] + Lines(fields)
    ensures more == ["---"] + Lines(fields + When(key, value))
  {
    more := lines;
    assert fields + [] == fields;
    if value != "" {
      more := lines + [key + ": " + value];
      assert Lines(fields + [(key, value)]) == Lines(fields) + [Line((key, value))];
    }
  }

  method DumpFrontMatter(a: Article) returns (text: string)
    ensures text == Join(["---"] + Lines(Exported(a)) + ["---"])
  {
    var lines := ["---", "title" + ": " + a.title, "slug" + ": " + a.slug];
    ghost var fields := [("title", a.title), ("slug", a.slug)];
    assert lines == ["---"] + Lines(fields);
    assert fields + [] == fields;
    if a.category.Some? {
      lines := lines + ["category_code" + ": " + a.category.value];
      assert Lines(fields + [("category_code", a.category.value)]) == Lines(fields) + [Line(("category_code", a.category.value))];
    }
    fields := fields + if a.category.Some? then [("category_code", a.category.value)] else [];
    hide Lines, When, Line;
    lines := AppendField(lines, "status", a.status, fields);
    fields := fields + When("status", a.status);
    lines := AppendField(lines, "published_at", a.publishedAt, fields);
    fields := fields + When("published_at", a.publishedAt);
    lines := AppendField(lines, "excerpt", a.excerpt, fields);
    fields := fields + When("excerpt", a.excerpt);
    lines := AppendField(lines, "author_name", a.authorName, fields);
    fields := fields + When("author_name", a.authorName);
    lines := AppendField(lines, "reading_minutes", a.readingMinutes, fields);
    fields := fields + When("reading_minutes", a.readingMinutes);
    lines := AppendField(lines, "meta_description", a.metaDescription, fields);
    fields := fields + When("meta_description", a.metaDescription);
    lines := AppendField(lines, "og_title", a.ogTitle, fields);
    fields := fields + When("og_title", a.ogTitle);
    lines := AppendField(lines, "og_description", a.ogDescription, fields);
    fields := fields + When("og_description", a.ogDescription);
    lines := AppendField(lines, "og_image_url", a.ogImageUrl, fields);
    fields := fields + When("og_image_url", a.ogImageUrl);
    lines := AppendField(lines, "robots", a.robots, fields);
    fields := fields + When("robots", a.robots);
    assert fields == Exported(a);
    return Join(lines + ["---"]);
  }

  // ----- The regular expression \A---\s*\n(.*?)\n---\s*\n?(.*)\Z with DOTALL -----

  function WhiteEnd(s: string, i: nat): (e: nat)
    requires i <= |s|
    ensures i <= e <= |s| && forall k :: i <= k < e ==> White(s[k])
    ensures e < |s| ==> !White(s[e])
    decreases |s| - i
  {
    if i < |s| && White(s[i]) then WhiteEnd(s, i + 1) else i
  }

  predicate FenceAt(s: string, k: nat) {
    k + 4 <= |s| && s[k] == '\n' && s[k + 1] == '-' && s[k + 2] == '-' && s[k + 3] == '-'
  }

  /** The lazy group: the nearest closing fence from `i` on. */
  function FindFence(s: string, i: nat): (k: Option<nat>)
    requires i <= |s|
    ensures k.Some? ==> i <= k.value && FenceAt(s, k.value)
    decreases |s| - i
  {
    if i == |s| then None else if FenceAt(s, i) then Some(i) else FindFence(s, i + 1)
  }

  /** The greedy \s* after the opening fence gives back one character at a time until the rest matches. */
  function Opening(s: string, j: nat): (m: Option<(nat, nat)>)
    requires j <= |s|
    ensures m.Some? ==> m.value.0 <= m.value.1 && FenceAt(s, m.value.1)
    decreases j
  {
    if j <= 3 then None
    else if s[j - 1] == '\n' && FindFence(s, j).Some? then Some((j, FindFence(s, j).value))
    else Opening(s, j - 1)
  }

  /** The two groups: the raw metadata and the body, which loses its leading white space to the second greedy \s*. */
  function Match(s: string): Option<(string, string)> {
    if |s| < 3 || s[..3] != "---" then None
    else
      match Opening(s, WhiteEnd(s, 3))
      case None => None
      case Some(m) => Some((s[m.0..m.1], s[WhiteEnd(s, m.1 + 4)..]))
  }

  // ----- str.splitlines -----

  predicate Break(c: char) {
    || '\U{000A}' <= c <= '\U{000D}' || '\U{001C}' <= c <= '\U{001E}' || c == '\U{0085}' || c == '\U{2028}' || c == '\U{2029}'
  }

  predicate OneLine(s: string) { forall c :: c in s ==> !Break(c) }

  function BreakIndex(s: string): (n: nat)
    ensures n <= |s| && (forall i :: 0 <= i < n ==> !Break(s[i])) && (n < |s| ==> Break(s[n]))
  {
    if s == "" || Break(s[0]) then 0 else 1 + BreakIndex(s[1..])
  }

  function SplitLines(s: string): seq<string>
    decreases |s|
  {
    if s == "" then []
    else
      var n := BreakIndex(s);
      if n == |s| then [s]
      else if s[n] == '\r' && n + 1 < |s| && s[n + 1] == '\n' then [s[..n]] + SplitLines(s[n + 2..])
      else [s[..n]] + SplitLines(s[n + 1..])
  }

  // ----- Parsing -----

  function LowerAscii(s: string): string {
    seq(|s|, i requires 0 <= i < |s| => if 'A' <= s[i] <= 'Z' then s[i] - 'A' + 'a' else s[i])
  }

  predicate Quoted(v: string) {
    |v| >= 2 && v[0] == v[|v| - 1] && (v[0] == '"' || v[0] == '\'')
  }

  function StripQuotes(v: string): string {
    var t := Strip(v);
    if Quoted(t) then Strip(t[1..|t| - 1]) else t
  }

  function Colon(s: string): (n: nat)
    ensures n <= |s| && (forall i :: 0 <= i < n ==> s[i] != ':') && (n < |s| ==> s[n] == ':')
  {
    if s == "" || s[0] == ':' then 0 else 1 + Colon(s[1..])
  }

  function TakeLine(metadata: map<string, string>, raw: string): map<string, string> {
    var line := Strip(raw);
    var n := Colon(line);
    if line == "" || line[0] == '#' || n == |line| then metadata
    else metadata[LowerAscii(Strip(line[..n])) := StripQuotes(line[n + 1..])]
  }

  function TakeLines(lines: seq<string>): map<string, string> {
    if lines == [] then map[] else TakeLine(TakeLines(lines[..|lines| - 1]), lines[|lines| - 1])
  }

  function Parsed(markdown: string): (map<string, string>, string) {
    match Match(markdown)
    case None => (map[], markdown)
    case Some(groups) => (TakeLines(SplitLines(groups.0)), groups.1)
  }

  method ParseFrontMatter(markdown: string) returns (metadata: map<string, string>, body: string)
    ensures (metadata, body) == Parsed(markdown)
  {
    var groups := Match(markdown);
    if groups.None? { return map[], markdown; }
    metadata := map[];
    var lines := SplitLines(groups.value.0);
    var i := 0;
    while i < |lines|
      invariant 0 <= i <= |lines|
      invariant metadata == TakeLines(lines[..i])
    {
      hide Strip, StripQuotes, LowerAscii, Colon;
      assert lines[..i + 1][..i] == lines[..i];
      var line := Strip(lines[i]);
      var n := Colon(line);
      if line != "" && line[0] != '#' && n < |line| {
        metadata := metadata[LowerAscii(Strip(line[..n])) := StripQuotes(line[n + 1..])];
      }
      i := i + 1;
    }
    assert lines[..i] == lines;
    return metadata, groups.value.1;
  }

  // ----- What a parsed value looks like, whatever was parsed -----

  /** A value the round trip keeps: on one line, trimmed, and not wrapped in a pair of quotes. */
  predicate Clean(v: string) { OneLine(v) && Trimmed(v) && !Quoted(v) }

  lemma StripPart(s: string)
    ensures Trimmed(Strip(s)) && forall c :: c in Strip(s) ==> c in s
  {
    StripIsTrimmed(s);
    LeftStripCases(s);
    RightStripCases(LeftStrip(s));
  }

  lemma QuotesPart(v: string)
    ensures Trimmed(StripQuotes(v)) && forall c :: c in StripQuotes(v) ==> c in v
  {
    var t := Strip(v);
    StripPart(v);
    if Quoted(t) { StripPart(t[1..|t| - 1]); }
  }

  /** Stripping leaves a value alone exactly when it is trimmed and not quoted. */
  lemma StripQuotesKeeps(v: string)
    ensures StripQuotes(v) == v <==> Trimmed(v) && !Quoted(v)
  {
    var t := Strip(v);
    StripPart(v);
    if Trimmed(v) { StripTrimmed(v); }
    if Quoted(t) {
      var u := t[1..|t| - 1];
      LeftStripCases(u);
      RightStripCases(LeftStrip(u));
      LeftStripCases(v);
      RightStripCases(LeftStrip(v));
      assert |StripQuotes(v)| < |t| <= |v|;
    }
  }

  lemma {:induction false} SplitLinesAreLines(s: string)
    ensures forall l :: l in SplitLines(s) ==> OneLine(l)
    decreases |s|
  {
    if s != "" {
      var n := BreakIndex(s);
      if n < |s| {
        if s[n] == '\r' && n + 1 < |s| && s[n + 1] == '\n' { SplitLinesAreLines(s[n + 2..]); } else { SplitLinesAreLines(s[n + 1..]); }
      }
    }
  }

  lemma {:induction false} TakenValues(lines: seq<string>)
    requires forall l :: l in lines ==> OneLine(l)
    ensures forall k :: k in TakeLines(lines) ==> OneLine(TakeLines(lines)[k]) && Trimmed(TakeLines(lines)[k])
  {
    if lines != [] {
      var n := |lines| - 1;
      assert forall l :: l in lines[..n] ==> l in lines;
      TakenValues(lines[..n]);
      assert lines[n] in lines;
      TakenValue(TakeLines(lines[..n]), lines[n]);
    }
  }

  lemma TakenValue(metadata: map<string, string>, raw: string)
    requires OneLine(raw)
    requires forall k :: k in metadata ==> OneLine(metadata[k]) && Trimmed(metadata[k])
    ensures forall k :: k in TakeLine(metadata, raw) ==> OneLine(TakeLine(metadata, raw)[k]) && Trimmed(TakeLine(metadata, raw)[k])
  {
    var line := Strip(raw);
    var n := Colon(line);
    StripPart(raw);
    hide Strip, Break;
    if n < |line| {
      QuotesPart(line[n + 1..]);
      assert forall c :: c in line[n + 1..] ==> c in line;
    }
  }

  /** Every value the parser returns is trimmed and free of line breaks. */
  lemma ParsedValuesAreOneLine(markdown: string)
    ensures forall k :: k in Parsed(markdown).0 ==> OneLine(Parsed(markdown).0[k]) && Trimmed(Parsed(markdown).0[k])
  {
    hide TakeLines, SplitLines;
    match Match(markdown)
    case None =>
    case Some(groups) =>
      SplitLinesAreLines(groups.0);
      TakenValues(SplitLines(groups.0));
  }

  // ----- One printed line -----

  /** A field name: lower-case letters and underscores, and it does not start with a dash or a hash. */
  predicate IsKey(k: string) { k != "" && forall c :: c in k ==> 'a' <= c <= 'z' || c == '_' }

  lemma KeyStays(k: string)
    requires IsKey(k)
    ensures Strip(k) == k && LowerAscii(k) == k && Colon(k) == |k| && k[0] != '#'
  {
    assert forall i :: 0 <= i < |k| ==> k[i] in k;
    StripTrimmed(k);
  }

  lemma {:induction false} ColonAt(k: string, rest: string)
    requires ':' !in k
    ensures Colon(k + ":" + rest) == |k|
  {
    if k == "" {
      assert (k + ":" + rest)[0] == ':';
    } else {
      ColonAt(k[1..], rest);
      assert (k + ":" + rest)[1..] == k[1..] + ":" + rest;
      assert k[0] in k;
    }
  }

  lemma {:induction false} RightStripAdd(a: string, b: string)
    requires a != "" && !White(a[|a| - 1])
    ensures RightStrip(a + b) == a + RightStrip(b)
    decreases |b|
  {
    if b == "" {
      assert a + b == a && a + RightStrip(b) == a;
    } else if White(b[|b| - 1]) {
      assert (a + b)[..|a + b| - 1] == a + b[..|b| - 1];
      RightStripAdd(a, b[..|b| - 1]);
    }
  }

  /** Spaces around a text do not change what stripping leaves. */
  lemma {:induction false} StripRightStripped(s: string)
    ensures Strip(RightStrip(s)) == Strip(s)
    decreases |s|
  {
    if s != "" && White(s[|s| - 1]) {
      StripRightStripped(s[..|s| - 1]);
      DropLastWhite(s);
    } else {
      assert RightStrip(s) == s;
    }
  }

  lemma {:induction false} DropLastWhite(s: string)
    requires s != "" && White(s[|s| - 1])
    ensures Strip(s[..|s| - 1]) == Strip(s)
    decreases |s|
  {
    var t := s[..|s| - 1];
    if t == "" {
      assert s[1..] == "";
    } else if White(s[0]) {
      DropLastWhite(s[1..]);
      assert s[1..][..|s[1..]| - 1] == t[1..];
    } else {
      assert LeftStrip(s) == s && LeftStrip(t) == t;
    }
  }

  lemma AfterColon(v: string)
    ensures StripQuotes(RightStrip(" " + v)) == StripQuotes(v)
  {
    StripRightStripped(" " + v);
    assert (" " + v)[1..] == v;
  }

  /** The parser takes from a printed line the field's name and its stripped value. */
  lemma LineGivesField(metadata: map<string, string>, f: Field)
    requires IsKey(f.0)
    ensures TakeLine(metadata, Line(f)) == metadata[f.0 := StripQuotes(f.1)]
  {
    var k, rest := f.0, RightStrip(" " + f.1);
    KeyStays(k);
    assert k[0] in k && ':' !in k;
    var head := k + ":";
    var raw := Line(f);
    assert raw == head + (" " + f.1);
    assert raw[0] == k[0] && !White(raw[0]);
    assert LeftStrip(raw) == raw;
    RightStripAdd(head, " " + f.1);
    var line := Strip(raw);
    assert line == k + ":" + rest;
    ColonAt(k, rest);
    assert line[..|k|] == k && line[|k| + 1..] == rest;
    AfterColon(f.1);
    assert line[0] == k[0];
  }

  ghost predicate Keyed(fields: seq<Field>) { forall i :: 0 <= i < |fields| ==> IsKey(fields[i].0) }

  /** What the fields amount to once stripped, the last value of a name counting. */
  function Stripped(fields: seq<Field>): map<string, string> {
    if fields == [] then map[]
    else Stripped(fields[..|fields| - 1])[fields[|fields| - 1].0 := StripQuotes(fields[|fields| - 1].1)]
  }

  lemma {:induction false} LinesGiveFields(fields: seq<Field>)
    requires Keyed(fields)
    ensures TakeLines(Lines(fields)) == Stripped(fields)
  {
    if fields != [] {
      var n := |fields| - 1;
      LinesGiveFields(fields[..n]);
      assert Lines(fields)[..n] == Lines(fields[..n]);
      hide TakeLine, StripQuotes;
      LineGivesField(TakeLines(Lines(fields[..n])), fields[n]);
    }
  }

  // ----- The printed text as a whole -----

  ghost predicate AllOneLine(lines: seq<string>) { forall i :: 0 <= i < |lines| ==> OneLine(lines[i]) && lines[i] != "" && 'a' <= lines[i][0] <= 'z' }

  lemma {:induction false} BreakAfter(l: string, rest: string)
    requires OneLine(l)
    ensures BreakIndex(l) == |l| && BreakIndex(l + "\n" + rest) == |l|
  {
    if l == "" {
      assert (l + "\n" + rest)[0] == '\n';
    } else {
      assert forall c :: c in l[1..] ==> c in l;
      BreakAfter(l[1..], rest);
      assert (l + "\n" + rest)[1..] == l[1..] + "\n" + rest;
      assert l[0] in l;
    }
  }

  lemma {:induction false} SplitJoined(lines: seq<string>)
    requires AllOneLine(lines)
    ensures SplitLines(Join(lines)) == lines
  {
    if |lines| == 1 {
      BreakAfter(lines[0], "");
    } else if lines != [] {
      var rest := Join(lines[1..]);
      var s := lines[0] + "\n" + rest;
      BreakAfter(lines[0], rest);
      SplitJoined(lines[1..]);
      var n := |lines[0]|;
      assert s[n] == '\n' && s[..n] == lines[0] && s[n + 1..] == rest;
    }
  }

  /** No line of the metadata can be taken for a fence. */
  lemma {:induction false} NoFenceInside(lines: seq<string>, k: nat)
    requires AllOneLine(lines) && k < |Join(lines)| && Join(lines)[k] == '\n'
    ensures k + 1 < |Join(lines)| && 'a' <= Join(lines)[k + 1] <= 'z'
  {
    var s := Join(lines);
    forall i | 0 <= i < |lines[0]| ensures lines[0][i] != '\n' { assert lines[0][i] in lines[0]; }
    if |lines| > 1 {
      var n, rest := |lines[0]|, Join(lines[1..]);
      assert s == lines[0] + "\n" + rest;
      JoinStarts(lines[1..]);
      if k > n {
        assert s[k] == rest[k - n - 1];
        NoFenceInside(lines[1..], k - n - 1);
        assert s[k + 1] == rest[k - n];
      } else {
        assert s[k + 1] == rest[0];
      }
    }
  }

  lemma JoinStarts(lines: seq<string>)
    requires AllOneLine(lines) && lines != []
    ensures Join(lines) != "" && 'a' <= Join(lines)[0] <= 'z'
  {
  }

  lemma {:induction false} JoinFence(lines: seq<string>)
    requires lines != []
    ensures Join(lines + ["---"]) == Join(lines) + "\n---"
    decreases |lines|
  {
    var all := lines + ["---"];
    assert all[0] == lines[0] && all[1..] == lines[1..] + ["---"];
    if |lines| == 1 {
      assert Join(all[1..]) == "---";
      assert lines[0] + "\n" + "---" == lines[0] + "\n---";
    } else {
      JoinFence(lines[1..]);
      assert lines[0] + "\n" + (Join(lines[1..]) + "\n---") == (lines[0] + "\n" + Join(lines[1..])) + "\n---";
    }
  }

  /** The printed text is the opening fence, the metadata, the closing fence, a blank line and the body. */
  lemma PrintedShape(a: Article)
    ensures Printed(a) == "---\n" + Join(Lines(Exported(a))) + "\n---\n\n" + BodyOf(a) + "\n"
  {
    var lines := Lines(Exported(a));
    assert |lines| > 0;
    JoinFence(lines);
    var all := ["---"] + lines + ["---"];
    assert all[0] == "---" && all[1..] == lines + ["---"];
    hide BodyOf, Lines, Exported;
    calc {
      Printed(a);
      Join(all) + "\n\n" + BodyOf(a) + "\n";
      ("---" + "\n" + Join(lines + ["---"])) + "\n\n" + BodyOf(a) + "\n";
      ("---" + "\n" + (Join(lines) + "\n---")) + "\n\n" + BodyOf(a) + "\n";
      "---\n" + Join(lines) + "\n---\n\n" + BodyOf(a) + "\n";
    }
  }

  lemma {:induction false} FenceFound(s: string, i: nat, f: nat)
    requires i <= f && FenceAt(s, f) && forall k :: i <= k < f ==> !FenceAt(s, k)
    ensures FindFence(s, i) == Some(f)
    decreases f - i
  {
    if i < f { FenceFound(s, i + 1, f); }
  }

  /** The first closing fence is the printer's own, whatever the body holds; the body loses nothing but the blank line before it. */
  lemma MatchPrinted(lines: seq<string>, body: string)
    requires AllOneLine(lines) && lines != [] && body != "" && Trimmed(body)
    ensures Match("---\n" + Join(lines) + "\n---\n\n" + body + "\n") == Some((Join(lines), body + "\n"))
  {
    var meta := Join(lines);
    var s := "---\n" + meta + "\n---\n\n" + body + "\n";
    var f := 4 + |meta|;
    JoinStarts(lines);
    assert s[3] == '\n' && s[4] == meta[0] && !White(s[4]);
    assert WhiteEnd(s, 3) == 4;
    assert s[f..f + 4] == "\n---";
    assert FenceAt(s, f) by { assert s[f..f + 4][0] == '\n' && s[f..f + 4][1] == '-' && s[f..f + 4][2] == '-' && s[f..f + 4][3] == '-'; }
    forall k | 4 <= k < f ensures !FenceAt(s, k) {
      assert s[k] == meta[k - 4];
      if s[k] == '\n' {
        NoFenceInside(lines, k - 4);
        assert s[k + 1] == meta[k - 3];
      }
    }
    FenceFound(s, 4, f);
    assert Opening(s, 4) == Some((4, f));
    assert s[4..f] == meta;
    assert s[f + 4] == '\n' && s[f + 5] == '\n' && s[f + 6] == body[0] by {
      assert s[f + 4..] == "\n\n" + body + "\n";
      assert s[f + 4] == s[f + 4..][0] && s[f + 5] == s[f + 4..][1] && s[f + 6] == s[f + 4..][2];
    }
    assert WhiteEnd(s, f + 4) == f + 6;
    assert s[f + 6..] == body + "\n";
    assert s[..3] == "---";
  }

  lemma BodyIsText(a: Article)
    ensures BodyOf(a) != "" && Trimmed(BodyOf(a))
  {
    StripIsTrimmed(a.body);
    var made := "# " + a.title + "\n\n" + Strip(a.excerpt);
    StripIsTrimmed(made);
    assert made[0] == '#' && made[0] in made && !White('#');
  }

  ghost predicate FieldsOnOneLine(fields: seq<Field>) { forall i :: 0 <= i < |fields| ==> OneLine(fields[i].1) }

  lemma LinesAreOneLine(fields: seq<Field>)
    requires Keyed(fields) && FieldsOnOneLine(fields)
    requires forall i :: 0 <= i < |fields| ==> 'a' <= fields[i].0[0] <= 'z'
    ensures AllOneLine(Lines(fields))
  {
    forall i | 0 <= i < |fields| ensures OneLine(Line(fields[i])) && Line(fields[i]) != "" && 'a' <= Line(fields[i])[0] <= 'z' {
      var f := fields[i];
      forall c | c in Line(f) ensures !Break(c) {
        assert c in f.0 || c == ':' || c == ' ' || c in f.1;
      }
    }
  }

  // ----- The names of the fields -----

  function Rank(k: string): nat {
    if k == "title" then 0 else if k == "slug" then 1 else if k == "category_code" then 2 else if k == "status" then 3
    else if k == "published_at" then 4 else if k == "excerpt" then 5 else if k == "author_name" then 6
    else if k == "reading_minutes" then 7 else if k == "meta_description" then 8 else if k == "og_title" then 9
    else if k == "og_description" then 10 else if k == "og_image_url" then 11 else 12
  }

  /** Well-formed names, in order and below `r`; so no name occurs twice. */
  ghost predicate Named(fields: seq<Field>, r: nat) {
    && (forall i :: 0 <= i < |fields| ==> IsKey(fields[i].0) && 'a' <= fields[i].0[0] <= 'z' && Rank(fields[i].0) < r)
    && (forall i, j :: 0 <= i < j < |fields| ==> Rank(fields[i].0) < Rank(fields[j].0))
  }

  predicate KeyAt(k: string, r: nat) { IsKey(k) && 'a' <= k[0] <= 'z' && Rank(k) == r }

  lemma NamedMore(fields: seq<Field>, more: seq<Field>, key: string, r: nat)
    requires Named(fields, r) && KeyAt(key, r)
    requires more == [] || (|more| == 1 && more[0].0 == key)
    ensures Named(fields + more, r + 1)
  {
    hide Rank, IsKey;
  }

  lemma FirstKeys()
    ensures KeyAt("title", 0) && KeyAt("slug", 1) && KeyAt("category_code", 2)
  {
  }

  lemma StatusKeys()
    ensures KeyAt("status", 3) && KeyAt("published_at", 4) && KeyAt("excerpt", 5)
  {
  }

  lemma AuthorKeys()
    ensures KeyAt("author_name", 6) && KeyAt("reading_minutes", 7)
  {
  }

  lemma MetaKeys()
    ensures KeyAt("meta_description", 8) && KeyAt("og_title", 9)
  {
  }

  lemma OpenGraphKeys()
    ensures KeyAt("og_description", 10) && KeyAt("og_image_url", 11)
  {
  }

  lemma LastKey()
    ensures KeyAt("robots", 12)
  {
  }

  lemma ExportedIsNamed(a: Article)
    ensures Named(Exported(a), 13)
  {
    FirstKeys();
    StatusKeys();
    AuthorKeys();
    MetaKeys();
    OpenGraphKeys();
    LastKey();
    hide KeyAt, IsKey, Rank;
    var f: seq<Field> := [];
    assert Named(f, 0);
    hide Named;
    NamedMore(f, [("title", a.title)], "title", 0);
    f := f + [("title", a.title)];
    NamedMore(f, [("slug", a.slug)], "slug", 1);
    f := f + [("slug", a.slug)];
    var c := if a.category.Some? then [("category_code", a.category.value)] else [];
    NamedMore(f, c, "category_code", 2);
    f := f + c;
    assert f == [("title", a.title), ("slug", a.slug)] + c;
    NamedMore(f, When("status", a.status), "status", 3);
    f := f + When("status", a.status);
    NamedMore(f, When("published_at", a.publishedAt), "published_at", 4);
    f := f + When("published_at", a.publishedAt);
    NamedMore(f, When("excerpt", a.excerpt), "excerpt", 5);
    f := f + When("excerpt", a.excerpt);
    NamedMore(f, When("author_name", a.authorName), "author_name", 6);
    f := f + When("author_name", a.authorName);
    NamedMore(f, When("reading_minutes", a.readingMinutes), "reading_minutes", 7);
    f := f + When("reading_minutes", a.readingMinutes);
    NamedMore(f, When("meta_description", a.metaDescription), "meta_description", 8);
    f := f + When("meta_description", a.metaDescription);
    NamedMore(f, When("og_title", a.ogTitle), "og_title", 9);
    f := f + When("og_title", a.ogTitle);
    NamedMore(f, When("og_description", a.ogDescription), "og_description", 10);
    f := f + When("og_description", a.ogDescription);
    NamedMore(f, When("og_image_url", a.ogImageUrl), "og_image_url", 11);
    f := f + When("og_image_url", a.ogImageUrl);
    NamedMore(f, When("robots", a.robots), "robots", 12);
    f := f + When("robots", a.robots);
  }

  function AsMap(fields: seq<Field>): map<string, string> {
    if fields == [] then map[] else AsMap(fields[..|fields| - 1])[fields[|fields| - 1].0 := fields[|fields| - 1].1]
  }

  lemma NamedPrefix(fields: seq<Field>, r: nat)
    requires Named(fields, r) && fields != []
    ensures Named(fields[..|fields| - 1], r)
  {
  }

  lemma LastIsNew(fields: seq<Field>, r: nat)
    requires Named(fields, r) && fields != []
    ensures forall i :: 0 <= i < |fields| - 1 ==> fields[i].0 != fields[|fields| - 1].0
  {
    hide IsKey;
    forall i | 0 <= i < |fields| - 1 ensures fields[i].0 != fields[|fields| - 1].0 {
      assert Rank(fields[i].0) < Rank(fields[|fields| - 1].0);
    }
  }

  lemma {:induction false} MapAt(fields: seq<Field>, r: nat)
    requires Named(fields, r)
    ensures forall i :: 0 <= i < |fields| ==> fields[i].0 in AsMap(fields) && AsMap(fields)[fields[i].0] == fields[i].1
    ensures forall i :: 0 <= i < |fields| ==> fields[i].0 in Stripped(fields) && Stripped(fields)[fields[i].0] == StripQuotes(fields[i].1)
  {
    hide StripQuotes, IsKey, Rank;
    if fields != [] {
      var n := |fields| - 1;
      NamedPrefix(fields, r);
      LastIsNew(fields, r);
      hide Named;
      MapAt(fields[..n], r);
      assert forall i :: 0 <= i < n ==> fields[..n][i] == fields[i];
    }
  }

  lemma {:induction false} MapKeys(fields: seq<Field>, k: string)
    ensures k in AsMap(fields) <==> k in Stripped(fields)
    ensures k in AsMap(fields) ==> exists i :: 0 <= i < |fields| && fields[i].0 == k
  {
    if fields != [] {
      var n := |fields| - 1;
      hide StripQuotes;
      MapKeys(fields[..n], k);
      if k in AsMap(fields) && k != fields[n].0 {
        var i :| 0 <= i < n && fields[..n][i].0 == k;
        assert fields[i].0 == k;
      }
    }
  }

  ghost predicate AllClean(fields: seq<Field>) { forall i :: 0 <= i < |fields| ==> Clean(fields[i].1) }

  lemma StrippedIsSame(fields: seq<Field>, r: nat)
    requires Named(fields, r) && FieldsOnOneLine(fields)
    ensures Stripped(fields) == AsMap(fields) <==> AllClean(fields)
  {
    MapAt(fields, r);
    forall i | 0 <= i < |fields| ensures StripQuotes(fields[i].1) == fields[i].1 <==> Clean(fields[i].1) {
      StripQuotesKeeps(fields[i].1);
    }
    hide Stripped, AsMap, StripQuotes, Clean, IsKey, Rank;
    if AllClean(fields) {
      forall k ensures k in Stripped(fields) <==> k in AsMap(fields) { MapKeys(fields, k); }
      forall k | k in Stripped(fields) ensures Stripped(fields)[k] == AsMap(fields)[k] {
        MapKeys(fields, k);
        var i :| 0 <= i < |fields| && fields[i].0 == k;
      }
    } else {
      var i :| 0 <= i < |fields| && !Clean(fields[i].1);
      assert Stripped(fields)[fields[i].0] != AsMap(fields)[fields[i].0];
    }
  }

  /** With every value on one line, the parser finds exactly the printed lines and the whole body. */
  lemma PrintedParses(a: Article)
    requires FieldsOnOneLine(Exported(a))
    ensures Parsed(Printed(a)) == (Stripped(Exported(a)), BodyOf(a) + "\n")
  {
    var fields := Exported(a);
    ExportedIsNamed(a);
    LinesAreOneLine(fields);
    BodyIsText(a);
    PrintedShape(a);
    assert |fields| > 0;
    hide Exported, BodyOf, Printed, IsKey, Rank, Match, TakeLines, SplitLines, Join, Stripped, Trimmed, Line;
    MatchPrinted(Lines(fields), BodyOf(a));
    SplitJoined(Lines(fields));
    LinesGiveFields(fields);
  }

  /**
   The round trip: parsing an exported article returns every exported field as
   it was if and only if each value is on one line, trimmed and not wrapped in
   quotes. Colons may occur in any value.
   */
  lemma FieldsReadBack(a: Article)
    ensures Parsed(Printed(a)).0 == AsMap(Exported(a)) <==> AllClean(Exported(a))
  {
    var fields := Exported(a);
    ExportedIsNamed(a);
    MapAt(fields, 13);
    hide Exported, Printed, Parsed, AsMap, IsKey, Rank, Stripped, StripQuotes, Trimmed, Quoted, Break;
    if FieldsOnOneLine(fields) {
      PrintedParses(a);
      StrippedIsSame(fields, 13);
    } else {
      var i :| 0 <= i < |fields| && !OneLine(fields[i].1);
      ParsedValuesAreOneLine(Printed(a));
      assert AsMap(fields)[fields[i].0] == fields[i].1;
    }
  }

  /** The body comes back whole, lines of dashes included, apart from the final line break the printer adds. */
  lemma BodyReadsBack(a: Article)
    requires FieldsOnOneLine(Exported(a))
    ensures Parsed(Printed(a)).1 == BodyOf(a) + "\n" && Strip(Parsed(Printed(a)).1) == BodyOf(a)
  {
    PrintedParses(a);
    BodyIsText(a);
    hide Parsed, Printed, Exported, BodyOf;
    var body := BodyOf(a);
    DropLastWhite(body + "\n");
    assert (body + "\n")[..|body + "\n"| - 1] == body;
    StripTrimmed(body);
  }
}
