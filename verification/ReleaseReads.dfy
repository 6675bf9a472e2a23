/**
 Reading without the lock: ArticleReleaseStore.read and the build input
 (article_build_input), whose accesses to the store may each see a later state
 because publishers keep running.
 */
module ReleaseReads {
  import opened Wrappers
  import opened Digests
  import opened ArticleNames
  import opened ReleaseStore
  import opened ReleaseProtocol

  /**
   The store as each access finds it: access number k sees `world(k)`, and
   publishers may do anything ReleaseProtocol allows between two accesses.
   A verification is counted as one access; as no release that is present
   changes (ReleaseStays), it could as well be spread over several.
   */
  type World = nat -> Store

  ghost predicate Evolves(world: World) {
    && (forall k: nat :: Inv(world(k)))
    && (forall k: nat :: Keeps(world(k), world(k + 1)))
  }

  // ----- Every run of publishers is such a world -----

  lemma {:induction false} Prefix(s: Store, es: seq<Event>, m: nat, n: nat)
    requires CanRun(s, es) && m <= n <= |es|
    ensures CanRun(s, es[..m]) && CanRun(s, es[..n])
    ensures CanRun(Run(s, es[..m]), es[m..n]) && Run(Run(s, es[..m]), es[m..n]) == Run(s, es[..n])
    decreases |es|
  {
    hide Enabled, Apply;
    if m == 0 {
      assert es[..m] == [] && es[m..n] == es[..n];
      if n > 0 {
        assert es[..n][0] == es[0] && es[..n][1..] == es[1..][..n - 1];
        Prefix(Apply(s, es[0]), es[1..], 0, n - 1);
      }
    } else {
      assert es[..n][1..] == es[1..][..n - 1] && es[..m][1..] == es[1..][..m - 1];
      assert es[m..n] == es[1..][m - 1..n - 1];
      Prefix(Apply(s, es[0]), es[1..], m - 1, n - 1);
    }
  }

  /** The store that access k finds, if it comes after the first at(k) steps of the run. */
  ghost function Seen(s: Store, es: seq<Event>, at: nat -> nat): World
    requires CanRun(s, es) && forall k: nat :: at(k) <= |es|
  {
    (k: nat) => (Prefix(s, es, at(k), at(k)); Run(s, es[..at(k)]))
  }

  /** Whatever publishers do between the accesses of a reader, the reader sees such a world. */
  lemma RunsEvolve(s: Store, es: seq<Event>, at: nat -> nat)
    requires Inv(s) && CanRun(s, es)
    requires forall k: nat :: at(k) <= |es|
    requires forall k: nat :: at(k) <= at(k + 1)
    ensures Evolves(Seen(s, es, at))
  {
    hide Inv, Keeps;
    var world := Seen(s, es, at);
    forall k: nat ensures Inv(world(k)) && Keeps(world(k), world(k + 1)) {
      Prefix(s, es, at(k), at(k + 1));
      RunKeepsInv(s, es[..at(k)]);
      RunKeepsInv(Run(s, es[..at(k)]), es[at(k)..at(k + 1)]);
    }
  }

  lemma {:induction false} LaterKeeps(world: World, j: nat, k: nat)
    requires Evolves(world) && j <= k
    ensures Keeps(world(j), world(k))
    decreases k
  {
    hide Keeps, Inv;
    if j == k {
      KeepsItself(world(j));
    } else {
      LaterKeeps(world, j, k - 1);
      assert Keeps(world(k - 1), world(k - 1 + 1));
      KeepsChain(world(j), world(k - 1), world(k));
    }
  }

  /** A release that verifies at one moment verifies, with the same content, at every later one. */
  lemma ReleaseStays(world: World, j: nat, k: nat, v: Version)
    requires Evolves(world) && j <= k && v in world(j).folders
    ensures v in world(k).folders && world(k).folders[v] == world(j).folders[v] && world(k).owner == world(j).owner
  {
    LaterKeeps(world, j, k);
  }

  lemma ActiveVerifies(s: Store)
    requires Inv(s) && s.pointers != []
    ensures var v := s.pointers[|s.pointers| - 1].version; v.Id? && v in s.folders && Intact(s.owner, v, s.folders[v])
  {
    hide TasksOk, OneHolder, FoldersComplete, ManifestFault, FilesMatch;
  }

  // ----- One page -----

  /** read(): pointer, verification and file are three accesses to the store. */
  method ReadRoute(world: World, route: string) returns (r: Result<Option<(Bytes, Digest<Bytes>)>, string>)
    ensures Evolves(world) ==> r.Ok?
    ensures Evolves(world) ==> r.value == Page(world(0), route)
  {
    if route == "" || route[0] != '/' || (route[|route| - 1] != '/' && route != "/article-sitemap.xml") || DoubleSlash(route) {
      return Ok(None);
    }
    var name := RouteName(route);
    hide RouteName, ValidArtifactName, DoubleSlash, Intact;
    if !ValidArtifactName(name) { return Ok(None); }
    if world(0).pointers == [] { return Ok(None); }
    var version := world(0).pointers[|world(0).pointers| - 1].version;
    ActiveStays(world, version);
    VerifiesExactlyIntact(world(1).owner, world(1).folders, version);
    var verified := Verify(world(1).owner, world(1).folders, version);
    if verified.Err? { return Err(verified.error); }
    var payload := verified.value;
    if name !in payload.files { return Ok(None); }
    if version !in world(2).folders || name !in world(2).folders[version].files { return Err("artifact_unavailable"); }
    var raw := world(2).folders[version].files[name];
    if Sha(raw) != payload.files[name] { return Err("artifact_file_changed"); }
    return Ok(Some((raw, payload.files[name])));
  }

  lemma ActiveStays(world: World, v: Version)
    ensures Evolves(world) && world(0).pointers != [] && v == world(0).pointers[|world(0).pointers| - 1].version ==>
              && v in world(0).folders && Intact(world(1).owner, v, world(0).folders[v])
              && v in world(1).folders && world(1).folders[v] == world(0).folders[v]
              && v in world(2).folders && world(2).folders[v] == world(0).folders[v]
              && world(0).folders[v].manifest.Written?
              && FilesMatch(world(0).folders[v].files, world(0).folders[v].manifest.manifest.files)
  {
    if Evolves(world) && world(0).pointers != [] && v == world(0).pointers[|world(0).pointers| - 1].version {
      ActiveVerifies(world(0));
      ReleaseStays(world, 0, 1, v);
      ReleaseStays(world, 0, 2, v);
    }
  }

  /** What a visitor should see: the file the active release gives for the route, or nothing at all. */
  ghost function Page(s: Store, route: string): Option<(Bytes, Digest<Bytes>)> {
    if !ReadableRoute(route) || s.pointers == [] then None
    else
      var v := s.pointers[|s.pointers| - 1].version;
      var name := RouteName(route);
      if v in s.folders && name in s.folders[v].files then Some((s.folders[v].files[name], Sha(s.folders[v].files[name]))) else None
  }

  // ----- A whole version -----

  datatype BuildInput = BuildInput(version: Version, manifest: Manifest, documents: map<string, string>)

  predicate AllText(files: map<string, Bytes>) { forall n :: n in files ==> files[n].Utf8? }

  ghost function Texts(files: map<string, Bytes>): map<string, string>
    requires AllText(files)
  {
    map n | n in files :: files[n].text
  }

  /** The one input a version has: its manifest and every document that manifest lists, and nothing else. */
  ghost function InputOf(v: Version, f: Folder): Result<BuildInput, string>
    requires f.manifest.Written?
  {
    if AllText(f.files) then Ok(BuildInput(v, f.manifest.manifest, Texts(f.files))) else Err("artifact_encoding_invalid")
  }

  ghost predicate Steady(world: World, k: nat, v: Version, f: Folder) {
    forall j: nat :: j >= k ==> v in world(j).folders && world(j).folders[v] == f && world(j).owner == world(k).owner
  }

  lemma FoundIsSteady(world: World, k: nat, v: Version)
    requires Evolves(world) && v in world(k).folders
    ensures Steady(world, k, v, world(k).folders[v])
  {
    hide Evolves;
    forall j: nat | j >= k ensures v in world(j).folders && world(j).folders[v] == world(k).folders[v] && world(j).owner == world(k).owner {
      ReleaseStays(world, k, j, v);
    }
  }

  /** read_version_file: verify again, then read. */
  method ReadVersionFile(world: World, k: nat, v: Version, name: string) returns (r: Result<Bytes, string>)
    ensures forall f :: Steady(world, k, v, f) && Intact(world(k).owner, v, f) && name in f.files && ValidArtifactName(name)
              ==> r == Ok(f.files[name])
  {
    hide ValidArtifactName, ManifestFault;
    VerifiesExactlyIntact(world(k).owner, world(k).folders, v);
    var verified := Verify(world(k).owner, world(k).folders, v);
    if verified.Err? { return Err(verified.error); }
    var payload := verified.value;
    if name !in payload.files || !ValidArtifactName(name) { return Err("artifact_unavailable"); }
    if v !in world(k + 1).folders || name !in world(k + 1).folders[v].files { return Err("artifact_unavailable"); }
    var raw := world(k + 1).folders[v].files[name];
    if Sha(raw) != payload.files[name] { return Err("artifact_file_changed"); }
    return Ok(raw);
  }

  lemma ListedNames(o: Owner, v: Version, f: Folder, n: string)
    requires Intact(o, v, f) && n in f.manifest.manifest.files
    ensures n in f.files && ValidArtifactName(n)
  {
    hide ValidArtifactName;
  }

  method ReadBuildInput(world: World, start: nat, v: Version, releaseMode: bool) returns (r: Result<BuildInput, string>, end: nat)
    ensures start <= end
    ensures releaseMode && world(start).owner.preview ==> r == Err("preview_artifact_not_publishable")
    ensures Evolves(world) && !(releaseMode && world(start).owner.preview) ==>
              match VerifyFault(world(start).owner, world(start).folders, v)
              case Some(code) => r == Err(code)
              case None => r == InputOf(v, world(start).folders[v])
  {
    hide ManifestFault, ValidArtifactName, FilesMatch, Evolves;
    if releaseMode && world(start).owner.preview { return Err("preview_artifact_not_publishable"), start; }
    VerifiesExactlyIntact(world(start).owner, world(start).folders, v);
    var verified := Verify(world(start).owner, world(start).folders, v);
    if verified.Err? { return Err(verified.error), start; }
    var manifest := verified.value;
    ghost var folder := world(start).folders[v];
    if Evolves(world) { FoundIsSteady(world, start, v); }
    var documents: Result<map<string, string>, string>;
    documents, end := ReadDocuments(world, start + 1, v, manifest, folder);
    if documents.Err? { return Err(documents.error), end; }
    VerifiesExactlyIntact(world(end).owner, world(end).folders, v);
    var again := Verify(world(end).owner, world(end).folders, v);
    if again.Err? { return Err(again.error), end; }
    return Ok(BuildInput(v, manifest, documents.value)), end;
  }

  /** From access `start` on, the version is this intact folder with this manifest. */
  ghost predicate Fixed(world: World, start: nat, v: Version, manifest: Manifest, f: Folder) {
    Steady(world, start, v, f) && Intact(world(start).owner, v, f) && f.manifest == Written(manifest)
  }

  lemma FixedLater(world: World, start: nat, end: nat, v: Version, manifest: Manifest, f: Folder, n: string)
    requires Fixed(world, start, v, manifest, f) && start <= end && n in manifest.files
    ensures Steady(world, end, v, f) && Intact(world(end).owner, v, f) && n in f.files && ValidArtifactName(n)
  {
    ListedNames(world(start).owner, v, f, n);
    hide ValidArtifactName, Intact;
  }

  method ReadDocuments(world: World, start: nat, v: Version, manifest: Manifest, ghost folder: Folder)
      returns (r: Result<map<string, string>, string>, end: nat)
    ensures start <= end
    ensures Fixed(world, start, v, manifest, folder) ==>
              r == if AllText(folder.files) then Ok(Texts(folder.files)) else Err("artifact_encoding_invalid")
  {
    hide ManifestFault, ValidArtifactName, Fixed, Steady, Intact;
    var documents: map<string, string> := map[];
    var rest := manifest.files.Keys;
    end := start;
    while rest != {}
      invariant start <= end && rest <= manifest.files.Keys
      invariant documents.Keys == manifest.files.Keys - rest
      invariant Fixed(world, start, v, manifest, folder) ==>
                  forall n :: n in documents ==> n in folder.files && folder.files[n] == Utf8(documents[n])
      decreases |rest|
    {
      var name :| name in rest;
      var raw := ReadVersionFile(world, end, v, name);
      if Fixed(world, start, v, manifest, folder) {
        FixedLater(world, start, end, v, manifest, folder, name);
        assert raw == Ok(folder.files[name]);
      }
      if raw.Err? { return Err(raw.error), end; }
      if raw.value.Binary? { return Err("artifact_encoding_invalid"), end; }
      documents := documents[name := raw.value.text];
      rest := rest - {name};
      end := end + 2;
    }
    if Fixed(world, start, v, manifest, folder) {
      FixedFiles(world, start, v, manifest, folder);
      assert documents == Texts(folder.files);
    }
    return Ok(documents), end;
  }

  lemma FixedFiles(world: World, start: nat, v: Version, manifest: Manifest, f: Folder)
    requires Fixed(world, start, v, manifest, f)
    ensures f.files.Keys == manifest.files.Keys
  {
  }

  /**
   The build input of the active version: what is returned is that one version
   whole, whatever was activated meanwhile, and the version was active both at
   the first and at the last look at the pointer.
   */
  method ReadActiveBuildInput(world: World, expected: Option<Version>, releaseMode: bool) returns (r: Result<BuildInput, string>, end: nat)
    ensures expected.None? || CurrentIn(world(0).pointers) != expected ==> r == Err("active_version_changed")
    ensures r.Ok? ==> CurrentIn(world(0).pointers) == expected == CurrentIn(world(end).pointers)
    ensures Evolves(world) && r.Ok? ==>
              && expected.value in world(0).folders && Intact(world(0).owner, expected.value, world(0).folders[expected.value])
              && r == InputOf(expected.value, world(0).folders[expected.value])
    ensures Evolves(world) && expected.Some? && CurrentIn(world(0).pointers) == expected == CurrentIn(world(end).pointers)
              && !(releaseMode && world(1).owner.preview) ==>
              expected.value in world(0).folders && world(0).folders[expected.value].manifest.Written?
              && r == InputOf(expected.value, world(0).folders[expected.value])
  {
    hide ManifestFault, ValidArtifactName, FilesMatch, Evolves, Intact;
    if expected.None? || CurrentIn(world(0).pointers) != expected { return Err("active_version_changed"), 0; }
    var v := expected.value;
    var done: nat;
    if Evolves(world) { ActiveIsThere(world, v, 1); }
    r, done := ReadBuildInput(world, 1, v, releaseMode);
    end := done + 2;
    if r.Err? { return; }
    if Evolves(world) { ActiveIsThere(world, v, done + 1); }
    VerifiesExactlyIntact(world(done + 1).owner, world(done + 1).folders, v);
    var verified := Verify(world(done + 1).owner, world(done + 1).folders, v);
    if verified.Err? { return Err(verified.error), end; }
    if CurrentIn(world(end).pointers) != expected { return Err("active_version_changed"), end; }
  }

  /** The input says of the snapshot what was staged of it: source, redirects and every document. */
  ghost predicate TellsSnapshot(o: Owner, snap: Snapshot, input: BuildInput) {
    && Records(o, snap, input.manifest) && input.version == Id(Sha(input.manifest))
    && input.documents.Keys == snap.documents.Keys && forall n :: n in snap.documents ==> snap.documents[n] == Utf8(input.documents[n])
  }

  lemma InputTells(o: Owner, snap: Snapshot, v: Version, f: Folder)
    requires IsFolderOf(o, snap, v, f)
    ensures InputOf(v, f).Ok? <==> forall n :: n in snap.documents ==> snap.documents[n].Utf8?
    ensures InputOf(v, f).Ok? ==> TellsSnapshot(o, snap, InputOf(v, f).value)
  {
  }

  /** While the version of a snapshot is active, the active build input is that snapshot, redirects and all. */
  lemma ActiveInputTells(world: World, snap: Snapshot)
    requires Evolves(world) && CurrentIn(world(0).pointers) == Some(NameOf(world(0).owner, snap))
    ensures var o, v := world(0).owner, NameOf(world(0).owner, snap);
            && v in world(0).folders && IsFolderOf(o, snap, v, world(0).folders[v])
            && (InputOf(v, world(0).folders[v]).Ok? <==> forall n :: n in snap.documents ==> snap.documents[n].Utf8?)
            && (InputOf(v, world(0).folders[v]).Ok? ==> TellsSnapshot(o, snap, InputOf(v, world(0).folders[v]).value))
  {
    var o, v := world(0).owner, NameOf(world(0).owner, snap);
    ActiveIsThere(world, v, 0);
    hide Evolves, ManifestFault, FilesMatch;
    NamedFolderIsIt(o, snap, v, world(0).folders[v]);
    InputTells(o, snap, v, world(0).folders[v]);
  }

  lemma ActiveIsThere(world: World, v: Version, k: nat)
    requires Evolves(world) && CurrentIn(world(0).pointers) == Some(v)
    ensures v in world(0).folders && Intact(world(0).owner, v, world(0).folders[v]) && world(0).folders[v].manifest.Written?
    ensures v in world(k).folders && world(k).folders[v] == world(0).folders[v] && world(k).owner == world(0).owner
    ensures VerifyFault(world(k).owner, world(k).folders, v).None?
  {
    ActiveVerifies(world(0));
    ReleaseStays(world, 0, k, v);
    VerifiesExactlyIntact(world(k).owner, world(k).folders, v);
  }
}
