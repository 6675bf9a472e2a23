/**
 The immutable, content-addressed artifact store (article_release_store): what
 is on disk, what verification accepts, and the operations of one process that
 holds the publication lock.
 */
module ReleaseStore {
  import opened Wrappers
  import opened Digests
  import opened ArticleNames

  /** A file's content: UTF-8 text, or bytes that do not decode. */
  datatype Bytes = Utf8(text: string) | Binary(raw: seq<nat>)

  /** The manifest of a release. The digest of the snapshot it was rendered from is an opaque number. */
  datatype Manifest = Manifest(
    schemaVersion: int,
    siteCode: string,
    preview: bool,
    source: nat,
    files: map<string, Digest<Bytes>>,
    redirects: map<string, string>)

  /** The name of a release folder: the digest of its manifest, or text that is no digest at all. */
  datatype Version = Id(digest: Digest<Manifest>) | Malformed(text: string)

  datatype ManifestFile = NoManifest | Garbled | Written(manifest: Manifest)

  datatype Folder = Folder(manifest: ManifestFile, files: map<string, Bytes>)

  datatype Pointer = Pointer(version: Version, previous: Option<Version>)

  datatype PointerFile = NoPointer | BadPointer | Active(pointer: Pointer)

  datatype Owner = Owner(siteCode: string, preview: bool)

  datatype Snapshot = Snapshot(
    siteCode: string,
    missing: bool,
    source: nat,
    documents: map<string, Bytes>,
    redirects: map<string, string>)

  // ----- Manifests and verification -----

  function Shas(documents: map<string, Bytes>): map<string, Digest<Bytes>> {
    map n | n in documents :: Sha(documents[n])
  }

  function ManifestOf(o: Owner, snap: Snapshot): Manifest {
    Manifest(1, o.siteCode, o.preview, snap.source, Shas(snap.documents), snap.redirects)
  }

  predicate NamesOk(files: map<string, Digest<Bytes>>) { forall n :: n in files ==> ValidArtifactName(n) }

  predicate RedirectsOk(redirects: map<string, string>) {
    forall a :: a in redirects ==> ValidArticleRoute(a) && ValidArticleRoute(redirects[a])
  }

  /** _validate_manifest */
  function ManifestFault(o: Owner, m: Manifest): Option<string> {
    if m.schemaVersion != 1 || m.siteCode != o.siteCode || m.preview != o.preview then Some("artifact_manifest_mismatch")
    else if !NamesOk(m.files) then Some("unsafe_artifact_path")
    else if !RedirectsOk(m.redirects) then Some("artifact_manifest_mismatch")
    else None
  }

  predicate FilesMatch(files: map<string, Bytes>, expected: map<string, Digest<Bytes>>) {
    files.Keys == expected.Keys && forall n :: n in files ==> Sha(files[n]) == expected[n]
  }

  /** The folder holds the manifest it is named after and exactly the files that manifest lists. */
  predicate Complete(v: Version, f: Folder) {
    && f.manifest.Written? && v == Id(Sha(f.manifest.manifest))
    && FilesMatch(f.files, f.manifest.manifest.files)
  }

  predicate Intact(o: Owner, v: Version, f: Folder) {
    Complete(v, f) && ManifestFault(o, f.manifest.manifest).None?
  }

  /** What verify() reports of the folders it finds. */
  ghost function VerifyFault(o: Owner, folders: map<Version, Folder>, v: Version): Option<string> {
    if v.Malformed? then Some("invalid_release_id")
    else if v !in folders || !folders[v].manifest.Written? then Some("artifact_unavailable")
    else
      var m := folders[v].manifest.manifest;
      if Id(Sha(m)) != v then Some("artifact_manifest_mismatch")
      else if ManifestFault(o, m).Some? then ManifestFault(o, m)
      else if folders[v].files.Keys != m.files.Keys then Some("artifact_file_set_mismatch")
      else if !FilesMatch(folders[v].files, m.files) then Some("artifact_file_changed")
      else None
  }

  lemma VerifiesExactlyIntact(o: Owner, folders: map<Version, Folder>, v: Version)
    ensures VerifyFault(o, folders, v).None? <==> v in folders && Intact(o, v, folders[v])
  {
  }

  /** Intact, spelled out: its own manifest for this store, valid names and routes, and exactly the files listed, unchanged. */
  lemma IntactExactly(o: Owner, v: Version, f: Folder)
    ensures Intact(o, v, f) <==>
              && f.manifest.Written?
              && var m := f.manifest.manifest;
                 && v == Id(Sha(m)) && m.schemaVersion == 1 && m.siteCode == o.siteCode && m.preview == o.preview
                 && (forall n :: n in m.files ==> ValidArtifactName(n))
                 && (forall a :: a in m.redirects ==> ValidArticleRoute(a) && ValidArticleRoute(m.redirects[a]))
                 && f.files.Keys == m.files.Keys && forall n :: n in f.files ==> m.files[n] == Sha(f.files[n])
  {
    hide ValidArtifactName, ValidArticleRoute;
  }

  /** A version has one content: two complete folders of the same name are equal, file by file. */
  lemma VersionFixesContent(v: Version, f: Folder, g: Folder)
    requires Complete(v, f) && Complete(v, g)
    ensures f == g
  {
    forall n | n in f.files ensures n in g.files && f.files[n] == g.files[n] {
      assert n in g.files.Keys;
    }
    forall n | n in g.files ensures n in f.files { assert n in f.files.Keys; }
  }

  /** Whatever is written out of a snapshot matches the manifest of that snapshot. */
  lemma WrittenIsComplete(o: Owner, snap: Snapshot)
    ensures Complete(Id(Sha(ManifestOf(o, snap))), Folder(Written(ManifestOf(o, snap)), snap.documents))
  {
  }

  method Verify(o: Owner, folders: map<Version, Folder>, v: Version) returns (r: Result<Manifest, string>)
    ensures r.Err? ==> VerifyFault(o, folders, v) == Some(r.error)
    ensures r.Ok? ==> v in folders && Intact(o, v, folders[v]) && folders[v].manifest == Written(r.value)
  {
    if v.Malformed? { return Err("invalid_release_id"); }
    if v !in folders || !folders[v].manifest.Written? { return Err("artifact_unavailable"); }
    var folder := folders[v];
    var payload := folder.manifest.manifest;
    if Id(Sha(payload)) != v { return Err("artifact_manifest_mismatch"); }
    var fault := ManifestFault(o, payload);
    if fault.Some? { return Err(fault.value); }
    hide ManifestFault;
    if folder.files.Keys != payload.files.Keys { return Err("artifact_file_set_mismatch"); }
    var rest := payload.files.Keys;
    while rest != {}
      invariant rest <= payload.files.Keys
      invariant forall n :: n in payload.files && n !in rest ==> Sha(folder.files[n]) == payload.files[n]
      decreases |rest|
    {
      var name :| name in rest;
      if Sha(folder.files[name]) != payload.files[name] { return Err("artifact_file_changed"); }
      rest := rest - {name};
    }
    return Ok(payload);
  }

  // ----- One process under the publication lock -----

  /** The documents that are not still to be written. */
  function Without(documents: map<string, Bytes>, todo: set<string>): map<string, Bytes> {
    map n | n in documents && n !in todo :: documents[n]
  }

  lemma NothingWritten(documents: map<string, Bytes>)
    ensures Without(documents, documents.Keys) == map[]
    ensures Without(documents, {}) == documents
  {
    assert forall n :: n !in Without(documents, documents.Keys);
  }

  function StageFault(o: Owner, snap: Snapshot): Option<string> {
    if snap.siteCode != o.siteCode then Some("snapshot_site_mismatch")
    else if !o.preview && snap.missing then Some("translations_not_ready")
    else if !NamesOk(Shas(snap.documents)) then Some("unsafe_artifact_path")
    else None
  }

  // ----- What a staged folder records of its snapshot, column by column -----

  /** The manifest names the store, the snapshot and its redirects, and lists the documents with their digests. */
  predicate Records(o: Owner, snap: Snapshot, m: Manifest) {
    && m.schemaVersion == 1 && m.siteCode == o.siteCode && m.preview == o.preview
    && m.source == snap.source && m.redirects == snap.redirects
    && m.files.Keys == snap.documents.Keys && (forall n :: n in snap.documents ==> m.files[n] == Sha(snap.documents[n]))
  }

  /** The folder is that of this snapshot: its manifest, under the digest it is named by, and its documents. */
  predicate IsFolderOf(o: Owner, snap: Snapshot, v: Version, f: Folder) {
    f.manifest.Written? && v == Id(Sha(f.manifest.manifest)) && Records(o, snap, f.manifest.manifest) && f.files == snap.documents
  }

  /** A snapshot of the store's site, without gaps unless this is a preview, under valid names and with valid redirects. */
  predicate Stageable(o: Owner, snap: Snapshot) {
    && snap.siteCode == o.siteCode && (snap.missing ==> o.preview)
    && (forall n :: n in snap.documents ==> ValidArtifactName(n))
    && (forall a :: a in snap.redirects ==> ValidArticleRoute(a) && ValidArticleRoute(snap.redirects[a]))
  }

  lemma ManifestRecords(o: Owner, snap: Snapshot, m: Manifest)
    ensures Records(o, snap, m) <==> m == ManifestOf(o, snap)
  {
    if Records(o, snap, m) { assert m.files == Shas(snap.documents); }
  }

  lemma StageableExactly(o: Owner, snap: Snapshot)
    ensures Stageable(o, snap) <==> StageFault(o, snap).None? && ManifestFault(o, ManifestOf(o, snap)).None?
  {
    hide ValidArtifactName, ValidArticleRoute;
    assert Shas(snap.documents).Keys == snap.documents.Keys;
  }

  /** A complete folder under the name of a snapshot is the folder of that snapshot. */
  lemma NamedFolderIsIt(o: Owner, snap: Snapshot, v: Version, f: Folder)
    requires v == Id(Sha(ManifestOf(o, snap)))
    ensures Complete(v, f) <==> IsFolderOf(o, snap, v, f)
  {
    WrittenIsComplete(o, snap);
    if Complete(v, f) { VersionFixesContent(v, f, Folder(Written(ManifestOf(o, snap)), snap.documents)); }
    if f.manifest.Written? { ManifestRecords(o, snap, f.manifest.manifest); }
    ManifestRecords(o, snap, ManifestOf(o, snap));
  }

  class ReleaseFolder {
    const owner: Owner
    var folders: map<Version, Folder>
    var active: PointerFile

    constructor (owner: Owner)
      ensures this.owner == owner && folders == map[] && active == NoPointer
    {
      this.owner := owner;
      folders, active := map[], NoPointer;
    }

    /** A stage folder is filled file by file, given its manifest, and renamed into place. */
    method Stage(snap: Snapshot) returns (r: Result<Version, string>)
      modifies this`folders
      ensures var m := ManifestOf(owner, snap); var v := Id(Sha(m));
              match StageFault(owner, snap)
              case Some(code) => r == Err(code) && folders == old(folders)
              case None =>
                && folders == (if v in old(folders) then old(folders) else old(folders)[v := Folder(Written(m), snap.documents)])
                && (r.Ok? ==> r.value == v)
                && (r.Ok? <==> Intact(owner, v, folders[v]))
                && (r.Err? ==> VerifyFault(owner, folders, v) == Some(r.error))
      ensures r.Ok? ==> Stageable(owner, snap) && r.value in folders && IsFolderOf(owner, snap, r.value, folders[r.value])
      ensures Stageable(owner, snap) && (forall v :: v in old(folders) ==> Complete(v, old(folders)[v])) ==> r.Ok?
      ensures forall v :: v in old(folders) ==> v in folders && folders[v] == old(folders)[v]
      ensures forall v :: v in folders && v !in old(folders) ==> IsFolderOf(owner, snap, v, folders[v])
    {
      StageableExactly(owner, snap);
      if snap.siteCode != owner.siteCode { return Err("snapshot_site_mismatch"); }
      if !owner.preview && snap.missing { return Err("translations_not_ready"); }
      if !NamesOk(Shas(snap.documents)) { return Err("unsafe_artifact_path"); }
      var payload := ManifestOf(owner, snap);
      var version := Id(Sha(payload));
      if version !in folders {
        var stage := FillStage(snap.documents);
        folders := folders[version := stage.(manifest := Written(payload))];
      }
      VerifiesExactlyIntact(owner, folders, version);
      NamedFolderIsIt(owner, snap, version, folders[version]);
      hide Complete, IsFolderOf, Stageable, ManifestFault, VerifyFault, ValidArtifactName;
      var verified := Verify(owner, folders, version);
      if verified.Err? { return Err(verified.error); }
      return Ok(version);
    }

    method FillStage(documents: map<string, Bytes>) returns (stage: Folder)
      ensures stage == Folder(NoManifest, documents)
    {
      stage := Folder(NoManifest, map[]);
      NothingWritten(documents);
      var rest := documents.Keys;
      while rest != {}
        invariant rest <= documents.Keys
        invariant stage.manifest == NoManifest
        invariant stage.files == Without(documents, rest)
        decreases |rest|
      {
        var name :| name in rest;
        stage := stage.(files := stage.files[name := documents[name]]);
        rest := rest - {name};
      }
      NothingWritten(documents);
    }

    method Current() returns (r: Result<Option<Version>, string>)
      ensures r == CurrentOf(active)
    {
      match active
      case NoPointer => return Ok(None);
      case BadPointer => return Err("active_pointer_invalid");
      case Active(pointer) =>
        if pointer.version.Malformed? { return Err("invalid_release_id"); }
        return Ok(Some(pointer.version));
    }

    /** Compare and swap: nothing changes unless the active version is the expected one and the new one verifies. */
    method Activate(version: Version, expected: Option<Version>) returns (r: Result<bool, string>)
      modifies this`active
      ensures r == Ok(true) <==>
              CurrentOf(old(active)) == Ok(expected) && version in folders && Intact(owner, version, folders[version]) && expected != Some(version)
      ensures r == Ok(false) <==>
              CurrentOf(old(active)) == Ok(expected) && version in folders && Intact(owner, version, folders[version]) && expected == Some(version)
      ensures active == if r == Ok(true) then Active(Pointer(version, expected)) else old(active)
      ensures CurrentOf(old(active)).Ok? && CurrentOf(old(active)).value != expected ==> r == Err("active_version_changed")
    {
      var current := Current();
      if current.Err? { return Err(current.error); }
      if current.value != expected { return Err("active_version_changed"); }
      VerifiesExactlyIntact(owner, folders, version);
      var verified := Verify(owner, folders, version);
      if verified.Err? { return Err(verified.error); }
      if current.value == Some(version) { return Ok(false); }
      active := Active(Pointer(version, current.value));
      return Ok(true);
    }
  }

  function CurrentOf(active: PointerFile): Result<Option<Version>, string> {
    match active
    case NoPointer => Ok(None)
    case BadPointer => Err("active_pointer_invalid")
    case Active(pointer) => if pointer.version.Malformed? then Err("invalid_release_id") else Ok(Some(pointer.version))
  }
}
