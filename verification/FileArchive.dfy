/**
 Names, listings and bundles of the data-volume archive (scripts/file_archive.py):
 which trees can be listed, which manifests are accepted, and which bundles verify.
 */
module FileArchive {
  import opened Wrappers
  import opened Digests
  import opened Text
  import opened FileNames

  type Bytes = seq<nat>

  const FORMAT := "newcrown-file-snapshot-v1"

  /** A directory tree by the relative names of its directories and files; the root itself is not listed. */
  datatype Tree = Tree(dirs: set<string>, files: map<string, Bytes>)

  datatype Entry = Entry(path: string, size: nat, sha: Digest<Bytes>)

  datatype Listing = Listing(directories: seq<string>, files: seq<Entry>)

  datatype Manifest = Manifest(listing: Listing, format: string, volume: string)

  /** A snapshot directory: the object store and the manifest, each of which may still be missing. */
  datatype Bundle = Bundle(objects: Option<map<Digest<Bytes>, Bytes>>, manifest: Option<Manifest>)

  datatype Refusal = UnsafeName | CollidingNames | MissingParent | BadBundle | Exists | NotStopped | Changed | NotEmpty | Mismatch

  // ----- Names and their parents -----

  /** `q` is a directory on the way to `name`. */
  predicate IsParent(q: string, name: string) {
    |q| < |name| && q == name[..|q|] && name[|q|] == '/'
  }

  function Slashes(s: string): nat {
    if s == "" then 0 else Slashes(s[..|s| - 1]) + if s[|s| - 1] == '/' then 1 else 0
  }

  lemma {:induction false} SlashesGrow(s: string, n: nat)
    requires n <= |s|
    ensures Slashes(s[..n]) <= Slashes(s)
    decreases |s|
  {
    if n < |s| {
      assert s[..|s| - 1][..n] == s[..n];
      SlashesGrow(s[..|s| - 1], n);
    } else {
      assert s[..n] == s;
    }
  }

  lemma ParentIsShallower(q: string, name: string)
    requires IsParent(q, name)
    ensures Slashes(q) < Slashes(name)
  {
    var n := |q| + 1;
    assert name[..n][..|q|] == q;
    SlashesGrow(name, n);
  }

  // ----- Trees and their listings -----

  function Names(t: Tree): set<string> { t.dirs + t.files.Keys }

  /** What a file system guarantees: a name is one thing, and every directory on the way exists. */
  predicate IsTree(t: Tree) {
    t.dirs !! t.files.Keys && forall n :: n in Names(t) ==> ParentsIn(n, t.dirs)
  }

  predicate ParentsIn(name: string, dirs: set<string>) {
    forall i :: 0 <= i < |name| && name[i] == '/' ==> name[..i] in dirs
  }

  /** `fold` is Unicode normalisation followed by case folding. */
  ghost predicate Inspectable(fold: string -> string, t: Tree) {
    && (forall n :: n in Names(t) ==> SafeName(n))
    && (forall a, b :: a in Names(t) && b in Names(t) && fold(a) == fold(b) ==> a == b)
  }

  ghost predicate NoTwoFold(fold: string -> string, t: Tree) {
    forall a, b :: a in Names(t) && b in Names(t) && a != b ==> fold(a) != fold(b)
  }

  ghost predicate GoodTree(fold: string -> string, t: Tree) {
    (forall n :: n in Names(t) ==> GoodName(n)) && NoTwoFold(fold, t)
  }

  ghost predicate PlainTree(fold: string -> string, t: Tree) {
    (forall n :: n in Names(t) ==> PlainName(n)) && NoTwoFold(fold, t)
  }

  /** A tree is archived by its names alone; names of letters, digits, hyphens and inner dots always are. */
  lemma InspectableExactly(fold: string -> string, t: Tree)
    ensures Inspectable(fold, t) <==> GoodTree(fold, t)
    ensures PlainTree(fold, t) ==> GoodTree(fold, t)
  {
    forall n ensures SafeName(n) <==> GoodName(n) { SafeExactly(n); }
    forall n | PlainName(n) ensures SafeName(n) { PlainIsSafe(n); }
    hide SafeName, GoodName, PlainName, Names;
  }

  function EntryOf(path: string, content: Bytes): Entry { Entry(path, |content|, Sha(content)) }

  function PathsOf(files: seq<Entry>): seq<string> {
    seq(|files|, i requires 0 <= i < |files| => files[i].path)
  }

  ghost predicate Describes(l: Listing, t: Tree) {
    && Ascending(l.directories) && (forall d :: d in l.directories <==> d in t.dirs)
    && Ascending(PathsOf(l.files))
    && (forall e :: e in l.files <==> e.path in t.files && e == EntryOf(e.path, t.files[e.path]))
  }

  function ListedNames(l: Listing): seq<string> { l.directories + PathsOf(l.files) }

  ghost predicate NamesDistinct(fold: string -> string, names: seq<string>) {
    forall i, j :: 0 <= i < j < |names| ==> fold(names[i]) != fold(names[j])
  }

  predicate ParentsListed(l: Listing) {
    forall n :: n in ListedNames(l) ==> ParentsIn(n, set d | d in l.directories)
  }

  ghost predicate ValidListing(fold: string -> string, l: Listing) {
    && (forall n :: n in ListedNames(l) ==> SafeName(n))
    && NamesDistinct(fold, ListedNames(l))
    && ParentsListed(l)
  }

  function Total(files: seq<Entry>): nat {
    if files == [] then 0 else Total(files[..|files| - 1]) + files[|files| - 1].size
  }

  lemma PathListed(files: seq<Entry>, p: string)
    ensures p in PathsOf(files) <==> exists e :: e in files && e.path == p
  {
    if p in PathsOf(files) {
      var i :| 0 <= i < |files| && PathsOf(files)[i] == p;
      assert files[i] in files;
    }
    forall e | e in files && e.path == p ensures p in PathsOf(files) {
      var i :| 0 <= i < |files| && files[i] == e;
      assert PathsOf(files)[i] == p;
    }
  }

  lemma NamesAreListed(l: Listing, t: Tree, n: string)
    requires Describes(l, t)
    ensures n in ListedNames(l) <==> n in Names(t)
  {
    PathListed(l.files, n);
    if n in t.files { assert EntryOf(n, t.files[n]) in l.files; }
    assert ListedNames(l) == l.directories + PathsOf(l.files);
  }

  lemma DescribedDiffer(l: Listing, t: Tree, i: int, j: int)
    requires Describes(l, t) && IsTree(t) && 0 <= i < j < |ListedNames(l)|
    ensures ListedNames(l)[i] != ListedNames(l)[j]
  {
    var names, n, paths := ListedNames(l), |l.directories|, PathsOf(l.files);
    assert forall k :: 0 <= k < |paths| ==> names[n + k] == paths[k];
    hide IsTree, Describes, SafeName;
    BeforeTotal(names[i], names[j]);
    if i < n <= j {
      FileIsNoDirectory(l, t, names[i], names[j]) by {
        assert names[i] == l.directories[i] && names[j] == paths[j - n];
      }
    } else {
      OrderedApart(l, t, names, i, j);
    }
  }

  lemma OrderedApart(l: Listing, t: Tree, names: seq<string>, i: int, j: int)
    requires Describes(l, t) && names == ListedNames(l) && 0 <= i < j < |names|
    requires j < |l.directories| || |l.directories| <= i
    ensures Before(names[i], names[j])
  {
    var n, paths := |l.directories|, PathsOf(l.files);
    if j < n {
      assert names[i] == l.directories[i] && names[j] == l.directories[j];
    } else {
      assert names[i] == paths[i - n] && names[j] == paths[j - n];
    }
  }

  lemma FileIsNoDirectory(l: Listing, t: Tree, d: string, p: string)
    requires Describes(l, t) && IsTree(t) && d in l.directories && p in PathsOf(l.files)
    ensures d != p
  {
    PathListed(l.files, p);
  }

  /** A tree can be listed exactly when its listing is a valid manifest. */
  lemma ListingIsValid(fold: string -> string, l: Listing, t: Tree)
    requires Describes(l, t) && IsTree(t)
    ensures ValidListing(fold, l) <==> Inspectable(fold, t)
  {
    var names := ListedNames(l);
    forall n ensures n in names <==> n in Names(t) { NamesAreListed(l, t, n); }
    assert t.dirs == set d | d in l.directories;
    if Inspectable(fold, t) {
      forall i, j | 0 <= i < j < |names| ensures fold(names[i]) != fold(names[j]) {
        DescribedDiffer(l, t, i, j);
        assert names[i] in names && names[j] in names;
      }
    }
    if ValidListing(fold, l) {
      forall a, b | a in Names(t) && b in Names(t) && fold(a) == fold(b) ensures a == b {
        var i :| 0 <= i < |names| && names[i] == a;
        var j :| 0 <= j < |names| && names[j] == b;
      }
    }
  }

  // ----- validate_entries -----

  method CheckNames(fold: string -> string, names: seq<string>) returns (r: Option<Refusal>)
    ensures r.None? <==> (forall n :: n in names ==> SafeName(n)) && NamesDistinct(fold, names)
    ensures r.None? <==> (forall n :: n in names ==> GoodName(n)) && NamesDistinct(fold, names)
  {
    forall n ensures SafeName(n) <==> GoodName(n) { SafeExactly(n); }
    hide SafeName, GoodName;
    var seen: set<string> := {};
    var i := 0;
    while i < |names|
      invariant 0 <= i <= |names|
      invariant forall k :: 0 <= k < i ==> SafeName(names[k])
      invariant forall k, m :: 0 <= k < m < i ==> fold(names[k]) != fold(names[m])
      invariant seen == set k | 0 <= k < i :: fold(names[k])
    {
      if !SafeName(names[i]) {
        assert names[i] in names;
        return Some(UnsafeName);
      }
      var key := fold(names[i]);
      if key in seen {
        var k :| 0 <= k < i && fold(names[k]) == key;
        return Some(CollidingNames);
      }
      seen := seen + {key};
      i := i + 1;
    }
    return None;
  }

  method CheckParents(l: Listing) returns (ok: bool)
    ensures ok <==> ParentsListed(l)
  {
    var names := ListedNames(l);
    var dirs := set d | d in l.directories;
    var i := 0;
    while i < |names|
      invariant 0 <= i <= |names|
      invariant forall k :: 0 <= k < i ==> ParentsIn(names[k], dirs)
    {
      var name := names[i];
      assert name in names;
      var j := 0;
      while j < |name|
        invariant 0 <= j <= |name|
        invariant forall k :: 0 <= k < j && name[k] == '/' ==> name[..k] in dirs
      {
        if name[j] == '/' && name[..j] !in dirs { return false; }
        j := j + 1;
      }
      i := i + 1;
    }
    return true;
  }

  method ValidateEntries(fold: string -> string, l: Listing) returns (r: Result<nat, Refusal>)
    ensures r.Ok? <==> ValidListing(fold, l)
    ensures r.Ok? ==> r.value == Total(l.files)
  {
    var refused := CheckNames(fold, ListedNames(l));
    if refused.Some? { return Err(refused.value); }
    var parents := CheckParents(l);
    if !parents { return Err(MissingParent); }
    var total := 0;
    var i := 0;
    while i < |l.files|
      invariant 0 <= i <= |l.files|
      invariant total == Total(l.files[..i])
    {
      assert l.files[..i + 1][..i] == l.files[..i];
      total := total + l.files[i].size;
      i := i + 1;
    }
    assert l.files[..i] == l.files;
    return Ok(total);
  }

  // ----- inspect_tree -----

  function Visible(t: Tree, ignoreMarker: bool): Tree {
    if ignoreMarker then t.(files := t.files - {MARKER}) else t
  }

  method Inspect(fold: string -> string, tree: Tree, ignoreMarker: bool) returns (r: Result<Listing, Refusal>)
    requires IsTree(tree)
    ensures r.Ok? <==> Inspectable(fold, Visible(tree, ignoreMarker))
    ensures r.Ok? ==> Describes(r.value, Visible(tree, ignoreMarker))
  {
    hide SafeName;
    var t := Visible(tree, ignoreMarker);
    var directories := Sorted(t.dirs);
    var order := Sorted(t.files.Keys);
    var files := seq(|order|, i requires 0 <= i < |order| && order[i] in t.files => EntryOf(order[i], t.files[order[i]])) by {
      assert forall i :: 0 <= i < |order| ==> order[i] in order;
    }
    assert PathsOf(files) == order;
    var listing := Listing(directories, files);
    RowsDescribe(t, order, files);
    ListingIsValid(fold, listing, t);
    var validated := ValidateEntries(fold, listing);
    if validated.Err? { return Err(validated.error); }
    return Ok(listing);
  }

  lemma RowsDescribe(t: Tree, order: seq<string>, files: seq<Entry>)
    requires |files| == |order| && forall x :: x in order <==> x in t.files
    requires forall i :: 0 <= i < |order| ==> order[i] in t.files && files[i] == EntryOf(order[i], t.files[order[i]])
    ensures forall e :: e in files <==> e.path in t.files && e == EntryOf(e.path, t.files[e.path])
  {
    forall e: Entry | e.path in t.files && e == EntryOf(e.path, t.files[e.path]) ensures e in files {
      assert e.path in order;
      var i :| 0 <= i < |order| && order[i] == e.path;
      assert files[i] == e;
    }
  }

  // ----- verify -----

  function Shas(files: seq<Entry>): set<Digest<Bytes>> { set e | e in files :: e.sha }

  predicate Stores(objects: map<Digest<Bytes>, Bytes>, e: Entry) {
    e.sha in objects && Sha(objects[e.sha]) == e.sha && |objects[e.sha]| == e.size
  }

  ghost predicate Sound(fold: string -> string, volume: string, b: Bundle) {
    && b.manifest.Some? && b.objects.Some?
    && b.manifest.value.format == FORMAT && b.manifest.value.volume == volume
    && ValidListing(fold, b.manifest.value.listing)
    && b.objects.value.Keys == Shas(b.manifest.value.listing.files)
    && forall e :: e in b.manifest.value.listing.files ==> Stores(b.objects.value, e)
  }

  method VerifyBundle(fold: string -> string, volume: string, found: Option<Bundle>) returns (r: Result<Manifest, Refusal>)
    ensures r.Ok? <==> found.Some? && Sound(fold, volume, found.value)
    ensures r.Ok? ==> found.value.manifest == Some(r.value)
  {
    if found.None? || found.value.manifest.None? || found.value.objects.None? { return Err(BadBundle); }
    var manifest, objects := found.value.manifest.value, found.value.objects.value;
    if manifest.format != FORMAT || manifest.volume != volume { return Err(BadBundle); }
    hide ValidListing;
    var validated := ValidateEntries(fold, manifest.listing);
    if validated.Err? { return Err(validated.error); }
    var files := manifest.listing.files;
    if objects.Keys != Shas(files) { return Err(BadBundle); }
    var verified: map<Digest<Bytes>, nat> := map[];
    var i := 0;
    while i < |files|
      invariant 0 <= i <= |files|
      invariant forall k :: 0 <= k < i ==> Stores(objects, files[k])
      invariant forall s :: s in verified ==> s in objects && Sha(objects[s]) == s && verified[s] == |objects[s]|
    {
      var row := files[i];
      assert row in files;
      assert row.sha in Shas(files);
      if row.sha !in verified {
        if Sha(objects[row.sha]) != row.sha { return Err(BadBundle); }
        verified := verified[row.sha := |objects[row.sha]|];
      }
      if verified[row.sha] != row.size { return Err(BadBundle); }
      i := i + 1;
    }
    return Ok(manifest);
  }
}
