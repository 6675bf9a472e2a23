/**
 Backup and restore (scripts/file_archive.execute) as sequences of single disk
 writes. Each folder keeps, as ghost state, every state it has been in, so that
 what holds after a crash between two writes can be stated.
 */
module FileSnapshot {
  import opened Wrappers
  import opened Digests
  import opened Text
  import opened FileNames
  import opened FileArchive

  datatype Report = Planned(files: nat) | Done(files: nat)

  // ----- What a bundle stands for -----

  ghost predicate Rebuilds(b: Bundle, t: Tree)
    requires b.manifest.Some? && b.objects.Some?
  {
    var l := b.manifest.value.listing;
    && (forall d :: d in l.directories <==> d in t.dirs)
    && (forall p :: p in PathsOf(l.files) <==> p in t.files)
    && (forall e :: e in l.files ==> e.path in t.files && e.sha in b.objects.value && t.files[e.path] == b.objects.value[e.sha])
  }

  /** The bundle is a snapshot of the tree: it verifies, and its listing describes the tree. */
  ghost predicate IsSnapshot(fold: string -> string, volume: string, b: Bundle, t: Tree) {
    Sound(fold, volume, b) && Describes(b.manifest.value.listing, t)
  }

  ghost predicate SortedListing(l: Listing) { Ascending(l.directories) && Ascending(PathsOf(l.files)) }

  /** Backup, verify and restore compose to the identity: what a snapshot rebuilds is the tree it was taken of. */
  lemma SnapshotRebuildsItsTree(fold: string -> string, volume: string, b: Bundle, t: Tree, u: Tree)
    requires IsSnapshot(fold, volume, b, t) && Rebuilds(b, u)
    ensures u == t
  {
    hide ValidListing;
    var l := b.manifest.value.listing;
    forall d ensures d in u.dirs <==> d in t.dirs { assert d in l.directories <==> d in t.dirs; }
    forall p ensures p in u.files <==> p in t.files {
      PathListed(l.files, p);
      if p in t.files { assert EntryOf(p, t.files[p]) in l.files; }
    }
    forall p | p in t.files ensures u.files[p] == t.files[p] {
      var e := EntryOf(p, t.files[p]);
      assert e in l.files && Stores(b.objects.value, e);
    }
  }

  // ----- Backup -----

  class SnapshotFolder {
    var bundle: Option<Bundle>
    ghost var states: seq<Option<Bundle>>

    constructor ()
      ensures bundle == None && states == []
    {
      bundle, states := None, [];
    }

    method Become(b: Bundle)
      modifies this
      ensures bundle == Some(b) && states == old(states) + [Some(b)]
    {
      bundle := Some(b);
      states := states + [bundle];
    }

    /**
     The tree is looked at three times: listed, read file by file, and listed
     again. `copy` is what the copy of each file finds, `later` the tree at the end.
     */
    method Backup(fold: string -> string, volume: string, tree: Tree, copy: string -> Bytes, later: Tree, apply: bool, stopped: bool)
        returns (r: Result<Report, Refusal>)
      requires IsTree(tree) && IsTree(later)
      modifies this
      ensures old(states) <= states
      ensures old(bundle).Some? || !Inspectable(fold, tree) ==> r.Err? && bundle == old(bundle) && states == old(states)
      ensures r.Ok? && r.value.Planned? ==> bundle == old(bundle) && states == old(states)
      ensures r.Ok? && r.value.Done? ==> bundle.Some? && IsSnapshot(fold, volume, bundle.value, tree) && later == tree
      ensures (&& old(bundle).None? && Inspectable(fold, tree) && apply && stopped && later == tree
               && forall p :: p in tree.files ==> copy(p) == tree.files[p]) ==> r == Ok(Done(|tree.files|))
      ensures !GoodTree(fold, tree) ==> r.Err? && bundle == old(bundle) && states == old(states)
      ensures (&& old(bundle).None? && PlainTree(fold, tree) && apply && stopped && later == tree
               && forall p :: p in tree.files ==> copy(p) == tree.files[p]) ==> r == Ok(Done(|tree.files|))
      ensures forall k :: |old(states)| <= k < |states| && k < |states| - 1 ==> Unissued(states[k])
      ensures r.Err? && |old(states)| < |states| ==> Unissued(states[|states| - 1])
    {
      InspectableExactly(fold, tree);
      hide GoodTree, PlainTree, Inspectable, Describes, ValidListing, IsTree;
      if bundle.Some? { return Err(Exists); }
      var listed := Inspect(fold, tree, false);
      if listed.Err? { return Err(listed.error); }
      var before := listed.value;
      EntryCount(before, tree);
      if !apply { return Ok(Planned(|before.files|)); }
      if !stopped { return Err(NotStopped); }
      Become(Bundle(None, None));
      Become(Bundle(Some(map[]), None));
      var copied := CopyObjects(before.files, copy, tree);
      if copied.Err? { return Err(copied.error); }
      var again := Inspect(fold, later, false);
      if again.Ok? && later == tree { ListingOfTreeIsUnique(again.value, before, tree); }
      if again.Err? || again.value != before { return Err(Changed); }
      SameListingSameTree(before, tree, later);
      var manifest := Manifest(before, FORMAT, volume);
      ListingIsValid(fold, before, tree);
      Issued(fold, volume, bundle.value.objects.value, before);
      Become(Bundle(bundle.value.objects, Some(manifest)));
      var verified := VerifyBundle(fold, volume, bundle);
      assert verified.Ok?;
      return Ok(Done(|before.files|));
    }

    method CopyObjects(files: seq<Entry>, copy: string -> Bytes, ghost tree: Tree) returns (r: Result<(), Refusal>)
      requires bundle == Some(Bundle(Some(map[]), None))
      modifies this
      ensures bundle.Some? && bundle.value.objects.Some? && bundle.value.manifest.None?
      ensures old(states) <= states && forall k :: |old(states)| <= k < |states| ==> Unissued(states[k])
      ensures |states| == |old(states)| || states[|states| - 1] == bundle
      ensures r.Ok? ==> bundle.value.objects.value.Keys == Shas(files) && forall s :: s in bundle.value.objects.value ==> Sha(bundle.value.objects.value[s]) == s
      ensures (forall k :: 0 <= k < |files| ==> Sha(copy(files[k].path)) == files[k].sha) ==> r.Ok?
    {
      var i := 0;
      while i < |files|
        invariant 0 <= i <= |files|
        invariant bundle.Some? && bundle.value.objects.Some? && bundle.value.manifest.None?
        invariant bundle.value.objects.value.Keys == Shas(files[..i])
        invariant forall s :: s in bundle.value.objects.value ==> Sha(bundle.value.objects.value[s]) == s
        invariant old(states) <= states && forall k :: |old(states)| <= k < |states| ==> Unissued(states[k])
        invariant |states| == |old(states)| || states[|states| - 1] == bundle
      {
        var row := files[i];
        var objects := bundle.value.objects.value;
        ShasGrow(files, i);
        if row.sha !in objects {
          Become(Bundle(Some(objects[row.sha := copy(row.path)]), None));
          if Sha(copy(row.path)) != row.sha { return Err(Changed); }
        }
        i := i + 1;
      }
      assert files[..i] == files;
      return Ok(());
    }
  }

  /** A snapshot directory without a manifest never verifies. */
  predicate Unissued(b: Option<Bundle>) { b.Some? && b.value.manifest.None? }

  lemma UnissuedNeverVerifies(fold: string -> string, volume: string, b: Option<Bundle>)
    requires Unissued(b)
    ensures !Sound(fold, volume, b.value)
  {
  }

  lemma ShasGrow(files: seq<Entry>, i: nat)
    requires i < |files|
    ensures Shas(files[..i + 1]) == Shas(files[..i]) + {files[i].sha}
  {
    assert files[..i + 1] == files[..i] + [files[i]];
    forall s | s in Shas(files[..i]) + {files[i].sha} ensures s in Shas(files[..i + 1]) {
      if s in Shas(files[..i]) {
        var e :| e in files[..i] && e.sha == s;
        assert e in files[..i + 1];
      } else {
        assert files[..i + 1][i].sha == s;
      }
    }
  }

  lemma Issued(fold: string -> string, volume: string, objects: map<Digest<Bytes>, Bytes>, l: Listing)
    requires ValidListing(fold, l) && objects.Keys == Shas(l.files)
    requires forall s :: s in objects ==> Sha(objects[s]) == s
    requires forall e :: e in l.files ==> exists c :: e == EntryOf(e.path, c)
    ensures Sound(fold, volume, Bundle(Some(objects), Some(Manifest(l, FORMAT, volume))))
  {
    hide ValidListing;
    forall e | e in l.files ensures Stores(objects, e) {
      assert e.sha in Shas(l.files);
      var c :| e == EntryOf(e.path, c);
    }
  }

  lemma SameListingSameTree(l: Listing, t: Tree, u: Tree)
    requires Describes(l, t) && Describes(l, u)
    ensures t == u
  {
    forall d ensures d in t.dirs <==> d in u.dirs { assert d in l.directories <==> d in t.dirs; }
    forall p | p in t.files ensures p in u.files && u.files[p] == t.files[p] {
      assert EntryOf(p, t.files[p]) in l.files;
    }
    forall p | p in u.files ensures p in t.files {
      assert EntryOf(p, u.files[p]) in l.files;
    }
  }

  lemma EntryCount(l: Listing, t: Tree)
    requires Describes(l, t)
    ensures |l.files| == |t.files|
    ensures forall e :: e in l.files ==> exists c :: e == EntryOf(e.path, c)
    ensures forall e :: e in l.files ==> e.path in t.files && e.sha == Sha(t.files[e.path])
  {
    var paths := PathsOf(l.files);
    forall p ensures p in t.files <==> p in paths {
      PathListed(l.files, p);
      if p in t.files { assert EntryOf(p, t.files[p]) in l.files; }
    }
    AscendingCount(paths, t.files.Keys);
  }

  lemma {:induction false} AscendingCount(s: seq<string>, elems: set<string>)
    requires Ascending(s) && forall x :: x in elems <==> x in s
    ensures |s| == |elems|
  {
    if s != [] {
      assert s[0] in s;
      forall x ensures x in elems - {s[0]} <==> x in s[1..] { TailHolds(s, x); }
      AscendingCount(s[1..], elems - {s[0]});
    } else {
      assert elems == {};
    }
  }

  // ----- Restore -----

  predicate Shallower(a: string, b: string) {
    Slashes(a) < Slashes(b) || (Slashes(a) == Slashes(b) && Before(a, b))
  }

  /** sorted() by depth, then name. */
  method ByDepth(names: seq<string>) returns (order: seq<string>)
    ensures forall x :: x in order <==> x in names
    ensures forall i, j :: 0 <= i < j < |order| ==> Slashes(order[i]) <= Slashes(order[j])
  {
    order := [];
    var i := 0;
    while i < |names|
      invariant 0 <= i <= |names|
      invariant forall x :: x in order <==> x in names[..i]
      invariant forall k, m :: 0 <= k < m < |order| ==> Slashes(order[k]) <= Slashes(order[m])
    {
      var k := 0;
      while k < |order| && Shallower(order[k], names[i])
        invariant 0 <= k <= |order|
        invariant forall m :: 0 <= m < k ==> Slashes(order[m]) <= Slashes(names[i])
      {
        k := k + 1;
      }
      ghost var had := order;
      order := order[..k] + [names[i]] + order[k..];
      forall x ensures x in order <==> x in had || x == names[i] {
        assert had == had[..k] + had[k..];
      }
      i := i + 1;
    }
    assert names[..i] == names;
  }

  lemma DirectoryFits(fold: string -> string, l: Listing, order: seq<string>, i: nat)
    requires ValidListing(fold, l) && i < |order|
    requires forall x :: x in order <==> x in l.directories
    requires forall j, k :: 0 <= j < k < |order| ==> Slashes(order[j]) <= Slashes(order[k])
    ensures order[i] != MARKER && ParentsIn(order[i], set d | d in order[..i])
  {
    MarkerUnlisted(fold, l);
    hide SafeName, NamesDistinct, Slashes;
    var name := order[i];
    assert name in order && name in ListedNames(l);
    forall j | 0 <= j < |name| && name[j] == '/' ensures name[..j] in order[..i] {
      assert name[..j] in order;
      var k :| 0 <= k < |order| && order[k] == name[..j];
      ParentIsShallower(name[..j], name);
      assert order[k] == order[..i][k];
    }
  }

  lemma FileFits(fold: string -> string, l: Listing, i: nat)
    requires ValidListing(fold, l) && i < |l.files|
    ensures var name := l.files[i].path;
            && name != MARKER && name !in l.directories && name !in PathsOf(l.files)[..i]
            && ParentsIn(name, set d | d in l.directories)
  {
    MarkerUnlisted(fold, l);
    hide SafeName, ParentsIn;
    var names, n, name := ListedNames(l), |l.directories|, l.files[i].path;
    assert names[n + i] == name;
    assert name in names;
    forall k | 0 <= k < n ensures fold(l.directories[k]) != fold(name) {
      assert names[k] == l.directories[k];
    }
    forall k | 0 <= k < i ensures fold(PathsOf(l.files)[k]) != fold(name) {
      assert names[n + k] == PathsOf(l.files)[k];
    }
  }

  lemma MarkerUnlisted(fold: string -> string, l: Listing)
    requires ValidListing(fold, l)
    ensures MARKER !in ListedNames(l) && MARKER !in PathsOf(l.files)
  {
    MarkerIsUnsafe();
    hide SafeName;
    assert forall p :: p in PathsOf(l.files) ==> p in ListedNames(l);
  }

  lemma MarkerIsFree(fold: string -> string, t: Tree)
    requires Inspectable(fold, t)
    ensures MARKER !in Names(t) && ParentsIn(MARKER, t.dirs)
  {
    MarkerIsUnsafe();
    hide SafeName;
  }

  /** A volume that carries the marker can be neither backed up nor restored into. */
  lemma MarkerStopsEverything(fold: string -> string, volume: string, found: Option<Bundle>, t: Tree)
    requires MARKER in t.files
    ensures !Inspectable(fold, t) && !Ready(fold, volume, found, t)
  {
    MarkerIsUnsafe();
    assert MARKER in Names(t);
  }

  lemma ListingOfTreeIsUnique(l: Listing, m: Listing, t: Tree)
    requires Describes(l, t) && Describes(m, t)
    ensures l == m
  {
    ListingIsUnique(l.directories, m.directories);
    var a, b := PathsOf(l.files), PathsOf(m.files);
    forall p ensures p in a <==> p in b {
      PathListed(l.files, p);
      PathListed(m.files, p);
      if p in t.files { assert EntryOf(p, t.files[p]) in l.files && EntryOf(p, t.files[p]) in m.files; }
    }
    ListingIsUnique(a, b);
    forall i | 0 <= i < |a| ensures l.files[i] == m.files[i] {
      assert l.files[i] in l.files && m.files[i] in m.files;
      assert a[i] == b[i];
    }
  }

  lemma EmptyListing(l: Listing, t: Tree)
    requires Describes(l, t)
    ensures l.files == [] <==> t.files == map[]
    ensures forall d :: d in l.directories <==> d in t.dirs
  {
    if l.files != [] { assert l.files[0] in l.files; }
    forall p | p in t.files ensures EntryOf(p, t.files[p]) in l.files {}
  }

  /** The restored tree can be listed, and its listing is the manifest's own exactly when that one is in order. */
  lemma RestoredListing(fold: string -> string, volume: string, b: Bundle, t: Tree, m: Listing)
    requires Sound(fold, volume, b) && Rebuilds(b, t) && Describes(m, t)
    ensures m == b.manifest.value.listing <==> SortedListing(b.manifest.value.listing)
  {
    hide ValidListing;
    var l := b.manifest.value.listing;
    if SortedListing(l) {
      forall e | e in l.files ensures e.path in t.files && e == EntryOf(e.path, t.files[e.path]) {
        assert Stores(b.objects.value, e);
      }
      forall e: Entry | e.path in t.files && e == EntryOf(e.path, t.files[e.path]) ensures e in l.files {
        assert e.path in PathsOf(l.files);
        PathListed(l.files, e.path);
        var f :| f in l.files && f.path == e.path;
        assert Stores(b.objects.value, f);
      }
      ListingOfTreeIsUnique(l, m, t);
    }
  }

  lemma RebuiltIsInspectable(fold: string -> string, volume: string, b: Bundle, t: Tree)
    requires Sound(fold, volume, b) && Rebuilds(b, t)
    ensures Inspectable(fold, t)
  {
    hide SafeName, ParentsListed, Stores;
    var l := b.manifest.value.listing;
    var names := ListedNames(l);
    forall n ensures n in names <==> n in Names(t) {
      assert n in names <==> n in l.directories || n in PathsOf(l.files);
    }
    forall a, c | a in Names(t) && c in Names(t) && fold(a) == fold(c) ensures a == c {
      var i :| 0 <= i < |names| && names[i] == a;
      var j :| 0 <= j < |names| && names[j] == c;
    }
  }

  lemma MoreParents(name: string, some: set<string>, more: set<string>)
    requires ParentsIn(name, some) && some <= more
    ensures ParentsIn(name, more)
  {
  }

  /** The volume holds the marker and the first `n` files of the listing. */
  ghost predicate Filled(rows: seq<Entry>, objects: map<Digest<Bytes>, Bytes>, files: map<string, Bytes>, n: nat)
    requires n <= |rows|
  {
    && (forall p :: p in files <==> p == MARKER || p in PathsOf(rows)[..n])
    && forall k :: 0 <= k < n ==> rows[k].path in files && rows[k].sha in objects && files[rows[k].path] == objects[rows[k].sha]
  }

  lemma FilledMore(rows: seq<Entry>, objects: map<Digest<Bytes>, Bytes>, files: map<string, Bytes>, n: nat)
    requires n < |rows| && Filled(rows, objects, files, n) && rows[n].path !in files && rows[n].sha in objects
    ensures Filled(rows, objects, files[rows[n].path := objects[rows[n].sha]], n + 1)
  {
    assert PathsOf(rows)[..n + 1] == PathsOf(rows)[..n] + [rows[n].path];
  }

  lemma FilledRebuilds(b: Bundle, dirs: set<string>, files: map<string, Bytes>)
    requires b.manifest.Some? && b.objects.Some?
    requires forall d :: d in dirs <==> d in b.manifest.value.listing.directories
    requires MARKER !in PathsOf(b.manifest.value.listing.files)
    requires Filled(b.manifest.value.listing.files, b.objects.value, files, |b.manifest.value.listing.files|)
    ensures MARKER in files && Rebuilds(b, Tree(dirs, files - {MARKER}))
  {
    var rows := b.manifest.value.listing.files;
    assert PathsOf(rows)[..|rows|] == PathsOf(rows);
    forall e | e in rows ensures e.path in files && e.path != MARKER && e.sha in b.objects.value && files[e.path] == b.objects.value[e.sha] {
      var k :| 0 <= k < |rows| && rows[k] == e;
      PathListed(rows, e.path);
    }
  }

  class Volume {
    var dirs: set<string>
    var files: map<string, Bytes>
    ghost var states: seq<Tree>

    ghost function View(): Tree
      reads this
    {
      Tree(dirs, files)
    }

    ghost predicate Valid()
      reads this
    {
      IsTree(View())
    }

    constructor (dirs: set<string>, files: map<string, Bytes>)
      requires IsTree(Tree(dirs, files))
      ensures Valid() && View() == Tree(dirs, files) && states == []
    {
      this.dirs, this.files, states := dirs, files, [];
    }

    /** Exclusive creation: the name is free and its directory exists. */
    method CreateFile(name: string, content: Bytes)
      requires Valid() && name !in Names(View()) && ParentsIn(name, dirs)
      modifies this
      ensures Valid() && View() == Tree(old(dirs), old(files)[name := content]) && states == old(states) + [View()]
    {
      files := files[name := content];
      states := states + [View()];
    }

    method MakeDirectory(name: string)
      requires Valid() && name !in files && ParentsIn(name, dirs)
      modifies this
      ensures Valid() && View() == Tree(old(dirs) + {name}, old(files)) && states == old(states) + [View()]
    {
      forall n | n in Names(View()) ensures ParentsIn(n, dirs + {name}) { MoreParents(n, dirs, dirs + {name}); }
      MoreParents(name, dirs, dirs + {name});
      dirs := dirs + {name};
      states := states + [View()];
    }

    method Unlink(name: string)
      requires Valid() && name in files
      modifies this
      ensures Valid() && View() == Tree(old(dirs), old(files) - {name}) && states == old(states) + [View()]
    {
      files := files - {name};
      states := states + [View()];
    }

    /** Parents are made before their children, so no directory is ever missing its own. */
    method MakeDirectories(fold: string -> string, l: Listing)
      requires Valid() && ValidListing(fold, l) && (forall d :: d in dirs ==> d in l.directories) && files.Keys == {MARKER}
      modifies this
      ensures Valid() && files == old(files) && (forall d :: d in dirs <==> d in l.directories)
      ensures old(states) <= states && Marked(states, |old(states)|)
    {
      var order := ByDepth(l.directories);
      hide SafeName, IsTree;
      var i := 0;
      while i < |order|
        invariant 0 <= i <= |order|
        invariant Valid() && files == old(files) && dirs == old(dirs) + set d | d in order[..i]
        invariant old(states) <= states && Marked(states, |old(states)|)
      {
        DirectoryFits(fold, l, order, i);
        assert ParentsIn(order[i], dirs);
        MakeDirectory(order[i]);
        assert order[..i + 1] == order[..i] + [order[i]];
        i := i + 1;
      }
      assert order[..i] == order;
    }

    method CreateFiles(fold: string -> string, volume: string, b: Bundle)
      requires Valid() && Sound(fold, volume, b) && files.Keys == {MARKER}
      requires forall d :: d in dirs <==> d in b.manifest.value.listing.directories
      modifies this
      ensures Valid() && dirs == old(dirs) && MARKER in files
      ensures Rebuilds(b, Visible(View(), true))
      ensures old(states) <= states && Marked(states, |old(states)|)
    {
      var l, objects := b.manifest.value.listing, b.objects.value;
      hide SafeName, IsTree, ParentsIn, Rebuilds;
      var i := 0;
      while i < |l.files|
        invariant 0 <= i <= |l.files|
        invariant Valid() && dirs == old(dirs) && Filled(l.files, objects, files, i)
        invariant old(states) <= states && Marked(states, |old(states)|)
      {
        var row := l.files[i];
        FileFits(fold, l, i);
        assert row in l.files && Stores(objects, row);
        assert dirs == set d | d in l.directories;
        FilledMore(l.files, objects, files, i);
        CreateFile(row.path, objects[row.sha]);
        i := i + 1;
      }
      MarkerUnlisted(fold, l);
      FilledRebuilds(b, dirs, files);
    }

    /**
     Restore into this volume. It ends well exactly when the bundle verifies, the
     volume holds no file and no foreign directory, the operator confirmed, and
     the manifest lists its names in order; every state it passes through either
     carries the marker or is the finished tree.
     */
    method Restore(fold: string -> string, volume: string, found: Option<Bundle>, apply: bool, stopped: bool, trusted: bool)
        returns (r: Result<Report, Refusal>)
      requires Valid()
      modifies this
      ensures Valid() && old(states) <= states
      ensures !Ready(fold, volume, found, old(View())) ==> r.Err?
      ensures !Ready(fold, volume, found, old(View())) || !apply || !stopped || !trusted ==> View() == old(View()) && states == old(states)
      ensures Ready(fold, volume, found, old(View())) && apply && stopped && trusted ==>
                && (r.Ok? <==> SortedListing(found.value.manifest.value.listing))
                && (r.Ok? ==> Rebuilds(found.value, View()))
                && (r.Err? ==> MARKER in files)
      ensures forall k :: |old(states)| <= k < |states| ==> MARKER in states[k].files || (k == |states| - 1 && r.Ok? && states[k] == View())
    {
      hide IsTree, ValidListing, Inspectable, Describes, Rebuilds, SortedListing;
      var verified := VerifyBundle(fold, volume, found);
      if verified.Err? { return Err(verified.error); }
      var manifest := verified.value;
      var before := Inspect(fold, Tree(dirs, files), false);
      if before.Err? { return Err(before.error); }
      EmptyListing(before.value, View());
      if before.value.files != [] || exists d :: d in before.value.directories && d !in manifest.listing.directories { return Err(NotEmpty); }
      if !apply { return Ok(Planned(|manifest.listing.files|)); }
      if !stopped || !trusted { return Err(NotStopped); }
      MarkerIsFree(fold, View());
      CreateFile(MARKER, []);
      MakeDirectories(fold, manifest.listing);
      CreateFiles(fold, volume, found.value);
      RebuiltIsInspectable(fold, volume, found.value, Visible(View(), true));
      var after := Inspect(fold, Tree(dirs, files), true);
      RestoredListing(fold, volume, found.value, Visible(View(), true), after.value);
      if after.value != manifest.listing { return Err(Mismatch); }
      Unlink(MARKER);
      return Ok(Done(|manifest.listing.files|));
    }
  }

  ghost predicate Marked(states: seq<Tree>, start: nat) {
    forall k :: start <= k < |states| ==> MARKER in states[k].files
  }

  /** What restore asks of the bundle and of the volume before its first write. */
  ghost predicate Ready(fold: string -> string, volume: string, found: Option<Bundle>, t: Tree) {
    && found.Some? && Sound(fold, volume, found.value)
    && Inspectable(fold, t) && t.files == map[]
    && forall d :: d in t.dirs ==> d in found.value.manifest.value.listing.directories
  }

  // ----- A manifest out of order -----

  const DISORDERED := Listing([], [EntryOf("b", [1]), EntryOf("a", [2])])

  function DisorderedBundle(volume: string): Bundle {
    Bundle(Some(map[Sha([1]) := [1], Sha([2]) := [2]]), Some(Manifest(DISORDERED, FORMAT, volume)))
  }

  lemma LetterIsSafe(c: string)
    requires c == "a" || c == "b"
    ensures SafeName(c)
  {
    SplitAtom(c);
    assert c[0] != '.' && BeforeDot(c[1..]) == "" && |BeforeDot(c)| == 1;
    assert SafePart(c);
  }

  lemma DisorderedIsValid(fold: string -> string)
    requires fold("a") != fold("b")
    ensures ValidListing(fold, DISORDERED)
  {
    LetterIsSafe("a");
    LetterIsSafe("b");
    hide SafeName;
    assert ListedNames(DISORDERED) == ["b", "a"];
  }

  /** Two files listed the wrong way round: the bundle verifies, whatever the volume and the folding. */
  lemma DisorderedVerifies(fold: string -> string, volume: string)
    requires fold("a") != fold("b")
    ensures Sound(fold, volume, DisorderedBundle(volume)) && !SortedListing(DISORDERED)
  {
    DisorderedIsValid(fold);
    hide ValidListing;
    var b := DisorderedBundle(volume);
    var files := DISORDERED.files;
    assert files[0].sha in Shas(files) && files[1].sha in Shas(files);
    assert b.objects.value.Keys == Shas(files);
    assert PathsOf(files)[0] == "b" && PathsOf(files)[1] == "a";
  }

  /** Restoring it into an empty volume writes, refuses, and leaves the incomplete marker. */
  method RestoreDisordered(fold: string -> string, volume: string, target: Volume) returns (r: Result<Report, Refusal>)
    requires fold("a") != fold("b") && target.Valid() && target.View() == Tree({}, map[])
    modifies target
    ensures r.Err? && MARKER in target.files
  {
    DisorderedVerifies(fold, volume);
    EmptyIsReady(fold, volume, Some(DisorderedBundle(volume)), target.View());
    hide Sound, SortedListing;
    r := target.Restore(fold, volume, Some(DisorderedBundle(volume)), true, true, true);
  }

  /** The whole way: back up a quiet tree, then restore the snapshot into an empty volume. */
  method RoundTrip(fold: string -> string, volume: string, source: Tree, copy: string -> Bytes, folder: SnapshotFolder, target: Volume)
    requires IsTree(source) && Inspectable(fold, source) && forall p :: p in source.files ==> copy(p) == source.files[p]
    requires folder.bundle == None && target.Valid() && target.View() == Tree({}, map[])
    modifies folder, target
    ensures target.View() == source
  {
    var made := folder.Backup(fold, volume, source, copy, source, true, true);
    EmptyIsReady(fold, volume, folder.bundle, target.View());
    var restored := target.Restore(fold, volume, folder.bundle, true, true, true);
    hide ValidListing, Inspectable, Describes, Rebuilds, Sound;
    SnapshotIsSorted(fold, volume, folder.bundle.value, source);
    SnapshotRebuildsItsTree(fold, volume, folder.bundle.value, source, target.View());
  }

  lemma EmptyIsReady(fold: string -> string, volume: string, found: Option<Bundle>, t: Tree)
    requires found.Some? && Sound(fold, volume, found.value) && t == Tree({}, map[])
    ensures Ready(fold, volume, found, t)
  {
    hide Sound, SafeName;
  }

  lemma SnapshotIsSorted(fold: string -> string, volume: string, b: Bundle, t: Tree)
    requires IsSnapshot(fold, volume, b, t)
    ensures SortedListing(b.manifest.value.listing)
  {
  }
}
