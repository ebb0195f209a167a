/**
 The ownership marker and `snapshot` of scripts/install-panel.py: when a tree counts
 as an unmodified installation, and what is captured of it.
 */
module Ownership {
  import opened Wrappers
  import opened Paths

  /** Device and inode: what stays the same when an object is renamed. */
  type Id = nat

  /** SHA-256, taken to be collision free: a digest stands for the bytes hashed. */
  datatype Digest = Sha256(of: Content)

  datatype Content = Plain(bytes: seq<bv8>) | MarkerText(marker: Marker)

  datatype Marker = Marker(version: int, files: map<string, Digest>)

  datatype Stat = Stat(inode: Id, mode: nat, owner: nat, group: nat, mtime: int)

  datatype Node =
    | Regular(stat: Stat, content: Content)
    | Folder(stat: Stat)
    | Other(stat: Stat)  // a link or a special file

  /** A whole plugin directory; entries are keyed by their path relative to it. */
  datatype Tree = Tree(isDirectory: bool, mode: nat, owner: nat, group: nat, entries: map<string, Node>)

  const MARKER := ".omabit-install.json"

  datatype Entry = Entry(stat: Stat, digest: Option<Digest>)

  datatype Snapshot = Snapshot(identity: Id, mode: nat, owner: nat, group: nat, entries: map<string, Entry>)

  datatype Refusal =
    | NotADirectory | LinkOrSpecial | Unmanaged | UnsupportedMarker | UnsafeName
    | UnexpectedEntries | LocalChanges | ChangedMeanwhile

  /** What a directory walk can find: canonical names, each below folders that are there too. */
  ghost predicate Walkable(entries: map<string, Node>) {
    forall n :: n in entries ==>
      && Parts(n) != [] && Canonical(n)
      && forall a :: Under(n, a) ==> a in entries && entries[a].Folder?
  }

  function Files(entries: map<string, Node>): set<string> {
    set n | n in entries && entries[n].Regular?
  }

  function Folders(entries: map<string, Node>): set<string> {
    set n | n in entries && entries[n].Folder?
  }

  function Above(names: set<string>): set<string> {
    set n, a | n in names && a in Ancestors(n) :: a
  }

  function Captured(node: Node): Entry {
    Entry(node.stat, if node.Regular? then Some(Sha256(node.content)) else None)
  }

  function Judge(id: Id, tree: Tree): (r: Result<Snapshot, Refusal>) {
    var e := tree.entries;
    if !tree.isDirectory then Err(NotADirectory)
    else if exists n :: n in e && e[n].Other? then Err(LinkOrSpecial)
    else if MARKER !in e || !e[MARKER].Regular? then Err(Unmanaged)
    else if e[MARKER].content.Plain? || e[MARKER].content.marker.version != 1 then Err(UnsupportedMarker)
    else
      var files := e[MARKER].content.marker.files;
      if exists n :: n in files && (!Canonical(n) || n == MARKER) then Err(UnsafeName)
      else if Files(e) != files.Keys + {MARKER} || Folders(e) != Above(files.Keys) then Err(UnexpectedEntries)
      else if exists n :: n in files && Captured(e[n]).digest != Some(files[n]) then Err(LocalChanges)
      else Ok(Snapshot(id, tree.mode, tree.owner, tree.group, map n | n in e :: Captured(e[n])))
  }

  /**
   The ownership promise, read off the marker alone: exactly the files it lists, with
   exactly those contents, in exactly the folders they need, and nothing else.
   */
  ghost predicate Owned(tree: Tree, marker: Marker) {
    var e := tree.entries;
    && tree.isDirectory
    && marker.version == 1
    && MARKER in e && e[MARKER].Regular? && e[MARKER].content == MarkerText(marker)
    && (forall n :: n in marker.files ==> Canonical(n) && n != MARKER)
    && (forall n :: n in e ==>
          || n == MARKER
          || (e[n].Regular? && n in marker.files && marker.files[n] == Sha256(e[n].content))
          || (e[n].Folder? && exists f :: f in marker.files && Under(f, n)))
    && (forall f :: f in marker.files ==> f in e && e[f].Regular?)
    && (forall f, a :: f in marker.files && Under(f, a) ==> a in e && e[a].Folder?)
  }

  /** `snapshot` accepts exactly the owned trees. */
  lemma AcceptedIffOwned(id: Id, tree: Tree)
    ensures Judge(id, tree).Ok? <==> exists m :: Owned(tree, m)
  {
    hide Canonical, Ancestors, Under, Above;
    var e := tree.entries;
    if Judge(id, tree).Ok? {
      var m := e[MARKER].content.marker;
      assert Files(e) == m.files.Keys + {MARKER} && Folders(e) == Above(m.files.Keys);
      AboveIsOver(m.files.Keys);
      forall n | n in e && n != MARKER
        ensures (e[n].Regular? && n in m.files && m.files[n] == Sha256(e[n].content))
             || (e[n].Folder? && exists f :: f in m.files && Under(f, n))
      {
        if e[n].Regular? { assert n in Files(e); } else { assert n in Folders(e); }
      }
      assert forall f :: f in m.files ==> f in Files(e);
      forall f, a | f in m.files && Under(f, a) ensures a in e && e[a].Folder? {
        assert a in Above(m.files.Keys);
      }
      assert Owned(tree, m);
    }
    forall m | Owned(tree, m) ensures Judge(id, tree).Ok? {
      AboveIsOver(m.files.Keys);
      assert Files(e) == m.files.Keys + {MARKER};
      assert Folders(e) == Above(m.files.Keys);
    }
  }

  lemma AboveIsOver(names: set<string>)
    requires forall n :: n in names ==> Canonical(n)
    ensures forall a :: a in Above(names) <==> exists n :: n in names && Under(n, a)
  {
    hide Canonical, Ancestors, Under;
    forall n | n in names ensures forall a :: a in Ancestors(n) <==> Under(n, a) {
      CanonicalIsNamed(n);
      AncestorsAreAbove(n);
    }
  }

  /** What is captured: the identity and metadata of the tree, and of each entry its own, with a file's hash. */
  lemma SnapshotDescribes(id: Id, tree: Tree)
    requires Judge(id, tree).Ok?
    ensures var snap := Judge(id, tree).value;
      && snap.identity == id && snap.mode == tree.mode && snap.owner == tree.owner && snap.group == tree.group
      && snap.entries.Keys == tree.entries.Keys
      && forall n :: n in tree.entries ==>
           && snap.entries[n].stat == tree.entries[n].stat
           && (tree.entries[n].Regular? ==> snap.entries[n].digest == Some(Sha256(tree.entries[n].content)))
           && (tree.entries[n].Folder? ==> snap.entries[n].digest == None)
  {
    hide Canonical, Ancestors;
  }

  /** A snapshot determines the tree it was taken of, byte for byte. */
  lemma SnapshotIsFaithful(id: Id, s: Tree, t: Tree)
    requires Judge(id, s).Ok? && Judge(id, s) == Judge(id, t)
    ensures s == t
  {
    var a := Judge(id, s).value.entries;
    assert s.entries.Keys == a.Keys && t.entries.Keys == a.Keys;
    forall n | n in s.entries ensures s.entries[n] == t.entries[n] {
      assert a[n] == Captured(s.entries[n]) && a[n] == Captured(t.entries[n]);
    }
    assert s.entries == t.entries;
  }

  /** A file that is being written while the walk reads it. */
  predicate Moves(entries: map<string, Node>, moving: set<string>) {
    exists n :: n in entries && n in moving && entries[n].Regular?
  }

  /** `snapshot`: walk the tree, then check it against its marker; `moving` are the names somebody is writing to. */
  method TakeSnapshot(id: Id, tree: Tree, moving: set<string>) returns (r: Result<Snapshot, Refusal>)
    ensures !Moves(tree.entries, moving) ==> r == Judge(id, tree)
    ensures tree.isDirectory && Moves(tree.entries, moving) ==> r in {Err(ChangedMeanwhile), Err(LinkOrSpecial)}
    ensures r == Err(LinkOrSpecial) ==> exists n :: n in tree.entries && tree.entries[n].Other?
    ensures !tree.isDirectory ==> r == Err(NotADirectory)
  {
    hide Canonical, Ancestors;
    if !tree.isDirectory { return Err(NotADirectory); }
    var e := tree.entries;
    var entries: map<string, Entry> := map[];
    var rest := e.Keys;
    while rest != {}
      invariant rest <= e.Keys
      invariant entries == map n | n in e.Keys - rest :: Captured(e[n])
      invariant forall n :: n in e.Keys - rest ==> !e[n].Other? && (e[n].Regular? ==> n !in moving)
    {
      var name :| name in rest;
      if e[name].Regular? && name in moving { return Err(ChangedMeanwhile); }
      if e[name].Other? { return Err(LinkOrSpecial); }
      entries := entries[name := Captured(e[name])];
      rest := rest - {name};
    }
    assert entries == map n | n in e :: Captured(e[n]);
    if MARKER !in entries || entries[MARKER].digest.None? { return Err(Unmanaged); }
    if e[MARKER].content.Plain? || e[MARKER].content.marker.version != 1 { return Err(UnsupportedMarker); }
    var files := e[MARKER].content.marker.files;
    var expected: set<string> := {};
    var names := files.Keys;
    while names != {}
      invariant names <= files.Keys
      invariant expected == Above(files.Keys - names)
      invariant forall n :: n in files.Keys - names ==> Canonical(n) && n != MARKER
    {
      var name :| name in names;
      if !Canonical(name) || name == MARKER { return Err(UnsafeName); }
      expected := expected + Ancestors(name);
      assert files.Keys - (names - {name}) == (files.Keys - names) + {name};
      names := names - {name};
    }
    assert files.Keys - names == files.Keys;
    var actualFiles := set n | n in entries && entries[n].digest.Some?;
    assert actualFiles == Files(e);
    var actualFolders := entries.Keys - actualFiles;
    assert actualFolders == Folders(e);
    if actualFiles != files.Keys + {MARKER} || actualFolders != expected { return Err(UnexpectedEntries); }
    if exists n :: n in files && entries[n].digest != Some(files[n]) { return Err(LocalChanges); }
    r := Ok(Snapshot(id, tree.mode, tree.owner, tree.group, entries));
  }

  /** The marker `install_locked` writes for what it staged. */
  function MarkerFor(entries: map<string, Node>): Marker {
    Marker(1, map n | n in entries && entries[n].Regular? :: Sha256(entries[n].content))
  }

  function Marked(tree: Tree, stat: Stat): Tree {
    tree.(entries := tree.entries[MARKER := Regular(stat, MarkerText(MarkerFor(tree.entries)))])
  }

  /** Every folder has something below it. */
  ghost predicate NoEmptyFolder(entries: map<string, Node>) {
    forall d :: d in entries && entries[d].Folder? ==> exists n :: n in entries && Under(n, d)
  }

  /** Below every folder of a tree without links or empty folders there is a file. */
  lemma {:induction false} FileBelow(entries: map<string, Node>, d: string, seen: set<string>) returns (f: string)
    requires NoEmptyFolder(entries)
    requires forall n :: n in entries ==> !entries[n].Other?
    requires d in entries && entries[d].Folder?
    requires forall n :: n in seen ==> n in entries && |n| < |d|
    ensures f in entries && entries[f].Regular? && Under(f, d)
    decreases entries.Keys - seen
  {
    f :| f in entries && Under(f, d);
    if entries[f].Folder? {
      var n := f;
      f := FileBelow(entries, n, seen + {d});
      UnderIsTransitive(f, n, d);
    }
  }

  /** The names the marker lists cover the folders exactly when no folder is empty. */
  lemma FoldersCovered(entries: map<string, Node>)
    requires Walkable(entries)
    requires forall n :: n in entries ==> !entries[n].Other?
    ensures NoEmptyFolder(entries) <==> Folders(entries) == Above(Files(entries))
  {
    hide Canonical, Ancestors, Parts, Under, Above;
    AboveIsOver(Files(entries));
    if NoEmptyFolder(entries) {
      forall d | d in Folders(entries) ensures d in Above(Files(entries)) {
        var f := FileBelow(entries, d, {});
        assert f in Files(entries);
      }
      forall d | d in Above(Files(entries)) ensures d in Folders(entries) {
        var f :| f in Files(entries) && Under(f, d);
      }
    }
    if Folders(entries) == Above(Files(entries)) {
      forall d | d in entries && entries[d].Folder? ensures exists n :: n in entries && Under(n, d) {
        assert d in Folders(entries);
        var f :| f in Files(entries) && Under(f, d);
      }
    }
  }

  lemma MarkedEntries(tree: Tree, stat: Stat)
    requires MARKER !in tree.entries
    ensures var e := tree.entries; var e' := Marked(tree, stat).entries; var m := MarkerFor(e);
            && m.files.Keys == Files(e)
            && Files(e') == Files(e) + {MARKER}
            && Folders(e') == Folders(e)
            && e'[MARKER] == Regular(stat, MarkerText(m))
            && forall n :: n in m.files ==> Captured(e'[n]).digest == Some(m.files[n])
  {
  }

  lemma OldMarkerRefused(id: Id, tree: Tree, stat: Stat)
    requires MARKER in tree.entries && tree.entries[MARKER].Regular?
    ensures Judge(id, Marked(tree, stat)).Err?
  {
    hide Canonical, Ancestors, Above;
    var m := MarkerFor(tree.entries);
    assert MARKER in m.files;
    assert Marked(tree, stat).entries[MARKER].content.marker.files == m.files;
  }

  lemma LinkRefused(id: Id, tree: Tree, stat: Stat, n: string)
    requires MARKER !in tree.entries && n in tree.entries && tree.entries[n].Other?
    ensures Judge(id, Marked(tree, stat)).Err?
  {
    StillThere(tree, stat, n);
    hide Canonical, Ancestors, Above, Marked, MarkerFor;
  }

  lemma MarkedAcceptedIff(id: Id, tree: Tree, stat: Stat)
    requires tree.isDirectory && Walkable(tree.entries) && MARKER !in tree.entries
    requires forall n :: n in tree.entries ==> !tree.entries[n].Other?
    ensures Judge(id, Marked(tree, stat)).Ok? <==> NoEmptyFolder(tree.entries)
  {
    MarkedEntries(tree, stat);
    FoldersCovered(tree.entries);
    StagedFiles(tree, stat);
    hide Canonical, Ancestors, NoEmptyFolder, Above, Walkable, MarkerFor, Marked, Files, Folders, Captured;
  }

  /**
   The writer and the validator of the marker agree: a staged tree is accepted exactly
   when it has no link or special file, no empty folder and no marker of its own.
   */
  lemma StagedAcceptedIff(id: Id, tree: Tree, stat: Stat)
    requires tree.isDirectory && Walkable(tree.entries)
    requires MARKER in tree.entries ==> tree.entries[MARKER].Regular?
    ensures Judge(id, Marked(tree, stat)).Ok? <==>
            && (forall n :: n in tree.entries ==> !tree.entries[n].Other?)
            && NoEmptyFolder(tree.entries)
            && MARKER !in tree.entries
  {
    hide Judge, Marked, Walkable, NoEmptyFolder;
    var e := tree.entries;
    if MARKER in e {
      OldMarkerRefused(id, tree, stat);
    } else if exists n :: n in e && e[n].Other? {
      var n :| n in e && e[n].Other?;
      LinkRefused(id, tree, stat, n);
    } else {
      MarkedAcceptedIff(id, tree, stat);
    }
  }

  lemma StillThere(tree: Tree, stat: Stat, n: string)
    requires MARKER !in tree.entries && n in tree.entries
    ensures n in Marked(tree, stat).entries && Marked(tree, stat).entries[n] == tree.entries[n]
  {
  }

  lemma StagedFiles(tree: Tree, stat: Stat)
    requires MARKER !in tree.entries && Walkable(tree.entries)
    requires forall n :: n in tree.entries ==> !tree.entries[n].Other?
    ensures forall n :: n in Marked(tree, stat).entries ==> !Marked(tree, stat).entries[n].Other?
    ensures forall n :: n in MarkerFor(tree.entries).files ==> Canonical(n) && n != MARKER
    ensures Marked(tree, stat).isDirectory == tree.isDirectory
    ensures MarkerFor(tree.entries).version == 1
  {
    hide Canonical, Ancestors;
  }
}
