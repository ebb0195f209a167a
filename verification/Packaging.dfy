/** What `install_locked` copies into a new generation, and which sources it can install. */
module Packaging {
  import opened Wrappers
  import opened Paths
  import opened Ownership

  datatype Item = FileItem(content: Content) | FolderItem | LinkItem

  datatype Binaries = Binaries(collector: Content, desktop: Content, runner: Content)

  /** plugins/omabit, and the three built programs if they are there. */
  datatype Package = Package(plugin: map<string, Item>, built: Option<Binaries>)

  const BIN := "bin"

  function Program(name: string): string {
    BIN + "/" + name
  }

  function Programs(b: Binaries): map<string, Item> {
    map[BIN := FolderItem,
        Program("urbit-collector") := FileItem(b.collector),
        Program("omabit") := FileItem(b.desktop),
        Program("urbit-runner") := FileItem(b.runner)]
  }

  function Layout(p: Package): map<string, Item>
    requires p.built.Some?
  {
    p.plugin + Programs(p.built.value)
  }

  function NodeFor(item: Item, stat: Stat): Node {
    match item
    case FileItem(content) => Regular(stat, content)
    case FolderItem => Folder(stat)
    case LinkItem => Other(stat)
  }

  /** A copy of the items; inodes, modes and times are whatever the file system gave. */
  function Copied(items: map<string, Item>, stats: map<string, Stat>): map<string, Node> {
    map n | n in items :: NodeFor(items[n], if n in stats then stats[n] else Stat(0, 0, 0, 0, 0))
  }

  ghost predicate IsCopy(node: Node, item: Item) {
    match item
    case FileItem(content) => node.Regular? && node.content == content
    case FolderItem => node.Folder?
    case LinkItem => node.Other?
  }

  ghost predicate HasFile(tree: Tree, name: string, content: Content) {
    name in tree.entries && tree.entries[name].Regular? && tree.entries[name].content == content
  }

  /** What the installer adds to the plugin's own entries. */
  const ADDED: set<string> := {"bin", "bin/urbit-collector", "bin/omabit", "bin/urbit-runner", ".omabit-install.json"}

  /** Each program under its own name in bin/, the plugin's entries under theirs, a marker, and nothing else. */
  ghost predicate Carries(tree: Tree, p: Package) {
    && p.built.Some?
    && HasFile(tree, "bin/urbit-collector", p.built.value.collector)
    && HasFile(tree, "bin/omabit", p.built.value.desktop)
    && HasFile(tree, "bin/urbit-runner", p.built.value.runner)
    && "bin" in tree.entries && tree.entries["bin"].Folder?
    && ".omabit-install.json" in tree.entries && tree.entries[".omabit-install.json"].Regular?
    && tree.entries.Keys == p.plugin.Keys + ADDED
    && forall n :: n in p.plugin && n !in ADDED ==> IsCopy(tree.entries[n], p.plugin[n])
  }

  ghost predicate WalkableItems(items: map<string, Item>) {
    forall n :: n in items ==>
      && Parts(n) != [] && Canonical(n)
      && forall a :: Under(n, a) ==> a in items && items[a].FolderItem?
  }

  /** Sources that can be installed at all. */
  ghost predicate Stageable(p: Package) {
    && p.built.Some?
    && BIN !in p.plugin && MARKER !in p.plugin
    && WalkableItems(p.plugin)
    && (forall n :: n in p.plugin ==> !p.plugin[n].LinkItem?)
    && (forall d :: d in p.plugin && p.plugin[d].FolderItem? ==> exists n :: n in p.plugin && Under(n, d))
  }

  lemma ProgramPath(name: string)
    requires Component(name) && name != ".."
    ensures Canonical(Program(name)) && Parts(Program(name)) == [BIN, name]
    ensures forall a :: Under(Program(name), a) <==> a == BIN
  {
    var path := [BIN, name];
    assert Component(BIN);
    PartsOfText(path);
    assert Text(path) == Program(name) by {
      assert Join(path[1..], '/') == name;
      assert Join(path, '/') == BIN + ['/'] + name;
    }
    assert path[..1] == [BIN];
    assert Text([BIN]) == BIN;
    AncestorsAreAbove(Program(name));
  }

  lemma FolderPath()
    ensures Canonical(BIN) && Parts(BIN) == [BIN]
    ensures forall a :: !Under(BIN, a)
  {
    PartsOfText([BIN]);
    assert Text([BIN]) == BIN;
    AncestorsAreAbove(BIN);
  }

  lemma ProgramsWalk(b: Binaries)
    ensures WalkableItems(Programs(b))
    ensures Under(Program("omabit"), BIN)
    ensures forall n :: n in Programs(b) ==>
      && (n == BIN || (Under(n, BIN) && Programs(b)[n].FileItem?))
      && !Programs(b)[n].LinkItem?
  {
    hide Canonical, Under, Parts, Program;
    FolderPath();
    ProgramPath("urbit-collector");
    ProgramPath("omabit");
    ProgramPath("urbit-runner");
  }

  /** A copy of installable sources is accepted, whatever metadata the copy got. */
  lemma StageableIsAccepted(p: Package, id: Id, tree: Tree, stats: map<string, Stat>, stat: Stat)
    requires Stageable(p) && tree.isDirectory && tree.entries == Copied(Layout(p), stats)
    ensures Judge(id, Marked(tree, stat)).Ok?
  {
    hide Canonical, Under, Parts, Judge, Marked, Stageable, Layout;
    var e := tree.entries;
    forall n | n in e ensures !e[n].Other? && Parts(n) != [] && Canonical(n)
      && forall a :: Under(n, a) ==> a in e && e[a].Folder?
    {
      Stands(p, n);
    }
    forall d | d in e && e[d].Folder? ensures exists n :: n in e && Under(n, d) {
      Filled(p, d);
    }
    assert NoEmptyFolder(e);
    NoMarker(p);
    StagedAcceptedIff(id, tree, stat);
  }

  lemma NoMarker(p: Package)
    requires Stageable(p)
    ensures MARKER !in Layout(p)
  {
  }

  lemma Stands(p: Package, n: string)
    requires Stageable(p) && n in Layout(p)
    ensures !Layout(p)[n].LinkItem? && Parts(n) != [] && Canonical(n)
    ensures forall a :: Under(n, a) ==> a in Layout(p) && Layout(p)[a].FolderItem?
  {
    hide Canonical, Under, Parts, Programs;
    var b := p.built.value;
    ProgramsWalk(b);
    if n !in Programs(b) {
      forall a | Under(n, a) ensures a in Layout(p) && Layout(p)[a].FolderItem? {
        NotAProgram(p, a);
      }
    }
  }

  lemma Filled(p: Package, d: string)
    requires Stageable(p) && d in Layout(p) && Layout(p)[d].FolderItem?
    ensures exists n :: n in Layout(p) && Under(n, d)
  {
    hide Canonical, Under, Parts, Program;
    var b := p.built.value;
    ProgramsWalk(b);
    if d in Programs(b) {
      assert Program("omabit") in Layout(p);
    } else {
      var n :| n in p.plugin && Under(n, d);
      assert n in Layout(p);
    }
  }

  /** The plugin has nothing under bin/, so none of its entries is one of the programs. */
  lemma NotAProgram(p: Package, a: string)
    requires Stageable(p) && a in p.plugin
    ensures a !in Programs(p.built.value)
  {
    hide Canonical, Under, Parts, Program, Programs;
    ProgramsWalk(p.built.value);
  }

  // The copy, step by step

  lemma CopiedWhole(p: Package, stats: map<string, Stat>)
    requires p.built.Some?
    ensures Copied(p.plugin, stats) + Copied(Programs(p.built.value), stats) == Copied(Layout(p), stats)
  {
    hide Programs;
  }

  lemma NoBin(p: Package, stats: map<string, Stat>)
    ensures BIN in Copied(p.plugin, stats) ==> !Stageable(p)
  {
  }

  lemma NoLinks(p: Package, stats: map<string, Stat>)
    requires p.built.Some?
    ensures Stageable(p) ==> forall n :: n in Copied(Layout(p), stats) ==> !Copied(Layout(p), stats)[n].Other?
  {
    hide Canonical, Under, Parts, Stageable, Layout;
    forall n | Stageable(p) && n in Copied(Layout(p), stats) ensures !Copied(Layout(p), stats)[n].Other? {
      Stands(p, n);
    }
  }

  lemma NoMarkerCopied(p: Package, stats: map<string, Stat>)
    requires p.built.Some?
    ensures Stageable(p) ==> MARKER !in Copied(Layout(p), stats)
  {
    hide Layout;
    if Stageable(p) { NoMarker(p); }
  }

  lemma MarkedCarries(p: Package, tree: Tree, stats: map<string, Stat>, stat: Stat)
    requires p.built.Some? && tree.entries == Copied(Layout(p), stats)
    ensures Carries(Marked(tree, stat), p)
  {
    hide MarkerFor;
    ProgramNames();
  }

  lemma ProgramNames()
    ensures Program("urbit-collector") == "bin/urbit-collector"
    ensures Program("omabit") == "bin/omabit"
    ensures Program("urbit-runner") == "bin/urbit-runner"
  {
  }
}
