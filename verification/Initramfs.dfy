/** The order and the inode numbers `prepare` of scripts/qualify-powercut.py gives the members of an initramfs. */
module Initramfs {
  import opened Cpio
  import Paths
  import Versions

  datatype Item = Item(name: string, data: Bytes, mode: nat)

  const DIRECTORY_MODE := 0x41ed  // 0o40755
  const BASE: set<string> := {"proc", "sys", "dev", "tmp", "source", "destination"}
  const TRAILER := Item("TRAILER!!!", [], 0)

  // Orders

  function Slashes(s: string): nat {
    if s == [] then 0 else (if s[0] == '/' then 1 else 0) + Slashes(s[1..])
  }

  /** By name; or by depth and then by name. */
  predicate Before(byDepth: bool, a: string, b: string) {
    if byDepth && Slashes(a) != Slashes(b) then Slashes(a) < Slashes(b) else Versions.TextBelow(a, b)
  }

  lemma {:induction false} TextOrder(a: string, b: string, c: string)
    ensures a == b || Versions.TextBelow(a, b) || Versions.TextBelow(b, a)
    ensures Versions.TextBelow(a, b) && Versions.TextBelow(b, c) ==> Versions.TextBelow(a, c)
    ensures !Versions.TextBelow(a, a)
  {
    Versions.NotBelowItself(a);
    if a != [] && b != [] {
      if a[0] == b[0] { assert a == [a[0]] + a[1..] && b == [b[0]] + b[1..]; }
      TextOrder(a[1..], b[1..], if c == [] then [] else c[1..]);
    }
  }

  lemma BeforeIsAnOrder(byDepth: bool, a: string, b: string, c: string)
    ensures a == b || Before(byDepth, a, b) || Before(byDepth, b, a)
    ensures Before(byDepth, a, b) && Before(byDepth, b, c) ==> Before(byDepth, a, c)
    ensures !Before(byDepth, a, a)
  {
    TextOrder(a, b, c);
  }

  /** The names, each once, in order. */
  ghost predicate Sorted(byDepth: bool, s: seq<string>, names: set<string>) {
    && (forall n :: n in s <==> n in names)
    && forall i, j :: 0 <= i < j < |s| ==> Before(byDepth, s[i], s[j])
  }

  /** sorted() */
  method Sort(byDepth: bool, names: set<string>) returns (s: seq<string>)
    ensures Sorted(byDepth, s, names)
  {
    hide Before;
    s := [];
    var rest := names;
    while rest != {}
      invariant rest <= names && Sorted(byDepth, s, names - rest)
    {
      var n :| n in rest;
      s := Insert(byDepth, s, names - rest, n);
      assert names - (rest - {n}) == (names - rest) + {n};
      rest := rest - {n};
    }
    assert names - rest == names;
  }

  method Insert(byDepth: bool, s: seq<string>, names: set<string>, n: string) returns (t: seq<string>)
    requires Sorted(byDepth, s, names) && n !in names
    ensures Sorted(byDepth, t, names + {n})
  {
    hide Before;
    var i := 0;
    while i < |s| && Before(byDepth, s[i], n)
      invariant 0 <= i <= |s|
      invariant forall j :: 0 <= j < i ==> Before(byDepth, s[j], n)
    {
      i := i + 1;
    }
    forall j | i <= j < |s| ensures Before(byDepth, n, s[j]) {
      assert s[i] in s && s[j] in s;
      BeforeIsAnOrder(byDepth, n, s[i], s[j]);
    }
    t := s[..i] + [n] + s[i..];
    InsertedInOrder(byDepth, s, names, n, i);
  }

  lemma InsertedInOrder(byDepth: bool, s: seq<string>, names: set<string>, n: string, i: nat)
    requires Sorted(byDepth, s, names) && i <= |s|
    requires forall j :: 0 <= j < i ==> Before(byDepth, s[j], n)
    requires forall j :: i <= j < |s| ==> Before(byDepth, n, s[j])
    ensures Sorted(byDepth, s[..i] + [n] + s[i..], names + {n})
  {
    hide Before;
    var t := s[..i] + [n] + s[i..];
    forall j, k | 0 <= j < k < |t| ensures Before(byDepth, t[j], t[k]) {
      assert t[j] == if j < i then s[j] else if j == i then n else s[j - 1];
      assert t[k] == if k < i then s[k] else if k == i then n else s[k - 1];
    }
    forall m ensures m in t <==> m in names + {n} {
      assert s == s[..i] + s[i..];
      assert m in t <==> m in s[..i] || m == n || m in s[i..];
    }
  }

  // The members

  function Directories(entries: seq<Item>): set<string> {
    if entries == [] then BASE else Directories(entries[..|entries| - 1]) + Paths.Ancestors(entries[|entries| - 1].name)
  }

  function AsDirectories(names: seq<string>): (items: seq<Item>)
    ensures |items| == |names|
    ensures forall i :: 0 <= i < |names| ==> items[i] == Item(names[i], [], DIRECTORY_MODE)
  {
    if names == [] then [] else AsDirectories(names[..|names| - 1]) + [Item(names[|names| - 1], [], DIRECTORY_MODE)]
  }

  /** str.encode */
  type Encoding = string -> Bytes

  function Numbered(item: Item, inode: nat, encode: Encoding): Entry {
    Entry(encode(item.name), item.data, item.mode, inode)
  }

  /** Member i has inode number first + i. */
  function NumberedFrom(items: seq<Item>, first: nat, encode: Encoding): (entries: seq<Entry>)
    ensures |entries| == |items|
    ensures forall i :: 0 <= i < |items| ==> entries[i] == Numbered(items[i], first + i, encode)
  {
    if items == [] then []
    else NumberedFrom(items[..|items| - 1], first, encode) + [Numbered(items[|items| - 1], first + |items| - 1, encode)]
  }

  ghost predicate DistinctNames(entries: seq<Item>) {
    forall i, j :: 0 <= i < j < |entries| ==> entries[i].name != entries[j].name
  }

  /** The directories by depth, then the entries by name, then the trailer. */
  ghost predicate Arranged(items: seq<Item>, entries: seq<Item>) {
    exists ds: seq<string>, fs: seq<Item> ::
      && items == AsDirectories(ds) + fs + [TRAILER]
      && Sorted(true, ds, Directories(entries))
      && FilesSorted(fs, entries)
  }

  ghost predicate FilesSorted(fs: seq<Item>, entries: seq<Item>) {
    && (forall m :: m in fs <==> m in entries)
    && forall i, j :: 0 <= i < j < |fs| ==> Before(false, fs[i].name, fs[j].name)
  }

  /** The fixed directories, and whatever stands in front of a slash of some entry's name. */
  ghost predicate Wanted(d: string, entries: seq<Item>) {
    d in {"proc", "sys", "dev", "tmp", "source", "destination"} || exists m :: m in entries && Paths.Under(m.name, d)
  }

  lemma {:induction false} DirectoriesAreWanted(entries: seq<Item>)
    requires forall m :: m in entries ==> Paths.Named(m.name)
    ensures forall d :: d in Directories(entries) <==> Wanted(d, entries)
  {
    hide Paths.Ancestors, Paths.Named, Paths.Under;
    if entries != [] {
      var n := |entries| - 1;
      assert entries == entries[..n] + [entries[n]];
      DirectoriesAreWanted(entries[..n]);
      Paths.AncestorsAreAbove(entries[n].name);
      forall d ensures d in Directories(entries) <==> Wanted(d, entries) {
        assert d in Directories(entries) <==> Wanted(d, entries[..n]) || Paths.Under(entries[n].name, d);
      }
    }
  }

  method CollectDirectories(entries: seq<Item>) returns (directories: set<string>)
    ensures directories == Directories(entries)
    ensures (forall m :: m in entries ==> Paths.Named(m.name)) ==> forall d :: d in directories <==> Wanted(d, entries)
  {
    hide Paths.Ancestors, Paths.Named, Wanted;
    if forall m :: m in entries ==> Paths.Named(m.name) { DirectoriesAreWanted(entries); }
    directories := BASE;
    for i := 0 to |entries|
      invariant directories == Directories(entries[..i])
    {
      assert entries[..i + 1][..i] == entries[..i];
      directories := directories + Paths.Ancestors(entries[i].name);
    }
    assert entries[..|entries|] == entries;
  }

  /** sorted(entries.items()) */
  method SortEntries(entries: seq<Item>) returns (fs: seq<Item>)
    requires DistinctNames(entries)
    ensures FilesSorted(fs, entries)
  {
    hide Before;
    var names := set i | 0 <= i < |entries| :: entries[i].name;
    var order := Sort(false, names);
    fs := [];
    for i := 0 to |order|
      invariant |fs| == i
      invariant forall j :: 0 <= j < i ==> fs[j].name == order[j] && fs[j] in entries
    {
      assert order[i] in names;
      var k :| 0 <= k < |entries| && entries[k].name == order[i];
      fs := fs + [entries[k]];
    }
    forall m | m in entries ensures m in fs {
      assert m.name in order;
      var j :| 0 <= j < |order| && order[j] == m.name;
      SameName(entries, fs[j], m);
    }
  }

  lemma SameName(entries: seq<Item>, a: Item, b: Item)
    requires DistinctNames(entries) && a in entries && b in entries && a.name == b.name
    ensures a == b
  {
    var i :| 0 <= i < |entries| && entries[i] == a;
    var j :| 0 <= j < |entries| && entries[j] == b;
    assert i == j;
  }

  /** The loop over the directories, and the loop over the entries: members from..to, one number each. */
  method WriteMembers(out: Stream, items: seq<Item>, from: nat, to: nat, first: nat, encode: Encoding)
    returns (inode: nat)
    requires from <= to <= |items| && first == from + 1
    modifies out
    ensures inode == to + 1
    ensures forall start: Bytes ::
      old(out.written) == start + Archive(NumberedFrom(items[..from], 1, encode)) ==>
        out.written == start + Archive(NumberedFrom(items[..to], 1, encode))
  {
    hide Record, NumberedFrom, Archive;
    inode := first;
    for i := from to to
      invariant inode == i + 1
      invariant forall start: Bytes ::
        old(out.written) == start + Archive(NumberedFrom(items[..from], 1, encode)) ==>
          out.written == start + Archive(NumberedFrom(items[..i], 1, encode))
    {
      forall start: Bytes | out.written == start + Archive(NumberedFrom(items[..i], 1, encode))
        ensures out.written + Record(Numbered(items[i], inode, encode)) ==
          start + Archive(NumberedFrom(items[..i + 1], 1, encode))
      {
        OneMore(items, i, encode, start, out.written);
      }
      WriteEntry(out, Entry(encode(items[i].name), items[i].data, items[i].mode, inode));
      inode := inode + 1;
    }
  }

  /** The writing loops of `prepare`: one counter numbers directories, entries and the trailer. */
  method WriteInitramfs(out: Stream, entries: seq<Item>, encode: Encoding) returns (items: seq<Item>)
    requires DistinctNames(entries)
    modifies out
    ensures Arranged(items, entries)
    ensures items != [] && items[|items| - 1] == Item("TRAILER!!!", [], 0)
    ensures forall m :: m in entries ==> m in items
    ensures out.written == old(out.written) + Archive(NumberedFrom(items, 1, encode))
  {
    hide Sorted, Before, Record, NumberedFrom, Archive, FilesSorted;
    var directories := CollectDirectories(entries);
    var ds := Sort(true, directories);
    var fs := SortEntries(entries);
    items := AsDirectories(ds) + fs + [TRAILER];
    IsArranged(items, ds, fs, entries);
    hide Arranged;
    NothingWritten(items, encode);
    ghost var start := out.written;
    assert start == start + [];
    var inode := WriteMembers(out, items, 0, |ds|, 1, encode);
    inode := WriteMembers(out, items, |ds|, |ds| + |fs|, inode, encode);
    var n := |ds| + |fs|;
    assert items[n] == TRAILER && items[..n + 1] == items;
    assert out.written == start + Archive(NumberedFrom(items[..n], 1, encode));
    OneMore(items, n, encode, start, out.written);
    WriteEntry(out, Entry(encode("TRAILER!!!"), [], 0, inode));
  }

  /** Read back: member i has number i + 1, and the name, mode and contents it was given. */
  lemma InitramfsReads(items: seq<Item>, encode: Encoding)
    requires forall i :: 0 <= i < |items| ==> Fits(Entry(encode(items[i].name), items[i].data, items[i].mode, i + 1))
    ensures var read := Read(Archive(NumberedFrom(items, 1, encode)));
      && read.Some? && |read.value| == |items|
      && forall i :: 0 <= i < |items| ==>
           && read.value[i].header.ino == i + 1 && read.value[i].header.mode == items[i].mode
           && read.value[i].name == encode(items[i].name) && read.value[i].data == items[i].data
  {
    hide Read, Archive, Fits, NumberedFrom;
    RoundTripIff(NumberedFrom(items, 1, encode));
  }

  lemma IsArranged(items: seq<Item>, ds: seq<string>, fs: seq<Item>, entries: seq<Item>)
    requires items == AsDirectories(ds) + fs + [TRAILER]
    requires Sorted(true, ds, Directories(entries)) && FilesSorted(fs, entries)
    ensures Arranged(items, entries)
    ensures forall m :: m in entries ==> m in items
  {
    hide Sorted, Before, Directories;
  }

  lemma NothingWritten(items: seq<Item>, encode: Encoding)
    ensures Archive(NumberedFrom(items[..0], 1, encode)) == []
  {
  }

  lemma OneMore(items: seq<Item>, i: nat, encode: Encoding, start: Bytes, written: Bytes)
    requires i < |items| && written == start + Archive(NumberedFrom(items[..i], 1, encode))
    ensures written + Record(Numbered(items[i], 1 + i, encode)) ==
      start + Archive(NumberedFrom(items[..i + 1], 1, encode))
  {
    hide Record;
    assert items[..i + 1][..i] == items[..i];
    ArchiveAppends(NumberedFrom(items[..i], 1, encode), Numbered(items[i], 1 + i, encode));
  }

  lemma {:induction false} ArchiveAppends(entries: seq<Entry>, e: Entry)
    ensures Archive(entries + [e]) == Archive(entries) + Record(e)
  {
    hide Record;
    if entries != [] {
      ArchiveAppends(entries[1..], e);
      assert (entries + [e])[1..] == entries[1..] + [e];
    } else {
      assert [e][1..] == [];
    }
  }

  // Text facts

  lemma {:induction false} SlashesAdd(a: string, b: string)
    ensures Slashes(a + b) == Slashes(a) + Slashes(b)
  {
    if a == [] {
      assert a + b == b;
    } else {
      SlashesAdd(a[1..], b);
      assert (a + b)[1..] == a[1..] + b;
    }
  }

  lemma {:induction false} NoSlashes(a: string)
    requires '/' !in a
    ensures Slashes(a) == 0
  {
    if a != [] { NoSlashes(a[1..]); }
  }

  lemma {:induction false} SlashesOfJoin(path: Paths.Path)
    requires path != [] && Paths.Components(path)
    ensures Slashes(Paths.Join(path, '/')) == |path| - 1
  {
    assert Paths.Component(path[0]);
    NoSlashes(path[0]);
    if |path| > 1 {
      SlashesOfJoin(path[1..]);
      SlashesAdd(path[0] + ['/'], Paths.Join(path[1..], '/'));
      SlashesAdd(path[0], ['/']);
    }
  }

  lemma AncestorIsShallower(name: string, d: string, a: string)
    requires d in Paths.Ancestors(name) && a in Paths.Ancestors(d)
    ensures Slashes(a) < Slashes(d) && a in Paths.Ancestors(name)
  {
    hide Paths.Join, Paths.Parts, Slashes;
    Paths.PartsAreComponents(name);
    var k :| 0 < k < |Paths.Parts(name)| && d == Paths.Text(Paths.Parts(name)[..k]);
    Paths.AncestorParts(name, k);
    var m :| 0 < m < |Paths.Parts(d)| && a == Paths.Text(Paths.Parts(d)[..m]);
    SlashesOfJoin(Paths.Parts(name)[..k]);
    SlashesOfJoin(Paths.Parts(d)[..m]);
    Paths.AncestorsNest(name, d, a);
  }

  lemma TopLevel(name: string)
    requires '/' !in name
    ensures Paths.Ancestors(name) == {}
  {
    Paths.FindAt(name, '/', "");
    assert Paths.Split(name, '/') == [name];
    assert |Paths.Significant([name])| <= 1 by { assert Paths.Significant([name][1..]) == []; }
  }

  lemma {:induction false} AscendingDirectories(entries: seq<Item>, d: string)
    requires d in Directories(entries)
    ensures d in BASE || exists m :: m in entries && d in Paths.Ancestors(m.name)
  {
    hide Paths.Ancestors;
    if entries != [] && d !in Paths.Ancestors(entries[|entries| - 1].name) {
      AscendingDirectories(entries[..|entries| - 1], d);
    }
  }

  lemma {:induction false} DirectoriesHave(entries: seq<Item>, m: Item, a: string)
    requires m in entries && a in Paths.Ancestors(m.name)
    ensures a in Directories(entries)
  {
    hide Paths.Ancestors;
    var n := |entries| - 1;
    if m != entries[n] { DirectoriesHave(entries[..n], m, a); }
  }

  lemma DirectoryAt(ds: seq<string>, names: set<string>, a: string) returns (j: nat)
    requires Sorted(true, ds, names) && a in names
    ensures j < |ds| && ds[j] == a
  {
    hide Before;
    j :| 0 <= j < |ds| && ds[j] == a;
  }

  /** Among the directories, a shallower one comes first. */
  lemma ShallowerFirst(ds: seq<string>, names: set<string>, i: nat, j: nat)
    requires Sorted(true, ds, names) && i < |ds| && j < |ds| && Slashes(ds[j]) < Slashes(ds[i])
    ensures j < i
  {
    hide Slashes, Versions.TextBelow;
    if i < j { Deeper(ds[i], ds[j]); }
  }

  /** Extraction never lacks a directory: every path a member's path begins with comes before it, as a directory. */
  lemma ParentsFirst(items: seq<Item>, entries: seq<Item>, i: nat, path: Paths.Path, k: nat)
    requires Arranged(items, entries) && i < |items|
    requires Paths.Components(path) && items[i].name == Paths.Text(path) && 0 < k < |path|
    ensures exists j :: 0 <= j < i && items[j] == Item(Paths.Text(path[..k]), [], 0x41ed)
  {
    hide Arranged, Paths.Ancestors, Paths.Text;
    Paths.AncestorsOfPath(path);
    AncestorsFirst(items, entries, i, Paths.Text(path[..k]));
  }

  /** However the members are named: their ancestors come first. */
  lemma AncestorsFirst(items: seq<Item>, entries: seq<Item>, i: nat, a: string)
    requires Arranged(items, entries) && i < |items| && a in Paths.Ancestors(items[i].name)
    ensures exists j :: 0 <= j < i && items[j] == Item(a, [], DIRECTORY_MODE)
  {
    hide Paths.Ancestors, Before, Sorted, Slashes;
    var ds: seq<string>, fs: seq<Item> :|
      && items == AsDirectories(ds) + fs + [TRAILER]
      && Sorted(true, ds, Directories(entries))
      && FilesSorted(fs, entries);
    if i < |ds| {
      InOrder(ds, Directories(entries), i);
      AncestorOfDirectory(entries, ds[i], a);
      var j := DirectoryAt(ds, Directories(entries), a);
      ShallowerFirst(ds, Directories(entries), i, j);
      assert items[j] == Item(a, [], DIRECTORY_MODE);
    } else if i < |ds| + |fs| {
      assert items[i] == fs[i - |ds|] && fs[i - |ds|] in entries;
      DirectoriesHave(entries, items[i], a);
      var j := DirectoryAt(ds, Directories(entries), a);
      assert items[j] == Item(a, [], DIRECTORY_MODE);
    } else {
      assert items[i] == TRAILER;
      TopLevel("TRAILER!!!");
    }
  }

  lemma InOrder(ds: seq<string>, names: set<string>, i: nat)
    requires Sorted(true, ds, names) && i < |ds|
    ensures ds[i] in names
  {
    hide Before;
    assert ds[i] in ds;
  }

  lemma AncestorOfDirectory(entries: seq<Item>, d: string, a: string)
    requires d in Directories(entries) && a in Paths.Ancestors(d)
    ensures a in Directories(entries) && Slashes(a) < Slashes(d)
  {
    hide Paths.Ancestors, Slashes;
    AscendingDirectories(entries, d);
    if d in BASE {
      TopLevel(d);
    } else {
      var m :| m in entries && d in Paths.Ancestors(m.name);
      AncestorIsShallower(m.name, d, a);
      DirectoriesHave(entries, m, a);
    }
  }

  lemma Deeper(d: string, a: string)
    requires Before(true, d, a)
    ensures Slashes(d) <= Slashes(a)
  {
  }
}
