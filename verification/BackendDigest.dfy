/**
 The identity of the backend sources, computed twice: by walking an exported tree
 (`backend_digest` of scripts/release_policy.py, on what `export_source` of
 scripts/package-release.py wrote) and by filtering a commit's entries
 (`frozen_backend_digest` of scripts/check-release-policy.py).

 A name is the bytes git stores.  `os.fsdecode` gives every such name a text of its own;
 `bytes.decode` refuses those that are not UTF-8.
 */
module BackendDigest {
  import opened Wrappers
  import Paths
  import Promotion
  import Versions

  type Byte = b: int | 0 <= b < 256

  type Bytes = seq<Byte>

  /** One line of `git ls-tree -r`, with the object's contents. */
  datatype Entry = Entry(mode: string, kind: string, name: Bytes, data: Bytes)

  /** A file of an exported tree, or a link and whether it leads to a file. */
  datatype Node = File(data: Bytes, mode: nat) | Symlink(toFile: bool)

  type Tree = map<Bytes, Node>

  /** SHA-256, taken to be collision free. */
  datatype Item = Item(sha256: Bytes, executable: bool)

  type Inventory = map<Bytes, Item>

  /** SHA-256 of the inventory's canonical JSON: sorted keys, so the order of discovery does not show. */
  datatype Digest = Sha256(of: Inventory)

  datatype Error = UnsupportedInput | UndecodableName | UnsupportedBackend | BackendSymlink

  // Names

  predicate IsAscii(s: string) {
    forall i :: 0 <= i < |s| ==> s[i] as int < 128
  }

  function Ascii(s: string): (b: Bytes)
    requires IsAscii(s)
    ensures |b| == |s| && forall i :: 0 <= i < |s| ==> b[i] == s[i] as int
  {
    seq(|s|, i requires 0 <= i < |s| => s[i] as int)
  }

  predicate Continues(b: Byte) {
    0x80 <= b < 0xC0
  }

  /** What `bytes.decode` accepts: section 4 of RFC 3629. */
  predicate Utf8(s: Bytes) {
    if s == [] then true
    else if s[0] < 0x80 then Utf8(s[1..])
    else if 0xC2 <= s[0] <= 0xDF then
      |s| >= 2 && Continues(s[1]) && Utf8(s[2..])
    else if 0xE0 <= s[0] <= 0xEF then
      && |s| >= 3 && Continues(s[1]) && Continues(s[2])
      && (s[0] == 0xE0 ==> s[1] >= 0xA0) && (s[0] == 0xED ==> s[1] < 0xA0)
      && Utf8(s[3..])
    else if 0xF0 <= s[0] <= 0xF4 then
      && |s| >= 4 && Continues(s[1]) && Continues(s[2]) && Continues(s[3])
      && (s[0] == 0xF0 ==> s[1] >= 0x90) && (s[0] == 0xF4 ==> s[1] < 0x90)
      && Utf8(s[4..])
    else false
  }

  // Section 3 of RFC 3629, the other way round: the octets of a character

  /** A Unicode character number: surrogates are none. */
  type Scalar = c: int | 0 <= c < 0xD800 || 0xE000 <= c < 0x11_0000

  function Encode(c: Scalar): (s: Bytes)
    ensures s != []
  {
    if c < 0x80 then [c]
    else if c < 0x800 then [0xC0 + c / 0x40, 0x80 + c % 0x40]
    else if c < 0x1_0000 then [0xE0 + c / 0x1000, 0x80 + (c / 0x40) % 0x40, 0x80 + c % 0x40]
    else [0xF0 + c / 0x4_0000, 0x80 + (c / 0x1000) % 0x40, 0x80 + (c / 0x40) % 0x40, 0x80 + c % 0x40]
  }

  function EncodeAll(text: seq<Scalar>): Bytes {
    if text == [] then [] else Encode(text[0]) + EncodeAll(text[1..])
  }

  lemma TwoOctets(a: Byte, b: Byte, rest: Bytes)
    requires 0xC2 <= a <= 0xDF && Continues(b)
    ensures Utf8([a, b] + rest) <==> Utf8(rest)
  {
    assert ([a, b] + rest)[2..] == rest;
  }

  lemma ThreeOctets(a: Byte, b: Byte, c: Byte, rest: Bytes)
    requires 0xE0 <= a <= 0xEF && Continues(b) && Continues(c)
    requires (a == 0xE0 ==> b >= 0xA0) && (a == 0xED ==> b < 0xA0)
    ensures Utf8([a, b, c] + rest) <==> Utf8(rest)
  {
    assert ([a, b, c] + rest)[3..] == rest;
  }

  lemma FourOctets(a: Byte, b: Byte, c: Byte, d: Byte, rest: Bytes)
    requires 0xF0 <= a <= 0xF4 && Continues(b) && Continues(c) && Continues(d)
    requires (a == 0xF0 ==> b >= 0x90) && (a == 0xF4 ==> b < 0x90)
    ensures Utf8([a, b, c, d] + rest) <==> Utf8(rest)
  {
    assert ([a, b, c, d] + rest)[4..] == rest;
  }

  lemma EncodedDecodes(c: Scalar, rest: Bytes)
    ensures Utf8(Encode(c) + rest) <==> Utf8(rest)
  {
    var s := Encode(c);
    if c < 0x80 {
      assert (s + rest)[1..] == rest;
    } else {
      hide Utf8;
      if c < 0x800 {
        TwoOctets(s[0], s[1], rest);
      } else if c < 0x1_0000 {
        ThreeOctets(s[0], s[1], s[2], rest);
      } else {
        FourOctets(s[0], s[1], s[2], s[3], rest);
      }
    }
  }

  lemma ThreeDigits(h: nat, m: nat, l: nat) returns (c: Scalar)
    requires h < 0x10 && m < 0x40 && l < 0x40 && (h == 0 ==> m >= 0x20) && (h == 0xD ==> m < 0x20)
    ensures 0x800 <= c < 0x1_0000
    ensures c / 0x1000 == h && (c / 0x40) % 0x40 == m && c % 0x40 == l
  {
    c := 0x1000 * h + 0x40 * m + l;
    assert c / 0x40 == 0x40 * h + m;
  }

  lemma FourDigits(t: nat, h: nat, m: nat, l: nat) returns (c: Scalar)
    requires t < 5 && h < 0x40 && m < 0x40 && l < 0x40 && (t == 0 ==> h >= 0x10) && (t == 4 ==> h < 0x10)
    ensures 0x1_0000 <= c
    ensures c / 0x4_0000 == t && (c / 0x1000) % 0x40 == h && (c / 0x40) % 0x40 == m && c % 0x40 == l
  {
    c := 0x4_0000 * t + 0x1000 * h + 0x40 * m + l;
    assert c / 0x1000 == 0x40 * t + h;
    assert c / 0x40 == 0x1000 * t + 0x40 * h + m;
  }

  /** The character the octets begin with. */
  lemma FirstCharacter(s: Bytes) returns (c: Scalar)
    requires Utf8(s) && s != []
    ensures Encode(c) <= s && Utf8(s[|Encode(c)|..])
  {
    if s[0] < 0x80 {
      c := s[0] as int;
    } else if s[0] <= 0xDF {
      c := 0x40 * (s[0] as int - 0xC0) + (s[1] as int - 0x80);
    } else if s[0] <= 0xEF {
      c := ThreeDigits(s[0] as int - 0xE0, s[1] as int - 0x80, s[2] as int - 0x80);
    } else {
      c := FourDigits(s[0] as int - 0xF0, s[1] as int - 0x80, s[2] as int - 0x80, s[3] as int - 0x80);
    }
  }

  /** A name can be decoded exactly if it is the encoding of some text. */
  lemma {:induction false} Utf8Iff(s: Bytes)
    ensures Utf8(s) <==> exists text :: EncodeAll(text) == s
    decreases |s|
  {
    hide Utf8, Encode;
    if Utf8(s) { var text := Decoded(s); }
    forall text | EncodeAll(text) == s ensures Utf8(s) { EncodedIsUtf8(text); }
  }

  lemma {:induction false} Decoded(s: Bytes) returns (text: seq<Scalar>)
    requires Utf8(s)
    ensures EncodeAll(text) == s
    decreases |s|
  {
    if s == [] {
      text := [];
    } else {
      var c := FirstCharacter(s);
      var rest := Decoded(s[|Encode(c)|..]);
      text := [c] + rest;
      assert text[1..] == rest;
    }
  }

  lemma {:induction false} EncodedIsUtf8(text: seq<Scalar>)
    ensures Utf8(EncodeAll(text))
  {
    if text != [] {
      EncodedIsUtf8(text[1..]);
      EncodedDecodes(text[0], EncodeAll(text[1..]));
    }
  }

  const SLASH: Byte := 47
  const HERE: Bytes := [46]
  const ABOVE: Bytes := [46, 46]
  const GIT: Bytes := [46, 103, 105, 116]

  const PREFIXES: seq<Bytes> := [Ascii("backend/"), Ascii("internal/"), Ascii("deploy/")]

  const POLICY: Bytes := Ascii("scripts/release_policy.py")

  const MODULE_FILES: set<Bytes> := {Ascii("go.mod"), Ascii("go.sum")}

  const SCRIPT_FILES: set<Bytes> := {Ascii("scripts/install-services.sh"), Ascii("scripts/package-release.py"), POLICY}

  const BOOTSTRAP_FILES: set<Bytes> := {
    Ascii("native/bootstrap/runtime.py"), Ascii("native/bootstrap/desktop.py"), Ascii("native/bootstrap/control.py")}

  const BACKEND_FILES: set<Bytes> := MODULE_FILES + SCRIPT_FILES + BOOTSTRAP_FILES

  const PLAIN := "100644"
  const EXECUTABLE := "100755"

  /** `backend_path`. */
  predicate BackendPath(name: Bytes) {
    (exists i :: 0 <= i < |PREFIXES| && PREFIXES[i] <= name) || name in BACKEND_FILES
  }

  /** The name begins with the text, character by character. */
  ghost predicate StartsWith(name: Bytes, text: string) {
    |text| <= |name| && forall i :: 0 <= i < |text| ==> name[i] == text[i] as int
  }

  ghost predicate Spells(name: Bytes, text: string) {
    |name| == |text| && StartsWith(name, text)
  }

  lemma SpellsIff(name: Bytes, text: string)
    requires IsAscii(text)
    ensures Ascii(text) <= name <==> StartsWith(name, text)
    ensures name == Ascii(text) <==> Spells(name, text)
  {
  }

  lemma PrefixIff(name: Bytes)
    ensures (exists i :: 0 <= i < |PREFIXES| && PREFIXES[i] <= name) <==>
      StartsWith(name, "backend/") || StartsWith(name, "internal/") || StartsWith(name, "deploy/")
  {
    assert PREFIXES[0] == Ascii("backend/") && PREFIXES[1] == Ascii("internal/") && PREFIXES[2] == Ascii("deploy/");
    SpellsIff(name, "backend/");
    SpellsIff(name, "internal/");
    SpellsIff(name, "deploy/");
    hide Ascii, StartsWith, Spells;
  }

  lemma ModuleFilesIff(name: Bytes)
    ensures name in MODULE_FILES <==> Spells(name, "go.mod") || Spells(name, "go.sum")
  {
    SpellsIff(name, "go.mod");
    SpellsIff(name, "go.sum");
    hide Ascii, StartsWith, Spells;
  }

  lemma ScriptFilesIff(name: Bytes)
    ensures name in SCRIPT_FILES <==>
      || Spells(name, "scripts/install-services.sh") || Spells(name, "scripts/package-release.py")
      || Spells(name, "scripts/release_policy.py")
  {
    SpellsIff(name, "scripts/install-services.sh");
    SpellsIff(name, "scripts/package-release.py");
    SpellsIff(name, "scripts/release_policy.py");
    hide Ascii, StartsWith, Spells;
  }

  lemma BootstrapFilesIff(name: Bytes)
    ensures name in BOOTSTRAP_FILES <==>
      || Spells(name, "native/bootstrap/runtime.py") || Spells(name, "native/bootstrap/desktop.py")
      || Spells(name, "native/bootstrap/control.py")
  {
    SpellsIff(name, "native/bootstrap/runtime.py");
    SpellsIff(name, "native/bootstrap/desktop.py");
    SpellsIff(name, "native/bootstrap/control.py");
    hide Ascii, StartsWith, Spells;
  }

  /** `backend_path`, read off the names. */
  lemma BackendPathIff(name: Bytes)
    ensures BackendPath(name) <==>
      || StartsWith(name, "backend/") || StartsWith(name, "internal/") || StartsWith(name, "deploy/")
      || Spells(name, "go.mod") || Spells(name, "go.sum")
      || Spells(name, "scripts/install-services.sh") || Spells(name, "scripts/package-release.py")
      || Spells(name, "scripts/release_policy.py")
      || Spells(name, "native/bootstrap/runtime.py") || Spells(name, "native/bootstrap/desktop.py")
      || Spells(name, "native/bootstrap/control.py")
  {
    PrefixIff(name);
    ModuleFilesIff(name);
    ScriptFilesIff(name);
    BootstrapFilesIff(name);
    hide Ascii, StartsWith, Spells;
  }

  predicate PlainBlob(e: Entry) {
    e.mode in {PLAIN, EXECUTABLE} && e.kind == "blob"
  }

  /** Path(name).parts, for the names of a listing. */
  function Parts(name: Bytes): seq<Bytes> {
    Paths.Split(name, SLASH)
  }

  predicate Exportable(e: Entry) {
    && PlainBlob(e)
    && !([SLASH] <= e.name)
    && ABOVE !in Parts(e.name) && GIT !in Parts(e.name)
  }

  /** mode & 0o111 */
  predicate AnyoneMayExecute(mode: nat) {
    mode % 2 == 1 || (mode / 8) % 2 == 1 || (mode / 64) % 2 == 1
  }

  lemma LastOctal(n: nat, digit: nat)
    requires digit < 8
    ensures (8 * n + digit) / 8 == n
  {
  }

  lemma SameParity(n: nat, digit: nat)
    ensures (8 * n + digit) % 2 == digit % 2
  {
    assert 8 * n + digit == 2 * (4 * n + digit / 2) + digit % 2;
  }

  lemma DividedTwice(n: nat)
    ensures n / 64 == n / 8 / 8
  {
  }

  /** Somebody may execute it: one of the last three octal digits of the mode is odd. */
  lemma AnyoneMayExecuteIff(rest: nat, owner: nat, group: nat, others: nat)
    requires owner < 8 && group < 8 && others < 8
    ensures AnyoneMayExecute(8 * (8 * (8 * rest + owner) + group) + others) <==>
      owner % 2 == 1 || group % 2 == 1 || others % 2 == 1
  {
    var mode := 8 * (8 * (8 * rest + owner) + group) + others;
    DividedTwice(mode);
    LastOctal(8 * (8 * rest + owner) + group, others);
    LastOctal(8 * rest + owner, group);
    LastOctal(rest, owner);
    SameParity(8 * (8 * rest + owner) + group, others);
    SameParity(8 * rest + owner, group);
    SameParity(rest, owner);
  }

  /**
   A tracked entry that can be written below the export: a plain file at a path that stays inside, and not in
   .git.
   */
  ghost predicate StaysInside(e: Entry) {
    && e.kind == "blob" && (e.mode == "100644" || e.mode == "100755")
    && (e.name != [] ==> e.name[0] != 47)
    && forall part :: part in Paths.Split(e.name, 47) ==> part != [46, 46] && part != [46, 103, 105, 116]
  }

  /** What git guarantees of a listing: every path once, no part of it empty or ".". */
  ghost predicate Listing(entries: seq<Entry>) {
    && (forall i, j :: 0 <= i < j < |entries| ==> entries[i].name != entries[j].name)
    && (forall e :: e in entries ==> [] !in Parts(e.name) && HERE !in Parts(e.name))
  }

  /** chmod 0o755 or 0o644 */
  function Written(e: Entry): Node {
    File(e.data, if e.mode == EXECUTABLE then 0x1ed else 0x1a4)
  }

  function Described(e: Entry): Item {
    Item(e.data, e.mode == EXECUTABLE)
  }

  /** The repository's own files under .git/, and exactly the entries. */
  ghost predicate IsExport(entries: seq<Entry>, own: Tree, tree: Tree) {
    && (forall e :: e in entries ==>
          e.name in tree && tree[e.name] == File(e.data, if e.mode == "100755" then 0x1ed else 0x1a4))
    && (forall n :: n in own ==> n in tree && tree[n] == own[n])
    && (forall n :: n in tree ==> n in own || exists e :: e in entries && e.name == n)
  }

  ghost predicate OwnFiles(own: Tree) {
    forall n :: n in own ==> GIT + [SLASH] <= n
  }

  /** `export_source`, after `git init` and `git fetch`. */
  method ExportSource(entries: seq<Entry>, own: Tree) returns (r: Result<Tree, Error>)
    requires Listing(entries) && OwnFiles(own)
    ensures r.Ok? <==> forall e :: e in entries ==> StaysInside(e)
    ensures r.Ok? ==> IsExport(entries, own, r.value)
    ensures r.Err? ==> r.error == UnsupportedInput
  {
    hide Exportable, StaysInside, Listing, OwnFiles, IsExport;
    EmptyExport(own);
    forall e | e in entries ensures Exportable(e) <==> StaysInside(e) { ExportableIff(e); }
    var tree := own;
    for i := 0 to |entries|
      invariant forall e :: e in entries[..i] ==> Exportable(e)
      invariant IsExport(entries[..i], own, tree)
    {
      var e := entries[i];
      if !Exportable(e) { return Err(UnsupportedInput); }
      NamesDiffer(entries, i);
      NotOwn(e, own);
      AddFile(entries[..i], e, own, tree);
      tree := tree[e.name := Written(e)];
    }
    assert entries[..|entries|] == entries;
    r := Ok(tree);
  }

  lemma ExportableIff(e: Entry)
    ensures Exportable(e) <==> StaysInside(e)
  {
  }

  lemma NamesDiffer(entries: seq<Entry>, i: nat)
    requires Listing(entries) && i < |entries|
    ensures entries[..i + 1] == entries[..i] + [entries[i]]
    ensures forall f :: f in entries[..i] ==> f.name != entries[i].name
  {
    forall f | f in entries[..i] ensures f.name != entries[i].name {
      var j :| 0 <= j < i && entries[j] == f;
    }
  }

  lemma OwnPart(name: Bytes)
    requires GIT + [SLASH] <= name
    ensures GIT in Parts(name)
  {
    var rest := name[5..];
    assert name == GIT + [SLASH] + rest;
    Paths.SplitFirst(GIT, SLASH, rest);
    assert Parts(name)[0] == GIT;
  }

  lemma NotOwn(e: Entry, own: Tree)
    requires OwnFiles(own) && Exportable(e)
    ensures e.name !in own
  {
    hide Parts;
    if e.name in own { OwnPart(e.name); }
  }

  lemma EmptyExport(own: Tree)
    ensures IsExport([], own, own)
  {
  }

  lemma AddFile(before: seq<Entry>, e: Entry, own: Tree, tree: Tree)
    requires IsExport(before, own, tree) && e.name !in own
    requires forall f :: f in before ==> f.name != e.name
    ensures IsExport(before + [e], own, tree[e.name := Written(e)])
  {
    var after := tree[e.name := Written(e)];
    forall n | n in after ensures n in own || exists f :: f in before + [e] && f.name == n {
      if n == e.name {
        assert e in before + [e];
      } else if n !in own {
        var f :| f in before && f.name == n;
        assert f in before + [e];
      }
    }
  }

  // By filtering the commit

  /** Exactly the backend entries, described. */
  ghost predicate IsInventory(entries: seq<Entry>, files: Inventory) {
    && (forall e :: e in entries && BackendPath(e.name) ==> e.name in files && files[e.name] == Described(e))
    && (forall n :: n in files ==> exists e :: e in entries && e.name == n && BackendPath(n))
  }

  /** A listing has one inventory. */
  lemma InventoryIsUnique(entries: seq<Entry>, a: Inventory, b: Inventory)
    requires IsInventory(entries, a) && IsInventory(entries, b)
    ensures a == b
  {
    hide BackendPath;
    assert forall n :: n in a ==> n in b && b[n] == a[n];
    assert forall n :: n in b ==> n in a;
  }

  /** Every name is UTF-8, and every backend entry a plain file. */
  ghost predicate FrozenSucceeds(entries: seq<Entry>) {
    forall e :: e in entries ==> Utf8(e.name) && (BackendPath(e.name) ==> PlainBlob(e))
  }

  /** The first entry it cannot take decides how it fails. */
  ghost predicate FrozenFails(entries: seq<Entry>, k: nat, error: Error) {
    && k < |entries| && FrozenSucceeds(entries[..k])
    && (if !Utf8(entries[k].name) then error == UndecodableName
        else BackendPath(entries[k].name) && !PlainBlob(entries[k]) && error == UnsupportedBackend)
  }

  /** `frozen_backend_digest`: every name is decoded, also of entries that are no part of the backend. */
  method FrozenBackendDigest(entries: seq<Entry>) returns (r: Result<Digest, Error>)
    requires Listing(entries)
    ensures r.Ok? <==> FrozenSucceeds(entries)
    ensures r.Ok? ==> IsInventory(entries, r.value.of)
    ensures r.Ok? ==> forall e :: e in entries && BackendPath(e.name) ==>
      e.name in r.value.of && r.value.of[e.name] == Item(e.data, e.mode == "100755")
    ensures r.Err? ==> exists k: nat :: FrozenFails(entries, k, r.error)
  {
    hide BackendPath, PlainBlob, Described, Listing, Utf8;
    var files: Inventory := map[];
    for i := 0 to |entries|
      invariant FrozenSucceeds(entries[..i])
      invariant IsInventory(entries[..i], files)
    {
      var e := entries[i];
      NamesDiffer(entries, i);
      if !Utf8(e.name) {
        assert FrozenFails(entries, i, UndecodableName);
        return Err(UndecodableName);
      }
      if BackendPath(e.name) {
        if !PlainBlob(e) {
          assert FrozenFails(entries, i, UnsupportedBackend);
          return Err(UnsupportedBackend);
        }
        AddOne(entries[..i], e, files);
        files := files[e.name := Described(e)];
      } else {
        SkipOne(entries[..i], e, files);
      }
    }
    assert entries[..|entries|] == entries;
    DescribedBackend(entries, files);
    r := Ok(Sha256(files));
  }

  lemma DescribedBackend(entries: seq<Entry>, files: Inventory)
    requires IsInventory(entries, files)
    ensures forall e :: e in entries && BackendPath(e.name) ==>
      e.name in files && files[e.name] == Item(e.data, e.mode == "100755")
  {
    hide BackendPath;
  }

  lemma AddOne(before: seq<Entry>, e: Entry, files: Inventory)
    requires IsInventory(before, files) && BackendPath(e.name)
    requires forall f :: f in before ==> f.name != e.name
    ensures IsInventory(before + [e], files[e.name := Described(e)])
  {
    hide BackendPath, Described;
    var after := files[e.name := Described(e)];
    forall n | n in after ensures exists f :: f in before + [e] && f.name == n && BackendPath(n) {
      if n == e.name {
        assert e in before + [e];
      } else {
        var f :| f in before && f.name == n && BackendPath(n);
        assert f in before + [e];
      }
    }
  }

  lemma SkipOne(before: seq<Entry>, e: Entry, files: Inventory)
    requires IsInventory(before, files) && !BackendPath(e.name)
    ensures IsInventory(before + [e], files)
  {
    hide BackendPath, Described;
    forall n | n in files ensures exists f :: f in before + [e] && f.name == n && BackendPath(n) {
      var f :| f in before && f.name == n && BackendPath(n);
      assert f in before + [e];
    }
  }

  // By walking the exported tree

  /** is_file() */
  predicate IsFile(n: Node) {
    n.File? || n.toFile
  }

  function Found(n: Node): Item
    requires n.File?
  {
    Item(n.data, AnyoneMayExecute(n.mode))
  }

  /** Every backend file of a tree. */
  function Walked(tree: Tree): Inventory {
    map n | n in tree && BackendPath(n) && tree[n].File? :: Found(tree[n])
  }

  /** No backend file is a link. */
  ghost predicate WalkSucceeds(tree: Tree) {
    forall n :: n in tree && BackendPath(n) ==> tree[n] != Symlink(true)
  }

  /** `backend_digest`. */
  method SourceDigest(tree: Tree) returns (r: Result<Digest, Error>)
    ensures r == if WalkSucceeds(tree) then Ok(Sha256(Walked(tree))) else Err(BackendSymlink)
  {
    var paths: set<Bytes> := {};
    for i := 0 to |PREFIXES|
      invariant forall n :: n in paths <==> n in tree && IsFile(tree[n]) && exists j :: 0 <= j < i && PREFIXES[j] <= n
    {
      paths := paths + set n | n in tree && PREFIXES[i] <= n && IsFile(tree[n]);
    }
    paths := paths + set n | n in BACKEND_FILES && n in tree && IsFile(tree[n]);
    ghost var all := paths;
    assert forall n :: n in all <==> n in tree && BackendPath(n) && IsFile(tree[n]);
    hide BackendPath, AnyoneMayExecute;
    var files: Inventory := map[];
    while paths != {}
      invariant paths <= all
      invariant forall n :: n in all - paths ==> tree[n].File?
      invariant files == map n | n in all - paths && tree[n].File? :: Found(tree[n])
    {
      var path :| path in paths;
      if tree[path].Symlink? { return Err(BackendSymlink); }
      files := files[path := Found(tree[path])];
      paths := paths - {path};
    }
    assert files == Walked(tree);
    r := Ok(Sha256(files));
  }

  /** The repository's own files are no part of the backend. */
  lemma OwnFilesAreNoBackend(n: Bytes)
    requires GIT + [SLASH] <= n
    ensures !BackendPath(n)
  {
    assert n[0] == 46;
    forall i | 0 <= i < |PREFIXES| ensures !(PREFIXES[i] <= n) {
      assert PREFIXES[i][0] != n[0];
    }
  }

  lemma ModesSurvive(e: Entry)
    requires PlainBlob(e)
    ensures Found(Written(e)) == Described(e)
  {
  }

  /** The exported tree's backend files are the commit's backend entries. */
  lemma ExportedInventory(entries: seq<Entry>, own: Tree, tree: Tree)
    requires OwnFiles(own) && IsExport(entries, own, tree)
    requires forall e :: e in entries ==> Exportable(e)
    ensures IsInventory(entries, Walked(tree))
    ensures WalkSucceeds(tree)
  {
    hide BackendPath, AnyoneMayExecute, Parts;
    forall n | n in tree && BackendPath(n) ensures n !in own {
      if n in own { OwnFilesAreNoBackend(n); }
    }
    forall e | e in entries ensures Found(Written(e)) == Described(e) { ModesSurvive(e); }
  }

  /**
   Digest agreement, and its limit.  Whenever a commit can be exported, the walk of the exported
   tree succeeds, and its inventory is that of the commit, so the digests are the same if there
   are two.  The filter over the commit succeeds exactly if every name, of the backend or not,
   is UTF-8.
   */
  lemma DigestsAgree(entries: seq<Entry>, own: Tree, tree: Tree, files: Inventory)
    requires OwnFiles(own) && IsExport(entries, own, tree)
    requires forall e :: e in entries ==> Exportable(e)
    requires IsInventory(entries, files)
    ensures WalkSucceeds(tree)
    ensures FrozenSucceeds(entries) <==> forall e :: e in entries ==> Utf8(e.name)
    ensures Sha256(Walked(tree)) == Sha256(files)
  {
    hide BackendPath, Parts, IsInventory, Walked, OwnFiles, IsExport, Utf8, WalkSucceeds;
    ExportedInventory(entries, own, tree);
    InventoryIsUnique(entries, Walked(tree), files);
  }

  /** A commit that can be exported and has a digest that way, but none the other way. */
  lemma UndecodableNameHasOneDigest() returns (entries: seq<Entry>)
    ensures Listing(entries) && (forall e :: e in entries ==> Exportable(e) && !BackendPath(e.name))
    ensures !FrozenSucceeds(entries)
  {
    var name: Bytes := [255];
    entries := [Entry(PLAIN, "blob", name, [])];
    Paths.FindAt(name, SLASH, []);
    assert Parts(name) == [name];
    assert forall i :: 0 <= i < |PREFIXES| ==> |PREFIXES[i]| > 1;
    assert entries[0] in entries && !Utf8(entries[0].name);
  }

  /** Every backend entry of a is, with the same contents and mode, one of b. */
  ghost predicate Within(a: seq<Entry>, b: seq<Entry>) {
    forall e :: e in a && BackendPath(e.name) ==> exists f :: f in b && f.name == e.name && Described(f) == Described(e)
  }

  lemma WithinIff(a: seq<Entry>, b: seq<Entry>, x: Inventory, y: Inventory)
    requires IsInventory(a, x) && IsInventory(b, y)
    ensures Within(a, b) <==> forall n :: n in x ==> n in y && y[n] == x[n]
  {
    hide BackendPath, Described;
    if Within(a, b) {
      forall n | n in x ensures n in y && y[n] == x[n] {
        var e :| e in a && e.name == n && BackendPath(n);
        var f :| f in b && f.name == e.name && Described(f) == Described(e);
      }
    }
    if forall n :: n in x ==> n in y && y[n] == x[n] {
      forall e | e in a && BackendPath(e.name)
        ensures exists f :: f in b && f.name == e.name && Described(f) == Described(e) {
        assert e.name in x;
        var f :| f in b && f.name == e.name && BackendPath(e.name);
      }
    }
  }

  /** Two commits have one digest exactly when their backend entries agree. */
  lemma DigestIdentifiesBackend(a: seq<Entry>, b: seq<Entry>, x: Inventory, y: Inventory)
    requires IsInventory(a, x) && IsInventory(b, y)
    ensures Sha256(x) == Sha256(y) <==> Within(a, b) && Within(b, a)
  {
    hide IsInventory, Within;
    WithinIff(a, b, x, y);
    WithinIff(b, a, y, x);
    if (forall n :: n in x ==> n in y && y[n] == x[n]) && (forall n :: n in y ==> n in x && x[n] == y[n]) {
      assert x == y;
    }
  }

  // What the freeze means for the backend

  /** How `git diff --name-only` prints a name: as it is, or in quotes when it holds anything unusual. */
  predicate Lists(line: string, name: Bytes) {
    if IsAscii(line) && Ascii(line) == name then true else line != "" && line[0] == '"'
  }

  lemma BackendNames(name: Bytes)
    requires BackendPath(name) && name !in BACKEND_FILES
    ensures |name| >= 2 && (name[0], name[1]) in {(98, 97), (105, 110), (100, 101)}
  {
    var i :| 0 <= i < |PREFIXES| && PREFIXES[i] <= name;
    assert name[0] == PREFIXES[i][0] && name[1] == PREFIXES[i][1];
    assert i == 0 || i == 1 || i == 2;
  }

  /** The names in docs/ are no backend names. */
  lemma DocumentNames(line: string)
    requires IsAscii(line) && Promotion.DOCS <= line
    ensures !BackendPath(Ascii(line))
  {
    var name := Ascii(line);
    assert line[0] == Promotion.DOCS[0] && line[1] == Promotion.DOCS[1];
    assert name[0] == 100 && name[1] == 111;
    if BackendPath(name) && name !in BACKEND_FILES { BackendNames(name); }
  }

  /** Of everything that may change after the freeze, only the release policy itself is backend source. */
  lemma OnlyPolicyMayChange(line: string, name: Bytes)
    requires Lists(line, name) && Promotion.MayChange(line) && BackendPath(name)
    ensures name == POLICY
  {
    if Promotion.DOCS <= line {
      if IsAscii(line) { DocumentNames(line); }
    } else if name !in BACKEND_FILES {
      BackendNames(name);
    }
  }

  /** Every added or changed entry of the head is named; of a renamed file, only the new name is. */
  ghost predicate Diffed(changed: seq<string>, frozen: seq<Entry>, head: seq<Entry>) {
    forall e :: e in head && e !in frozen ==> exists line :: line in changed && Lists(line, e.name)
  }

  /** No backend file of the frozen source but the release policy is gone. */
  ghost predicate NothingGone(frozen: seq<Entry>, head: seq<Entry>) {
    forall e :: e in frozen && BackendPath(e.name) && e.name != POLICY ==> exists f :: f in head && f.name == e.name
  }

  /**
   What the freeze is worth for the backend: the accepted head has the qualified backend, but for
   the release policy, exactly if no frozen backend file is gone from it.
   */
  lemma PromotedBackendIsFrozenIff(pr: Promotion.Request, frozen: seq<Entry>, head: seq<Entry>, x: Inventory,
                                   y: Inventory)
    requires Promotion.Accepted(pr)
    requires IsInventory(frozen, x) && IsInventory(head, y) && Diffed(pr.changed, frozen, head)
    ensures x - {POLICY} == y - {POLICY} <==> NothingGone(frozen, head)
  {
    hide Promotion.Accepted, Promotion.Tested, Promotion.StartsFrom, Versions.Stable,
         Promotion.StrictlyOlder, BackendPath, Described, IsInventory, Promotion.MayChange, Lists, NothingGone;
    Promotion.AcceptedIsForward(pr);
    HeadIsFrozen(pr.changed, frozen, head);
    SameButPolicy(frozen, head, x, y);
  }

  lemma HeadIsFrozen(changed: seq<string>, frozen: seq<Entry>, head: seq<Entry>)
    requires forall p :: p in changed ==> Promotion.MayChange(p)
    requires Diffed(changed, frozen, head)
    ensures forall e :: e in head && BackendPath(e.name) && e.name != POLICY ==> e in frozen
  {
    hide Promotion.MayChange, BackendPath, Lists;
    forall e | e in head && BackendPath(e.name) && e.name != POLICY ensures e in frozen {
      if e !in frozen {
        var line :| line in changed && Lists(line, e.name);
        OnlyPolicyMayChange(line, e.name);
      }
    }
  }

  lemma SameButPolicy(frozen: seq<Entry>, head: seq<Entry>, x: Inventory, y: Inventory)
    requires IsInventory(frozen, x) && IsInventory(head, y)
    requires forall e :: e in head && BackendPath(e.name) && e.name != POLICY ==> e in frozen
    ensures x - {POLICY} == y - {POLICY} <==> NothingGone(frozen, head)
  {
    hide BackendPath, Described, IsInventory, NothingGone;
    if NothingGone(frozen, head) {
      SameWhenNothingGone(frozen, head, x, y);
    }
    if x - {POLICY} == y - {POLICY} {
      NothingGoneWhenSame(frozen, head, x, y);
    }
  }

  lemma InventoryHas(entries: seq<Entry>, files: Inventory, n: Bytes) returns (e: Entry)
    requires IsInventory(entries, files) && n in files
    ensures e in entries && e.name == n && BackendPath(n) && files[n] == Described(e)
  {
    hide BackendPath, Described;
    e :| e in entries && e.name == n && BackendPath(n);
  }

  lemma InventoryTakes(entries: seq<Entry>, files: Inventory, e: Entry)
    requires IsInventory(entries, files) && e in entries && BackendPath(e.name)
    ensures e.name in files && files[e.name] == Described(e)
  {
    hide BackendPath, Described;
  }

  lemma SameWhenNothingGone(frozen: seq<Entry>, head: seq<Entry>, x: Inventory, y: Inventory)
    requires IsInventory(frozen, x) && IsInventory(head, y) && NothingGone(frozen, head)
    requires forall e :: e in head && BackendPath(e.name) && e.name != POLICY ==> e in frozen
    ensures x - {POLICY} == y - {POLICY}
  {
    hide BackendPath, Described, IsInventory;
    forall n | n in x && n != POLICY ensures n in y && y[n] == x[n] {
      var e := InventoryHas(frozen, x, n);
      var f :| f in head && f.name == e.name;
      InventoryTakes(head, y, f);
      InventoryTakes(frozen, x, f);
    }
    forall n | n in y && n != POLICY ensures n in x {
      var f := InventoryHas(head, y, n);
      InventoryTakes(frozen, x, f);
    }
  }

  lemma NothingGoneWhenSame(frozen: seq<Entry>, head: seq<Entry>, x: Inventory, y: Inventory)
    requires IsInventory(frozen, x) && IsInventory(head, y) && x - {POLICY} == y - {POLICY}
    ensures NothingGone(frozen, head)
  {
    hide BackendPath, Described, IsInventory;
    forall e | e in frozen && BackendPath(e.name) && e.name != POLICY
      ensures exists f :: f in head && f.name == e.name {
      InventoryTakes(frozen, x, e);
      assert e.name in x - {POLICY};
      var f := InventoryHas(head, y, e.name);
    }
  }

  /** A backend file renamed into docs/ passes the gate: only its new name is listed. */
  lemma RenamedBackendPasses() returns (pr: Promotion.Request, frozen: seq<Entry>, head: seq<Entry>)
    ensures Promotion.Accepted(pr) && Listing(frozen) && Listing(head) && Diffed(pr.changed, frozen, head)
    ensures !NothingGone(frozen, head)
  {
    hide Promotion.Accepted;
    pr := Promotion.AnAcceptedRequest("docs/a.go");
    frozen, head := RenamedEntries();
  }

  lemma RenamedEntries() returns (frozen: seq<Entry>, head: seq<Entry>)
    ensures Listing(frozen) && Listing(head) && Diffed(["docs/a.go"], frozen, head) && !NothingGone(frozen, head)
  {
    hide Parts, BackendPath, Listing, Lists, Diffed, NothingGone;
    var file := Ascii("a.go");
    var e := Entry(PLAIN, "blob", Ascii("backend") + [SLASH] + file, []);
    var f := Entry(PLAIN, "blob", Ascii("docs") + [SLASH] + file, []);
    TwoPartsListed(e, Ascii("backend"), file);
    TwoPartsListed(f, Ascii("docs"), file);
    OnlyNewNameListed(e, f);
    frozen, head := [e], [f];
  }

  lemma TwoPartsListed(e: Entry, a: Bytes, b: Bytes)
    requires SLASH !in a && SLASH !in b && |a| > 1 && |b| > 1 && e.name == a + [SLASH] + b
    ensures Listing([e])
  {
    TwoParts(a, b, e.name);
    hide Parts;
  }

  lemma OnlyNewNameListed(e: Entry, f: Entry)
    requires e.name == Ascii("backend") + [SLASH] + Ascii("a.go")
    requires f.name == Ascii("docs") + [SLASH] + Ascii("a.go")
    ensures Diffed(["docs/a.go"], [e], [f]) && !NothingGone([e], [f])
  {
    assert f.name == Ascii("docs/a.go");
    assert Lists("docs/a.go", f.name);
    assert e.name == Ascii("backend/") + Ascii("a.go");
    InBackend(Ascii("a.go"), e.name);
    hide Ascii, Lists, BackendPath;
    assert |e.name| == 12 && |f.name| == 9 && |POLICY| == 25;
    assert e in [e] && f in [f] && "docs/a.go" in ["docs/a.go"];
  }

  lemma InBackend(rest: Bytes, name: Bytes)
    requires name == Ascii("backend/") + rest
    ensures BackendPath(name)
  {
    assert PREFIXES[0] <= name;
  }

  lemma TwoParts(a: Bytes, b: Bytes, name: Bytes)
    requires SLASH !in a && SLASH !in b && name == a + [SLASH] + b
    ensures Parts(name) == [a, b]
  {
    Paths.SplitFirst(a, SLASH, b);
    Paths.FindAt(b, SLASH, []);
    assert Parts(b) == [b];
  }

  // The release policy itself

  /** The release policy is in both inventories, the same, or in neither. */
  predicate SamePolicy(x: Inventory, y: Inventory) {
    (POLICY in x <==> POLICY in y) && (POLICY in x && POLICY in y ==> x[POLICY] == y[POLICY])
  }

  /**
   The whole backend of an accepted head is the qualified one exactly if, besides, the release policy is
   unchanged.
   */
  lemma WholeBackendIsFrozenIff(pr: Promotion.Request, frozen: seq<Entry>, head: seq<Entry>, x: Inventory, y: Inventory)
    requires Promotion.Accepted(pr)
    requires IsInventory(frozen, x) && IsInventory(head, y) && Diffed(pr.changed, frozen, head)
    ensures Sha256(x) == Sha256(y) <==> NothingGone(frozen, head) && SamePolicy(x, y)
  {
    hide Promotion.Accepted, IsInventory, NothingGone, Diffed;
    PromotedBackendIsFrozenIff(pr, frozen, head, x, y);
    SameWithPolicy(x, y);
  }

  lemma SameWithPolicy(x: Inventory, y: Inventory)
    ensures x == y <==> x - {POLICY} == y - {POLICY} && SamePolicy(x, y)
  {
    if x - {POLICY} == y - {POLICY} && SamePolicy(x, y) {
      forall n | n in x ensures n in y && y[n] == x[n] {
        if n != POLICY { assert n in x - {POLICY}; }
      }
      forall n | n in y ensures n in x {
        if n != POLICY { assert n in y - {POLICY}; }
      }
    }
  }

  /** A changed release policy passes the gate, and the head has another digest than the qualified one. */
  lemma ChangedPolicyPasses() returns (pr: Promotion.Request, frozen: seq<Entry>, head: seq<Entry>)
    ensures Promotion.Accepted(pr) && Listing(frozen) && Listing(head) && Diffed(pr.changed, frozen, head)
    ensures NothingGone(frozen, head)
    ensures forall x, y :: IsInventory(frozen, x) && IsInventory(head, y) ==> Sha256(x) != Sha256(y)
  {
    hide Promotion.Accepted;
    pr := Promotion.AnAcceptedRequest("scripts/release_policy.py");
    frozen, head := PolicyEntries();
  }

  lemma PolicyEntries() returns (frozen: seq<Entry>, head: seq<Entry>)
    ensures Listing(frozen) && Listing(head) && Diffed(["scripts/release_policy.py"], frozen, head)
    ensures NothingGone(frozen, head)
    ensures forall x, y :: IsInventory(frozen, x) && IsInventory(head, y) ==> Sha256(x) != Sha256(y)
  {
    var e, f := Entry(PLAIN, "blob", POLICY, [0]), Entry(PLAIN, "blob", POLICY, [1]);
    frozen, head := [e], [f];
    hide Parts, Lists, BackendPath, Ascii, IsAscii;
    PolicyListed();
    var folder, file := PolicyParts();
    TwoPartsListed(e, folder, file);
    TwoPartsListed(f, folder, file);
    assert e in frozen && f in head && "scripts/release_policy.py" in ["scripts/release_policy.py"];
    ContentsTell(e, f);
  }

  lemma ContentsTell(e: Entry, f: Entry)
    requires BackendPath(e.name) && e.name == f.name && e.data != f.data
    ensures forall x, y :: IsInventory([e], x) && IsInventory([f], y) ==> Sha256(x) != Sha256(y)
  {
    hide BackendPath;
    forall x, y | IsInventory([e], x) && IsInventory([f], y) ensures x != y {
      InventoryTakes([e], x, e);
      InventoryTakes([f], y, f);
    }
  }

  lemma PolicyListed()
    ensures Lists("scripts/release_policy.py", POLICY)
  {
  }

  lemma AsciiJoins(a: string, b: string)
    requires IsAscii(a) && IsAscii(b) && '/' !in a && '/' !in b
    ensures IsAscii(a + "/" + b) && Ascii(a + "/" + b) == Ascii(a) + [SLASH] + Ascii(b)
    ensures SLASH !in Ascii(a) && SLASH !in Ascii(b)
  {
  }

  lemma PolicyText()
    ensures IsAscii("scripts") && IsAscii("release_policy.py") && '/' !in "scripts" && '/' !in "release_policy.py"
    ensures "scripts" + "/" + "release_policy.py" == "scripts/release_policy.py"
  {
  }

  lemma PolicyParts() returns (folder: Bytes, file: Bytes)
    ensures POLICY == folder + [SLASH] + file && SLASH !in folder && SLASH !in file && |folder| > 1 && |file| > 1
    ensures BackendPath(POLICY)
  {
    PolicyIsBackend();
    PolicyText();
    hide IsAscii, BackendPath;
    folder, file := Ascii("scripts"), Ascii("release_policy.py");
    AsciiJoins("scripts", "release_policy.py");
    hide Ascii;
  }

  lemma PolicyIsBackend()
    ensures BackendPath(POLICY)
  {
    hide Ascii;
  }

  // What the gate compares

  /** The text of a digest, and that digests with one text are one digest. */
  ghost predicate Injective(hex: Digest -> string) {
    forall d, e :: hex(d) == hex(e) ==> d == e
  }

  /** The request carries what `frozen_backend_digest` makes of the frozen source. */
  ghost predicate Computed(pr: Promotion.Request, hex: Digest -> string, frozen: seq<Entry>, x: Inventory) {
    && IsInventory(frozen, x)
    && pr.frozenDigest == if FrozenSucceeds(frozen) then Some(hex(Sha256(x))) else None
  }

  /** Acceptance: the pinned, qualified digest is the one of the frozen source, and of its exported tree. */
  lemma AcceptedDigestIsFrozen(pr: Promotion.Request, hex: Digest -> string, frozen: seq<Entry>, x: Inventory,
                               own: Tree, tree: Tree)
    requires Promotion.Accepted(pr) && Computed(pr, hex, frozen, x)
    requires OwnFiles(own) && IsExport(frozen, own, tree) && forall e :: e in frozen ==> Exportable(e)
    ensures FrozenSucceeds(frozen)
    ensures pr.pins.value.backendSha256 == hex(Sha256(x)) == hex(Sha256(Walked(tree)))
  {
    hide Promotion.Accepted, Promotion.Tested, Promotion.StartsFrom, Versions.Stable, Promotion.StrictlyOlder,
         Promotion.MayChange, IsInventory, FrozenSucceeds, OwnFiles, IsExport, Exportable, Walked;
    Promotion.AcceptedIsForward(pr);
    DigestsAgree(frozen, own, tree, x);
  }

  /** Two accepted promotions pin one digest exactly if their frozen sources have the same backend. */
  lemma PinsIdentifyBackend(p: Promotion.Request, q: Promotion.Request, hex: Digest -> string,
                            a: seq<Entry>, b: seq<Entry>, x: Inventory, y: Inventory)
    requires Injective(hex)
    requires Promotion.Accepted(p) && Computed(p, hex, a, x)
    requires Promotion.Accepted(q) && Computed(q, hex, b, y)
    ensures p.pins.value.backendSha256 == q.pins.value.backendSha256 <==> Within(a, b) && Within(b, a)
  {
    hide Promotion.Accepted, Promotion.Tested, Promotion.StartsFrom, Versions.Stable, Promotion.StrictlyOlder,
         Promotion.MayChange, IsInventory, FrozenSucceeds, Within;
    Promotion.AcceptedIsForward(p);
    Promotion.AcceptedIsForward(q);
    DigestIdentifiesBackend(a, b, x, y);
  }
}
