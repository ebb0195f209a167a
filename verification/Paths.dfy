/** Splitting on a separator, and relative POSIX paths as Python's PurePosixPath reads them. */
module Paths {

  /** The position of the first separator, or the length. */
  function Find<T(==)>(s: seq<T>, sep: T): (n: nat)
    ensures n <= |s|
    ensures sep !in s[..n]
    ensures n < |s| ==> s[n] == sep
  {
    if s == [] || s[0] == sep then 0 else
      var n := Find(s[1..], sep) + 1;
      assert s[..n] == [s[0]] + s[1..][..n - 1];
      n
  }

  /** s.split(sep): always at least one piece. */
  function Split<T(==)>(s: seq<T>, sep: T): (pieces: seq<seq<T>>)
    ensures pieces != []
  {
    var n := Find(s, sep);
    if n == |s| then [s] else [s[..n]] + Split(s[n + 1..], sep)
  }

  /** sep.join(pieces). */
  function Join<T>(pieces: seq<seq<T>>, sep: T): seq<T> {
    if pieces == [] then []
    else if |pieces| == 1 then pieces[0]
    else pieces[0] + [sep] + Join(pieces[1..], sep)
  }

  lemma {:induction false} FindAt<T>(a: seq<T>, sep: T, rest: seq<T>)
    requires sep !in a
    ensures Find(a + [sep] + rest, sep) == |a|
    ensures Find(a, sep) == |a|
  {
    if a != [] {
      FindAt(a[1..], sep, rest);
      assert (a + [sep] + rest)[1..] == a[1..] + [sep] + rest;
    }
  }

  /** One step of Split. */
  lemma SplitStep<T>(s: seq<T>, sep: T)
    requires sep in s
    ensures var n := Find(s, sep); n < |s| && Split(s, sep) == [s[..n]] + Split(s[n + 1..], sep)
  {
    hide Find;
    FindStops(s, sep);
  }

  lemma FindStops<T>(s: seq<T>, sep: T)
    requires sep in s
    ensures Find(s, sep) < |s|
  {
    hide Find, Split;
    assert s[..|s|] == s;
  }

  lemma NoSplit<T>(s: seq<T>, sep: T)
    requires sep !in s
    ensures Split(s, sep) == [s]
  {
    FindAt(s, sep, []);
  }

  lemma SplitFirst<T>(a: seq<T>, sep: T, rest: seq<T>)
    requires sep !in a
    ensures Split(a + [sep] + rest, sep) == [a] + Split(rest, sep)
  {
    var s := a + [sep] + rest;
    FindAt(a, sep, rest);
    assert s[..|a|] == a;
    assert s[|a| + 1..] == rest;
  }

  lemma {:induction false} SplitJoin<T>(pieces: seq<seq<T>>, sep: T)
    requires pieces != []
    requires forall p :: p in pieces ==> sep !in p
    ensures Split(Join(pieces, sep), sep) == pieces
  {
    assert pieces[0] in pieces;
    if |pieces| == 1 {
      FindAt(pieces[0], sep, []);
    } else {
      SplitJoin(pieces[1..], sep);
      SplitFirst(pieces[0], sep, Join(pieces[1..], sep));
      assert pieces == [pieces[0]] + pieces[1..];
    }
  }

  /** Splitting loses nothing: the pieces, none of which holds a separator, make up the text. */
  lemma {:induction false} JoinSplit<T>(s: seq<T>, sep: T)
    ensures Join(Split(s, sep), sep) == s
    ensures forall c :: c in Split(s, sep) ==> sep !in c
    decreases |s|
  {
    var n := Find(s, sep);
    if n < |s| {
      JoinSplit(s[n + 1..], sep);
      assert Split(s, sep)[1..] == Split(s[n + 1..], sep);
      assert s == s[..n] + [sep] + s[n + 1..];
    } else {
      assert s[..n] == s;
    }
  }

  lemma Unprefixed<T>(first: seq<T>, rest: seq<T>, a: seq<T>)
    requires a <= first + rest && |first| <= |a|
    ensures a == first + a[|first|..] && a[|first|..] <= rest
  {
    assert a[..|first|] == (first + rest)[..|first|] == first;
    assert a[|first|..] == (first + rest)[|first|..|a|] == rest[..|a| - |first|];
  }

  lemma {:induction false} PiecesInFront<T>(pieces: seq<seq<T>>, sep: T, k: nat)
    requires 0 < k < |pieces|
    ensures Join(pieces[..k], sep) + [sep] <= Join(pieces, sep)
  {
    var first, rest := pieces[0], pieces[1..];
    assert pieces[..k][1..] == rest[..k - 1];
    if k > 1 { PiecesInFront(rest, sep, k - 1); }
  }

  lemma {:induction false} PiecesUpTo<T>(pieces: seq<seq<T>>, sep: T, a: seq<T>) returns (k: nat)
    requires pieces != [] && (forall p :: p in pieces ==> sep !in p) && a + [sep] <= Join(pieces, sep)
    ensures 0 < k < |pieces| && a == Join(pieces[..k], sep)
  {
    var first, rest := pieces[0], pieces[1..];
    assert first in pieces && forall p :: p in rest ==> p in pieces;
    assert (a + [sep])[|a|] == sep == Join(pieces, sep)[|a|];
    if |pieces| == 1 || |a| < |first| {
      assert false;
    } else if |a| == |first| {
      Unprefixed(first, [sep] + Join(rest, sep), a + [sep]);
      assert Join(pieces, sep) == first + ([sep] + Join(rest, sep));
      k := 1;
      assert pieces[..1] == [first];
    } else {
      Unprefixed(first + [sep], Join(rest, sep), a + [sep]);
      assert (a + [sep])[|first| + 1..] == a[|first| + 1..] + [sep];
      var l := PiecesUpTo(rest, sep, a[|first| + 1..]);
      k := l + 1;
      assert pieces[..k][1..] == rest[..l];
    }
  }

  /** What stands in front of a separator of the joined text is the text of the first k pieces. */
  lemma JoinedUpTo<T>(pieces: seq<seq<T>>, sep: T, a: seq<T>)
    requires pieces != [] && forall p :: p in pieces ==> sep !in p
    ensures a + [sep] <= Join(pieces, sep) <==> exists k :: 0 < k < |pieces| && a == Join(pieces[..k], sep)
  {
    hide Join;
    if a + [sep] <= Join(pieces, sep) { var k := PiecesUpTo(pieces, sep, a); }
    forall k | 0 < k < |pieces| ensures Join(pieces[..k], sep) + [sep] <= Join(pieces, sep) {
      PiecesInFront(pieces, sep, k);
    }
  }

  type Path = seq<string>

  function Significant(pieces: seq<string>): Path {
    if pieces == [] then []
    else (if pieces[0] == "" || pieces[0] == "." then [] else [pieces[0]]) + Significant(pieces[1..])
  }

  /** PurePosixPath(name).parts, without a leading root. */
  function Parts(name: string): Path {
    Significant(Split(name, '/'))
  }

  /** str(path). */
  function Text(path: Path): string {
    if path == [] then "." else Join(path, '/')
  }

  predicate Component(c: string) {
    c != "" && c != "." && '/' !in c
  }

  ghost predicate Components(path: Path) {
    forall c :: c in path ==> Component(c)
  }

  lemma {:induction false} SignificantAll(path: Path)
    requires Components(path)
    ensures Significant(path) == path
  {
    if path != [] {
      assert Component(path[0]);
      SignificantAll(path[1..]);
    }
  }

  lemma {:induction false} SignificantComponents(pieces: seq<string>)
    requires forall c :: c in pieces ==> '/' !in c
    ensures Components(Significant(pieces))
  {
    if pieces != [] {
      assert pieces[0] in pieces;
      SignificantComponents(pieces[1..]);
    }
  }

  lemma PartsAreComponents(name: string)
    ensures Components(Parts(name))
  {
    JoinSplit(name, '/');
    SignificantComponents(Split(name, '/'));
  }

  /** Writing a path down and reading it back gives the same path. */
  lemma PartsOfText(path: Path)
    requires Components(path)
    ensures Parts(Text(path)) == path
  {
    if path == [] {
      FindAt(".", '/', "");
      assert Split(".", '/') == ["."];
      assert Significant(["."]) == [] + Significant([]);
    } else {
      assert forall c :: c in path ==> '/' !in c by {
        forall c | c in path ensures '/' !in c { assert Component(c); }
      }
      SplitJoin(path, '/');
      SignificantAll(path);
    }
  }

  /** The test scripts/install-panel.py applies to the names in a marker. */
  predicate Canonical(name: string) {
    !("/" <= name) && ".." !in Parts(name) && Text(Parts(name)) == name
  }

  /** The names a marker may list: components without "..", joined by slashes. */
  lemma CanonicalIff(name: string)
    ensures Canonical(name) <==> exists path :: Components(path) && ".." !in path && name == Text(path)
  {
    PartsAreComponents(name);
    forall path | Components(path) && ".." !in path && name == Text(path) ensures Canonical(name) {
      PartsOfText(path);
      if path != [] { assert Component(path[0]); }
    }
  }

  /** {str(p) for p in PurePosixPath(name).parents if str(p) != "."} */
  function Ancestors(name: string): set<string> {
    set k | 0 < k < |Parts(name)| :: Text(Parts(name)[..k])
  }

  lemma AncestorParts(name: string, k: nat)
    requires 0 < k < |Parts(name)|
    ensures Parts(Text(Parts(name)[..k])) == Parts(name)[..k]
  {
    PartsAreComponents(name);
    assert Components(Parts(name)[..k]);
    PartsOfText(Parts(name)[..k]);
  }

  /** The name of some path, as Python would print it. */
  ghost predicate Named(name: string) {
    exists path :: Components(path) && name == Text(path)
  }

  /** The name leads through the folder, read off the texts alone. */
  predicate Under(name: string, folder: string) {
    folder + "/" <= name
  }

  /** The ancestors of a name are exactly what stands in front of its slashes. */
  lemma AncestorsAreAbove(name: string)
    requires Named(name)
    ensures forall a :: a in Ancestors(name) <==> Under(name, a)
  {
    hide Join;
    var path :| Components(path) && name == Text(path);
    PartsOfText(path);
    forall c | c in path ensures '/' !in c { assert Component(c); }
    forall a ensures a in Ancestors(name) <==> Under(name, a) {
      if path == [] {
        assert (a + "/")[|a|] == '/';
      } else {
        JoinedUpTo(path, '/', a);
      }
    }
  }

  /** The ancestors of a path are the paths it begins with. */
  lemma AncestorsOfPath(path: Path)
    requires Components(path)
    ensures forall a :: a in Ancestors(Text(path)) <==> exists k :: 0 < k < |path| && a == Text(path[..k])
  {
    PartsOfText(path);
  }

  lemma CanonicalIsNamed(name: string)
    requires Canonical(name)
    ensures Named(name)
  {
    PartsAreComponents(name);
  }

  lemma UnderIsTransitive(name: string, folder: string, above: string)
    requires Under(name, folder) && Under(folder, above)
    ensures Under(name, above) && |above| < |folder|
  {
  }

  lemma AncestorsNest(name: string, a: string, b: string)
    requires a in Ancestors(name) && b in Ancestors(a)
    ensures b in Ancestors(name)
  {
    var k :| 0 < k < |Parts(name)| && a == Text(Parts(name)[..k]);
    AncestorParts(name, k);
    var m :| 0 < m < |Parts(a)| && b == Text(Parts(a)[..m]);
    assert Parts(a)[..m] == Parts(name)[..m];
  }
}
