/**
 The stable promotion gate: `validate_master_promotion`, `validate_upgrade_paths` and
 `validate_distribution_changes` of scripts/release_policy.py, in the order
 scripts/check-release-policy.py applies them, and what any history of accepted
 promotions guarantees to an operator upgrading along it.
 */
module Promotion {
  import opened Wrappers
  import opened Versions
  import Paths

  datatype Refused =
    | InvalidVersion | NotStable | WrongBranch | NotNewer
    | NoPaths | InvalidPath | WrongEnd | UnstableHop | Regression
    | EvidenceName | EvidenceDigest | EvidenceMissing | EvidenceChanged | EvidenceMalformed
    | NotPassed | WrongSource | NoPathFromPrevious
    | Oversized | CommitIds | ChannelMismatch | UiMismatch | PinsMismatch | NotAncestor | FrozenInputChanged
    | Unqualified | NoForwardEvidence | BackendMismatch | BackendUnsupported

  // Checks in order: the first that does not hold refuses

  datatype Check = Check(holds: bool, otherwise: Refused)

  ghost predicate Outcome(checks: seq<Check>, r: Status<Refused>) {
    if r.Pass? then forall c :: c in checks ==> c.holds
    else exists k :: 0 <= k < |checks| && FirstAt(checks, k) && checks[k].otherwise == r.error
  }

  ghost predicate FirstAt(checks: seq<Check>, k: nat) {
    k < |checks| && !checks[k].holds && forall j :: 0 <= j < k ==> checks[j].holds
  }

  /** The order of the checks determines the outcome. */
  lemma OutcomeIsUnique(checks: seq<Check>, r: Status<Refused>, s: Status<Refused>)
    requires Outcome(checks, r) && Outcome(checks, s)
    ensures r == s
  {
    if r.Fail? && s.Fail? {
      var k :| 0 <= k < |checks| && FirstAt(checks, k) && checks[k].otherwise == r.error;
      var l :| 0 <= l < |checks| && FirstAt(checks, l) && checks[l].otherwise == s.error;
      assert k == l;
    }
  }

  lemma OutcomeOfBoth(a: seq<Check>, b: seq<Check>, r: Status<Refused>)
    requires (r.Fail? && Outcome(a, r)) || (Outcome(a, Pass) && Outcome(b, r))
    ensures Outcome(a + b, r)
  {
    if r.Fail? && Outcome(a, r) {
      var k :| 0 <= k < |a| && FirstAt(a, k) && a[k].otherwise == r.error;
      assert FirstAt(a + b, k);
    } else if r.Fail? {
      var k :| 0 <= k < |b| && FirstAt(b, k) && b[k].otherwise == r.error;
      assert forall j :: 0 <= j < |a| ==> a[j].holds;
      assert (a + b)[|a| + k] == b[k];
      assert FirstAt(a + b, |a| + k);
    }
  }

  // Upgrade paths

  datatype Rehearsal = Rehearsal(passed: bool, sourceCommit: Option<string>, sources: map<string, string>)

  datatype Document = Malformed | NotAnObject | Record(rehearsal: Rehearsal)

  datatype Blob = Blob(length: nat, sha256: string, document: Document)

  /** An entry of `paths`; `versions` is None when the field is missing or not a list. */
  datatype UpgradePath = UpgradePath(versions: Option<seq<string>>, evidence: string, evidenceSha256: string)

  /** The `paths` field; None when it is missing or not a list, and so is an entry that is not an object. */
  type Declared = Option<seq<Option<UpgradePath>>>

  const MAX_PATHS := 64
  const MAX_VERSIONS := 16
  const MAX_DOCUMENT := 131072

  predicate EvidenceCharacter(c: char) {
    'A' <= c <= 'Z' || 'a' <= c <= 'z' || '0' <= c <= '9' || c in "._/-"
  }

  const RELEASES := "docs/releases/"
  const JSON := ".json"

  predicate EvidencePath(s: string) {
    && |RELEASES| + |JSON| < |s|
    && RELEASES <= s && s[|s| - |JSON|..] == JSON
    && (forall i :: |RELEASES| <= i < |s| - |JSON| ==> EvidenceCharacter(s[i]))
    && forall part :: part in Paths.Split(s, '/') ==> part !in {".", "..", ""}
  }

  /** A hexadecimal number of n lower-case digits. */
  predicate Hex(s: string, n: nat) {
    |s| == n && forall i :: 0 <= i < |s| ==> Digit(s[i]) || 'a' <= s[i] <= 'f'
  }

  predicate StrictlyOlder(a: string, b: string) {
    Parse(a).Ok? && Parse(b).Ok? && Older(Parse(a).value, Parse(b).value)
  }

  predicate Progresses(versions: seq<string>) {
    forall i :: 0 <= i < |versions| - 1 ==> StrictlyOlder(versions[i], versions[i + 1])
  }

  predicate EndsAt(path: UpgradePath, target: string) {
    && path.versions.Some?
    && 2 <= |path.versions.value| <= MAX_VERSIONS
    && path.versions.value[|path.versions.value| - 1] == target
  }

  predicate Unchanged(path: UpgradePath, blobs: map<string, Blob>) {
    && path.evidence in blobs
    && blobs[path.evidence].length <= MAX_DOCUMENT && blobs[path.evidence].sha256 == path.evidenceSha256
  }

  predicate Rehearsed(path: UpgradePath, blobs: map<string, Blob>) {
    && path.evidence in blobs && blobs[path.evidence].document.Record?
    && blobs[path.evidence].document.rehearsal.passed
  }

  /** The rehearsal was of the very source that is being released. */
  predicate Binds(path: UpgradePath, target: string, source: string, blobs: map<string, Blob>) {
    && path.evidence in blobs && blobs[path.evidence].document.Record?
    && var r := blobs[path.evidence].document.rehearsal;
       r.sourceCommit == Some(source) || (target in r.sources && r.sources[target] == source)
  }

  /** What a declared path must be. */
  predicate Tested(path: UpgradePath, target: string, source: string, blobs: map<string, Blob>) {
    && EndsAt(path, target)
    && (forall v :: v in path.versions.value ==> Stable(v))
    && Progresses(path.versions.value)
    && EvidencePath(path.evidence) && Hex(path.evidenceSha256, 64)
    && Unchanged(path, blobs) && Rehearsed(path, blobs) && Binds(path, target, source, blobs)
  }

  predicate StartsFrom(path: Option<UpgradePath>, previous: string) {
    && path.Some? && path.value.versions.Some?
    && var vs := path.value.versions.value;
    && vs != [] && previous in vs[..|vs| - 1]
  }

  function VersionChecks(versions: seq<string>): seq<Check> {
    seq(2 * |versions|, i requires 0 <= i < 2 * |versions| =>
      if i % 2 == 0 then Check(Parse(versions[i / 2]).Ok?, InvalidVersion)
      else Check(Stable(versions[i / 2]), UnstableHop))
  }

  function EvidenceChecks(path: UpgradePath, target: string, source: string, blobs: map<string, Blob>): seq<Check> {
    [Check(path.versions.Some? && Progresses(path.versions.value), Regression),
     Check(EvidencePath(path.evidence), EvidenceName),
     Check(Hex(path.evidenceSha256, 64), EvidenceDigest),
     Check(path.evidence in blobs, EvidenceMissing),
     Check(Unchanged(path, blobs), EvidenceChanged),
     Check(path.evidence in blobs && !blobs[path.evidence].document.Malformed?, EvidenceMalformed),
     Check(Rehearsed(path, blobs), NotPassed),
     Check(Binds(path, target, source, blobs), WrongSource)]
  }

  function PathChecks(path: Option<UpgradePath>, target: string, source: string, blobs: map<string, Blob>): seq<Check> {
    if path.None? then [Check(false, InvalidPath)]
    else if !EndsAt(path.value, target) then [Check(false, WrongEnd)]
    else VersionChecks(path.value.versions.value) + EvidenceChecks(path.value, target, source, blobs)
  }

  function AllPathChecks(paths: seq<Option<UpgradePath>>, target: string, source: string, blobs: map<string,
                         Blob>): seq<Check> {
    if paths == [] then []
    else AllPathChecks(paths[..|paths| - 1], target, source, blobs)
         + PathChecks(paths[|paths| - 1], target, source, blobs)
  }

  function UpgradeChecks(declared: Declared, previous: string, target: string, source: string, blobs: map<string,
                         Blob>): seq<Check> {
    if declared.None? || !(0 < |declared.value| <= MAX_PATHS) then [Check(false, NoPaths)]
    else AllPathChecks(declared.value, target, source, blobs)
         + [Check(exists p :: p in declared.value && StartsFrom(p, previous), NoPathFromPrevious)]
  }

  lemma VersionChecksAt(versions: seq<string>, i: nat)
    requires i < |versions|
    ensures |VersionChecks(versions)| == 2 * |versions|
    ensures VersionChecks(versions)[2 * i] == Check(Parse(versions[i]).Ok?, InvalidVersion)
    ensures VersionChecks(versions)[2 * i + 1] == Check(Stable(versions[i]), UnstableHop)
  {
    hide Parse, Stable;
  }

  /** The first n checks hold. */
  ghost predicate HoldsBelow(checks: seq<Check>, n: nat) {
    n <= |checks| && forall j :: 0 <= j < n ==> checks[j].holds
  }

  lemma NothingBelowZero(checks: seq<Check>)
    ensures HoldsBelow(checks, 0)
  {
  }

  lemma FailsAt(checks: seq<Check>, k: nat)
    requires HoldsBelow(checks, k) && k < |checks| && !checks[k].holds
    ensures Outcome(checks, Fail(checks[k].otherwise))
  {
    assert FirstAt(checks, k);
  }

  lemma HoldsFurther(checks: seq<Check>, n: nat)
    requires HoldsBelow(checks, n) && n < |checks| && checks[n].holds
    ensures HoldsBelow(checks, n + 1)
  {
  }

  lemma AllHold(versions: seq<string>)
    requires HoldsBelow(VersionChecks(versions), 2 * |versions|)
    ensures Outcome(VersionChecks(versions), Pass)
  {
    hide Parse, Stable;
    assert |VersionChecks(versions)| == 2 * |versions|;
  }

  /** The loop over the versions of one path. */
  method CheckVersions(versions: seq<string>) returns (r: Status<Refused>)
    ensures Outcome(VersionChecks(versions), r)
  {
    hide Parse, VersionChecks, Outcome, HoldsBelow;
    ghost var checks := VersionChecks(versions);
    NothingBelowZero(checks);
    var i := 0;
    while i < |versions|
      invariant 0 <= i <= |versions|
      invariant HoldsBelow(checks, 2 * i)
    {
      var v := Parse(versions[i]);
      VersionChecksAt(versions, i);
      if v.Err? {
        FailsAt(checks, 2 * i);
        return Fail(InvalidVersion);
      }
      HoldsFurther(checks, 2 * i);
      if v.value.kind.Some? {
        FailsAt(checks, 2 * i + 1);
        return Fail(UnstableHop);
      }
      HoldsFurther(checks, 2 * i + 1);
      i := i + 1;
    }
    AllHold(versions);
    r := Pass;
  }

  method CheckEvidence(path: UpgradePath, target: string, source: string, blobs: map<string, Blob>)
    returns (r: Status<Refused>)
    requires path.versions.Some?
    ensures Outcome(EvidenceChecks(path, target, source, blobs), r)
  {
    hide EvidencePath, Hex, Progresses;
    ghost var checks := EvidenceChecks(path, target, source, blobs);
    if !Progresses(path.versions.value) { assert FirstAt(checks, 0); return Fail(Regression); }
    if !EvidencePath(path.evidence) { assert FirstAt(checks, 1); return Fail(EvidenceName); }
    if !Hex(path.evidenceSha256, 64) { assert FirstAt(checks, 2); return Fail(EvidenceDigest); }
    if path.evidence !in blobs { assert FirstAt(checks, 3); return Fail(EvidenceMissing); }
    var data := blobs[path.evidence];
    if data.length > MAX_DOCUMENT || data.sha256 != path.evidenceSha256 {
      assert FirstAt(checks, 4);
      return Fail(EvidenceChanged);
    }
    if data.document.Malformed? { assert FirstAt(checks, 5); return Fail(EvidenceMalformed); }
    if data.document.NotAnObject? || !data.document.rehearsal.passed {
      assert FirstAt(checks, 6);
      return Fail(NotPassed);
    }
    var result := data.document.rehearsal;
    if result.sourceCommit != Some(source) && (target !in result.sources || result.sources[target] != source) {
      assert FirstAt(checks, 7);
      return Fail(WrongSource);
    }
    r := Pass;
  }

  method CheckPath(path: Option<UpgradePath>, target: string, source: string, blobs: map<string, Blob>)
    returns (r: Status<Refused>)
    ensures Outcome(PathChecks(path, target, source, blobs), r)
  {
    hide VersionChecks, EvidenceChecks;
    if path.None? {
      assert FirstAt(PathChecks(path, target, source, blobs), 0);
      return Fail(InvalidPath);
    }
    if !EndsAt(path.value, target) {
      assert FirstAt(PathChecks(path, target, source, blobs), 0);
      return Fail(WrongEnd);
    }
    r := CheckVersions(path.value.versions.value);
    if r.Pass? { r := CheckEvidence(path.value, target, source, blobs); }
    OutcomeOfBoth(VersionChecks(path.value.versions.value), EvidenceChecks(path.value, target, source, blobs), r);
  }

  /** `validate_upgrade_paths`. */
  method ValidateUpgradePaths(declared: Declared, previous: string, target: string, source: string,
                              blobs: map<string, Blob>)
    returns (r: Status<Refused>)
    ensures Outcome(UpgradeChecks(declared, previous, target, source, blobs), r)
    ensures r.Pass? <==> forall e :: !UpgradeComplaint(declared, previous, target, source, blobs, e)
    ensures r.Fail? ==> UpgradeComplaint(declared, previous, target, source, blobs, r.error)
  {
    r := CheckUpgradePaths(declared, previous, target, source, blobs);
    hide UpgradeChecks, UpgradeComplaint;
    UpgradePassIff(declared, previous, target, source, blobs);
    if r.Fail? { UpgradeComplains(declared, previous, target, source, blobs, r.error); }
  }

  /** Its loop over the paths. */
  method CheckUpgradePaths(declared: Declared, previous: string, target: string, source: string,
                           blobs: map<string, Blob>)
    returns (r: Status<Refused>)
    ensures Outcome(UpgradeChecks(declared, previous, target, source, blobs), r)
  {
    hide PathChecks, StartsFrom;
    if declared.None? || !(0 < |declared.value| <= MAX_PATHS) {
      assert FirstAt(UpgradeChecks(declared, previous, target, source, blobs), 0);
      return Fail(NoPaths);
    }
    var paths := declared.value;
    var supportsPrevious := false;
    var i := 0;
    ghost var last := [Check(exists p :: p in paths && StartsFrom(p, previous), NoPathFromPrevious)];
    while i < |paths|
      invariant 0 <= i <= |paths|
      invariant Outcome(AllPathChecks(paths[..i], target, source, blobs), Pass)
      invariant supportsPrevious <==> exists p :: p in paths[..i] && StartsFrom(p, previous)
    {
      assert paths[..i + 1][..i] == paths[..i];
      assert paths[..i + 1] == paths[..i] + [paths[i]];
      r := CheckPath(paths[i], target, source, blobs);
      OutcomeOfBoth(AllPathChecks(paths[..i], target, source, blobs), PathChecks(paths[i], target, source, blobs), r);
      if r.Fail? {
        MoreChecks(paths, i + 1, target, source, blobs, r);
        OutcomeOfBoth(AllPathChecks(paths, target, source, blobs), last, r);
        return;
      }
      supportsPrevious := supportsPrevious || StartsFrom(paths[i], previous);
      i := i + 1;
    }
    assert paths[..i] == paths;
    r := if supportsPrevious then Pass else Fail(NoPathFromPrevious);
    assert Outcome(last, r) by { if !supportsPrevious { assert FirstAt(last, 0); } }
    OutcomeOfBoth(AllPathChecks(paths, target, source, blobs), last, r);
  }

  /** A path that is refused decides, whatever follows it. */
  lemma {:induction false} MoreChecks(paths: seq<Option<UpgradePath>>, i: nat, target: string, source: string,
                                      blobs: map<string, Blob>, r: Status<Refused>)
    requires i <= |paths| && r.Fail? && Outcome(AllPathChecks(paths[..i], target, source, blobs), r)
    ensures Outcome(AllPathChecks(paths, target, source, blobs), r)
    decreases |paths| - i
  {
    hide PathChecks;
    if i == |paths| {
      assert paths[..i] == paths;
    } else {
      assert paths[..i + 1][..i] == paths[..i];
      OutcomeOfBoth(AllPathChecks(paths[..i], target, source, blobs), PathChecks(paths[i], target, source, blobs), r);
      MoreChecks(paths, i + 1, target, source, blobs, r);
    }
  }

  /** What acceptance means: every declared path was tested, and one starts at the previous release. */
  lemma AcceptedPathsAreTested(declared: Declared, previous: string, target: string, source: string,
                               blobs: map<string, Blob>)
    ensures Outcome(UpgradeChecks(declared, previous, target, source, blobs), Pass) <==>
      && declared.Some? && 0 < |declared.value| <= MAX_PATHS
      && (forall p :: p in declared.value ==> p.Some? && Tested(p.value, target, source, blobs))
      && exists p :: p in declared.value && StartsFrom(p, previous)
  {
    hide PathChecks, StartsFrom, Tested;
    if declared.Some? && 0 < |declared.value| <= MAX_PATHS {
      var paths := declared.value;
      AllPassIff(paths, target, source, blobs);
      var last := Check(exists p :: p in paths && StartsFrom(p, previous), NoPathFromPrevious);
      var all := AllPathChecks(paths, target, source, blobs);
      assert UpgradeChecks(declared, previous, target, source, blobs) == all + [last];
      assert Outcome(all + [last], Pass) <==> Outcome(all, Pass) && last.holds by {
        assert last in all + [last];
        assert forall c :: c in all ==> c in all + [last];
      }
    } else {
      assert Check(false, NoPaths) in UpgradeChecks(declared, previous, target, source, blobs);
    }
  }

  lemma {:induction false} AllPassIff(paths: seq<Option<UpgradePath>>, target: string, source: string,
                                      blobs: map<string, Blob>)
    ensures Outcome(AllPathChecks(paths, target, source, blobs), Pass) <==>
            forall p :: p in paths ==> p.Some? && Tested(p.value, target, source, blobs)
  {
    hide PathChecks, Tested;
    if paths != [] {
      var n := |paths| - 1;
      AllPassIff(paths[..n], target, source, blobs);
      PassIff(paths[n], target, source, blobs);
      BothPass(AllPathChecks(paths[..n], target, source, blobs), PathChecks(paths[n], target, source, blobs));
      assert paths == paths[..n] + [paths[n]];
    }
  }

  lemma BothPass(a: seq<Check>, b: seq<Check>)
    ensures Outcome(a + b, Pass) <==> Outcome(a, Pass) && Outcome(b, Pass)
  {
    assert forall c :: c in a + b <==> c in a || c in b;
  }

  lemma PassIff(path: Option<UpgradePath>, target: string, source: string, blobs: map<string, Blob>)
    ensures Outcome(PathChecks(path, target, source, blobs), Pass) <==>
      path.Some? && Tested(path.value, target, source, blobs)
  {
    hide EvidencePath, Hex, Progresses, Unchanged, Binds, StrictlyOlder, Parse;
    if path.None? || !EndsAt(path.value, target) {
      assert PathChecks(path, target, source, blobs)[0] in PathChecks(path, target, source, blobs);
    } else {
      VersionsPassIff(path.value.versions.value);
      EvidencePassIff(path.value, target, source, blobs);
      BothPass(VersionChecks(path.value.versions.value), EvidenceChecks(path.value, target, source, blobs));
    }
  }

  lemma VersionsPassIff(versions: seq<string>)
    ensures Outcome(VersionChecks(versions), Pass) <==> forall v :: v in versions ==> Stable(v)
  {
    hide Parse;
    var checks := VersionChecks(versions);
    if Outcome(checks, Pass) {
      forall v | v in versions ensures Stable(v) {
        var i :| 0 <= i < |versions| && versions[i] == v;
        assert checks[2 * i + 1] in checks;
      }
    } else {
      var c :| c in checks && !c.holds;
      var j :| 0 <= j < |checks| && checks[j] == c;
      assert versions[j / 2] in versions;
    }
  }

  lemma EvidencePassIff(path: UpgradePath, target: string, source: string, blobs: map<string, Blob>)
    ensures Outcome(EvidenceChecks(path, target, source, blobs), Pass) <==>
      && path.versions.Some? && Progresses(path.versions.value)
      && EvidencePath(path.evidence) && Hex(path.evidenceSha256, 64)
      && Unchanged(path, blobs) && Rehearsed(path, blobs) && Binds(path, target, source, blobs)
  {
    hide EvidencePath, Hex, Progresses, Binds;
    var checks := EvidenceChecks(path, target, source, blobs);
    assert forall i :: 0 <= i < |checks| ==> checks[i] in checks;
    if !Outcome(checks, Pass) { var c :| c in checks && !c.holds; }
    assert checks[0].holds && checks[1].holds && checks[2].holds && checks[4].holds
        && checks[6].holds && checks[7].holds
      ==> checks[3].holds && checks[5].holds;
  }

  /** Accepted evidence can only be read from the repository's release records. */
  lemma EvidenceStaysInReleases(s: string)
    requires EvidencePath(s)
    ensures var parts := Paths.Split(s, '/');
      |parts| >= 3 && parts[0] == "docs" && parts[1] == "releases" && ".." !in parts && "" !in parts
  {
    var rest := s[|RELEASES|..];
    assert s == "docs" + ['/'] + ("releases" + ['/'] + rest);
    Paths.SplitFirst("docs", '/', "releases" + ['/'] + rest);
    Paths.SplitFirst("releases", '/', rest);
  }

  // What a refusal complains of, in terms of the fields alone

  /** [0-9a-f]{n} */
  ghost predicate LowerHex(s: string, n: nat) {
    |s| == n && forall c :: c in s ==> c in "0123456789abcdef"
  }

  lemma HexIff(s: string, n: nat)
    ensures Hex(s, n) <==> LowerHex(s, n)
  {
    forall i | 0 <= i < |s| ensures (Digit(s[i]) || 'a' <= s[i] <= 'f') <==> s[i] in "0123456789abcdef" {
      HexCharacter(s[i]);
    }
    if Hex(s, n) {
      forall c | c in s ensures c in "0123456789abcdef" {
        var i :| 0 <= i < |s| && s[i] == c;
      }
    }
  }

  lemma HexCharacter(c: char)
    ensures (Digit(c) || 'a' <= c <= 'f') <==> c in "0123456789abcdef"
  {
    var all := "0123456789abcdef";
    if Digit(c) { assert all[c as int - '0' as int] == c; }
    if 'a' <= c <= 'f' { assert all[10 + (c as int - 'a' as int)] == c; }
  }

  /** docs/releases/[A-Za-z0-9._/-]+\.json, and no part that leads anywhere else. */
  ghost predicate ReleaseRecord(s: string) {
    && (exists m: string ::
          && m != [] && s == "docs/releases/" + m + ".json"
          && forall c :: c in m ==> 'A' <= c <= 'Z' || 'a' <= c <= 'z' || '0' <= c <= '9' || c in {'.', '_', '/', '-'})
    && forall part :: part in Paths.Split(s, '/') ==> part != "." && part != ".." && part != ""
  }

  lemma EvidencePathIff(s: string)
    ensures EvidencePath(s) <==> ReleaseRecord(s)
  {
    hide Paths.Split;
    if EvidencePath(s) {
      var m := s[|RELEASES|..|s| - |JSON|];
      assert s == RELEASES + m + JSON;
      forall c | c in m ensures EvidenceCharacter(c) {
        var i :| 0 <= i < |m| && m[i] == c;
        assert c == s[|RELEASES| + i];
      }
    }
    forall m: string | ReleaseRecord(s) && m != [] && s == "docs/releases/" + m + ".json"
        && forall c :: c in m ==> EvidenceCharacter(c)
      ensures EvidencePath(s)
    {
      assert s == RELEASES + (m + JSON) && s[|s| - |JSON|..] == JSON;
      forall i | |RELEASES| <= i < |s| - |JSON| ensures EvidenceCharacter(s[i]) { assert s[i] == m[i - |RELEASES|]; }
    }
  }

  lemma {:induction false} ContainsIff(text: string, part: string)
    ensures Contains(text, part) <==> exists a, b :: text == a + part + b
  {
    if part <= text { assert text == [] + part + text[|part|..]; }
    if text != [] {
      ContainsIff(text[1..], part);
      forall a, b | text[1..] == a + part + b ensures exists c: string, d: string :: text == c + part + d {
        assert text == ([text[0]] + a) + part + b;
      }
      forall a, b | text == a + part + b ensures Contains(text, part) {
        if a == [] {
          assert a + part + b == part + b;
        } else {
          assert text[1..] == a[1..] + part + b;
        }
      }
    }
  }

  /** A declared path. */
  ghost predicate PathComplaint(p: Option<UpgradePath>, target: string, source: string, blobs: map<string, Blob>,
                                e: Refused)
  {
    if p.None? then e == InvalidPath else
      var versions, name := p.value.versions, p.value.evidence;
      match e
      case WrongEnd =>
        versions.None? || !(2 <= |versions.value| <= 16) || versions.value[|versions.value| - 1] != target
      case InvalidVersion => versions.Some? && exists v :: v in versions.value && Parse(v).Err?
      case UnstableHop => versions.Some? && exists v :: v in versions.value && Parse(v).Ok? && Parse(v).value.kind.Some?
      case Regression => versions.Some? && exists i ::
        0 <= i < |versions.value| - 1 && !StrictlyOlder(versions.value[i], versions.value[i + 1])
      case EvidenceName => !ReleaseRecord(name)
      case EvidenceDigest => !LowerHex(p.value.evidenceSha256, 64)
      case EvidenceMissing => name !in blobs
      case EvidenceChanged => name in blobs
        && (blobs[name].length > 131072 || blobs[name].sha256 != p.value.evidenceSha256)
      case EvidenceMalformed => name in blobs && blobs[name].document.Malformed?
      case NotPassed => name in blobs
        && (blobs[name].document.NotAnObject?
            || (blobs[name].document.Record? && !blobs[name].document.rehearsal.passed))
      case WrongSource => name in blobs && blobs[name].document.Record?
        && var r := blobs[name].document.rehearsal;
           r.sourceCommit != Some(source) && !(target in r.sources && r.sources[target] == source)
      case _ => false
  }

  /** The whole declaration. */
  ghost predicate UpgradeComplaint(declared: Declared, previous: string, target: string, source: string,
                                   blobs: map<string, Blob>, e: Refused)
  {
    if declared.None? || |declared.value| == 0 || |declared.value| > 64 then e == NoPaths
    else if e == NoPathFromPrevious then
      forall p :: p in declared.value && p.Some? && p.value.versions.Some? && p.value.versions.value != [] ==>
        previous !in p.value.versions.value[..|p.value.versions.value| - 1]
    else exists p :: p in declared.value && PathComplaint(p, target, source, blobs, e)
  }

  lemma EitherFails(a: seq<Check>, b: seq<Check>, r: Status<Refused>)
    requires r.Fail? && Outcome(a + b, r)
    ensures Outcome(a, r) || (Outcome(a, Pass) && Outcome(b, r))
  {
    var k :| 0 <= k < |a + b| && FirstAt(a + b, k) && (a + b)[k].otherwise == r.error;
    assert forall j :: 0 <= j < |a| ==> (a + b)[j] == a[j];
    if k < |a| {
      forall j | 0 <= j < k ensures a[j].holds { assert a[j] == (a + b)[j]; }
      assert FirstAt(a, k);
    } else {
      forall j | 0 <= j < k - |a| ensures b[j].holds { assert b[j] == (a + b)[|a| + j]; }
      assert FirstAt(b, k - |a|);
    }
  }

  lemma VersionsComplain(p: UpgradePath, target: string, source: string, blobs: map<string, Blob>, e: Refused)
    requires p.versions.Some? && Outcome(VersionChecks(p.versions.value), Fail(e))
    ensures PathComplaint(Some(p), target, source, blobs, e)
  {
    hide Parse, ReleaseRecord, LowerHex, StrictlyOlder;
    var versions := p.versions.value;
    var k :| 0 <= k < |VersionChecks(versions)| && FirstAt(VersionChecks(versions), k)
             && VersionChecks(versions)[k].otherwise == e;
    VersionChecksAt(versions, k / 2);
    assert versions[k / 2] in versions;
  }

  lemma EvidenceComplains(p: UpgradePath, target: string, source: string, blobs: map<string, Blob>, e: Refused)
    requires p.versions.Some? && Outcome(EvidenceChecks(p, target, source, blobs), Fail(e))
    ensures PathComplaint(Some(p), target, source, blobs, e)
  {
    hide Parse, EvidencePath, Hex, StrictlyOlder, ReleaseRecord, LowerHex;
    EvidencePathIff(p.evidence);
    HexIff(p.evidenceSha256, 64);
    var checks := EvidenceChecks(p, target, source, blobs);
    var k :| 0 <= k < |checks| && FirstAt(checks, k) && checks[k].otherwise == e;
    assert k > 3 ==> checks[3].holds;
    assert k > 5 ==> checks[5].holds;
    assert k > 6 ==> checks[6].holds;
    if k == 0 {
      var i :| 0 <= i < |p.versions.value| - 1 && !StrictlyOlder(p.versions.value[i], p.versions.value[i + 1]);
    }
  }

  /** A path is refused only for what is wrong with it. */
  lemma PathComplains(p: Option<UpgradePath>, target: string, source: string, blobs: map<string, Blob>, e: Refused)
    requires Outcome(PathChecks(p, target, source, blobs), Fail(e))
    ensures PathComplaint(p, target, source, blobs, e)
  {
    hide VersionChecks, EvidenceChecks;
    if p.Some? && EndsAt(p.value, target) {
      EitherFails(VersionChecks(p.value.versions.value), EvidenceChecks(p.value, target, source, blobs), Fail(e));
      if Outcome(VersionChecks(p.value.versions.value), Fail(e)) {
        VersionsComplain(p.value, target, source, blobs, e);
      } else {
        EvidenceComplains(p.value, target, source, blobs, e);
      }
      hide PathComplaint;
    } else {
      hide ReleaseRecord, LowerHex, Parse, StrictlyOlder;
    }
  }

  lemma {:induction false} SomePathComplains(paths: seq<Option<UpgradePath>>, target: string, source: string,
                                             blobs: map<string, Blob>, e: Refused)
    requires Outcome(AllPathChecks(paths, target, source, blobs), Fail(e))
    ensures exists p :: p in paths && PathComplaint(p, target, source, blobs, e)
  {
    hide PathChecks, PathComplaint;
    var n := |paths| - 1;
    var before, last := AllPathChecks(paths[..n], target, source, blobs), PathChecks(paths[n], target, source, blobs);
    EitherFails(before, last, Fail(e));
    if Outcome(before, Fail(e)) {
      SomePathComplains(paths[..n], target, source, blobs, e);
    } else {
      PathComplains(paths[n], target, source, blobs, e);
    }
  }

  lemma PathErrors(p: Option<UpgradePath>, target: string, source: string, blobs: map<string, Blob>)
    ensures !PathComplaint(p, target, source, blobs, NoPathFromPrevious)
  {
  }

  /** The declaration is refused only for what is wrong with it. */
  lemma UpgradeComplains(declared: Declared, previous: string, target: string, source: string,
                         blobs: map<string, Blob>, e: Refused)
    requires Outcome(UpgradeChecks(declared, previous, target, source, blobs), Fail(e))
    ensures UpgradeComplaint(declared, previous, target, source, blobs, e)
  {
    hide PathChecks, PathComplaint;
    if declared.Some? && 0 < |declared.value| <= MAX_PATHS {
      var paths := declared.value;
      var last := [Check(exists p :: p in paths && StartsFrom(p, previous), NoPathFromPrevious)];
      var all := AllPathChecks(paths, target, source, blobs);
      EitherFails(all, last, Fail(e));
      if Outcome(all, Fail(e)) {
        SomePathComplains(paths, target, source, blobs, e);
        var p :| p in paths && PathComplaint(p, target, source, blobs, e);
        PathErrors(p, target, source, blobs);
      } else {
        assert e == NoPathFromPrevious;
      }
    }
  }

  /** Nothing is wrong with a tested path. */
  lemma TestedIsSound(p: UpgradePath, target: string, source: string, blobs: map<string, Blob>, e: Refused)
    requires Tested(p, target, source, blobs)
    ensures !PathComplaint(Some(p), target, source, blobs, e)
  {
    hide Parse, EvidencePath, Hex, StrictlyOlder, ReleaseRecord, LowerHex;
    EvidencePathIff(p.evidence);
    HexIff(p.evidenceSha256, 64);
    assert forall v :: v in p.versions.value ==> Stable(v);
  }

  /** The declaration passes exactly if nothing is wrong with it. */
  lemma UpgradePassIff(declared: Declared, previous: string, target: string, source: string, blobs: map<string, Blob>)
    ensures Outcome(UpgradeChecks(declared, previous, target, source, blobs), Pass) <==>
      forall e :: !UpgradeComplaint(declared, previous, target, source, blobs, e)
  {
    AcceptedPathsAreTested(declared, previous, target, source, blobs);
    if Outcome(UpgradeChecks(declared, previous, target, source, blobs), Pass) {
      forall e ensures !UpgradeComplaint(declared, previous, target, source, blobs, e) {
        TestedUpgradesAreSound(declared, previous, target, source, blobs, e);
      }
    } else {
      hide UpgradeChecks, UpgradeComplaint, Tested, StartsFrom;
      var e := SomeRefusal(UpgradeChecks(declared, previous, target, source, blobs));
      UpgradeComplains(declared, previous, target, source, blobs, e);
    }
  }

  lemma TestedUpgradesAreSound(declared: Declared, previous: string, target: string, source: string,
                               blobs: map<string, Blob>, e: Refused)
    requires declared.Some? && 0 < |declared.value| <= MAX_PATHS
    requires forall p :: p in declared.value ==> p.Some? && Tested(p.value, target, source, blobs)
    requires exists p :: p in declared.value && StartsFrom(p, previous)
    ensures !UpgradeComplaint(declared, previous, target, source, blobs, e)
  {
    hide Tested, PathComplaint;
    forall p | p in declared.value ensures !PathComplaint(p, target, source, blobs, e) {
      TestedIsSound(p.value, target, source, blobs, e);
    }
  }

  /** Checks that do not all hold refuse something. */
  lemma {:induction false} SomeRefusal(checks: seq<Check>) returns (e: Refused)
    requires !Outcome(checks, Pass)
    ensures Outcome(checks, Fail(e))
    decreases |checks|
  {
    var n := |checks| - 1;
    if Outcome(checks[..n], Pass) {
      e := checks[n].otherwise;
      assert forall j :: 0 <= j < n ==> checks[j] in checks[..n];
      assert checks == checks[..n] + [checks[n]];
      assert FirstAt(checks, n);
    } else {
      e := SomeRefusal(checks[..n]);
      var k :| 0 <= k < n && FirstAt(checks[..n], k) && checks[..n][k].otherwise == e;
      forall j | 0 <= j < k ensures checks[j].holds { assert checks[j] == checks[..n][j]; }
      assert FirstAt(checks, k);
    }
  }

  // The gate

  datatype Manifest = Manifest(version: string, channel: string)

  datatype Pins = Pins(version: string, sourceCommit: string, backendSha256: string)

  datatype Qualification = Qualification(version: string, sourceCommit: string, passed: bool, nonDestructive: bool,
                                         evidenceSha256: string, paths: Declared, backendSha256: string)

  /** A JSON document of the base or head commit, with the length of its text. */
  datatype Sized<T> = Sized(length: nat, value: T)

  /** A pull request against master, and what git reports about it. */
  datatype Request = Request(
    base: string, head: string, branch: string,
    published: Sized<Manifest>, root: Sized<Manifest>, component: Sized<Manifest>,
    ui: string, pins: Sized<Pins>,
    descends: bool,               // the frozen source is an ancestor of the head
    changed: seq<string>,         // paths that differ between the frozen source and the head
    record: Sized<Qualification>, blobs: map<string, Blob>,
    frozenDigest: Option<string>) // None when the frozen backend holds something other than plain files

  const GOVERNANCE_FILES: set<string> := {
    "AGENTS.md", "CONTRIBUTING.md",
    "scripts/release_policy.py", "scripts/check-release-policy.py", "scripts/test-release-policy.py"}

  const DOCS := "docs/"

  /** What may still change after the artifacts are frozen. */
  predicate MayChange(path: string) {
    path in GOVERNANCE_FILES || path == "native/bootstrap/release.json" || path == "README.md" || DOCS <= path
  }

  predicate Contains(text: string, part: string) {
    part <= text || (text != [] && Contains(text[1..], part))
  }

  /** `validate_distribution_changes`. */
  method ValidateDistributionChanges(paths: seq<string>) returns (r: Status<Refused>)
    ensures r == if forall p :: p in paths ==> MayChange(p) then Pass else Fail(FrozenInputChanged)
  {
    hide MayChange;
    for i := 0 to |paths|
      invariant forall j :: 0 <= j < i ==> MayChange(paths[j])
    {
      if !MayChange(paths[i]) { return Fail(FrozenInputChanged); }
    }
    r := Pass;
  }

  function MasterChecks(previous: string, target: string, branch: string): seq<Check> {
    [Check(Parse(target).Ok?, InvalidVersion),
     Check(Stable(target), NotStable),
     Check(branch == "release/" + target, WrongBranch),
     Check(Parse(previous).Ok?, InvalidVersion),
     Check(StrictlyOlder(previous, target), NotNewer)]
  }

  /** `validate_master_promotion`. */
  method ValidateMasterPromotion(previous: string, target: string, branch: string) returns (r: Status<Refused>)
    ensures Outcome(MasterChecks(previous, target, branch), r)
  {
    hide Parse, Less;
    ghost var checks := MasterChecks(previous, target, branch);
    var next := Parse(target);
    if next.Err? { assert FirstAt(checks, 0); return Fail(InvalidVersion); }
    if next.value.kind.Some? { assert FirstAt(checks, 1); return Fail(NotStable); }
    if branch != "release/" + target { assert FirstAt(checks, 2); return Fail(WrongBranch); }
    var last := Parse(previous);
    if last.Err? { assert FirstAt(checks, 3); return Fail(InvalidVersion); }
    if !Less(OrderKey(last.value), OrderKey(next.value)) { assert FirstAt(checks, 4); return Fail(NotNewer); }
    r := Pass;
  }

  function EntryChecks(pr: Request): seq<Check> {
    [Check(Hex(pr.base, 40) && Hex(pr.head, 40), CommitIds),
     Check(pr.published.length <= MAX_DOCUMENT, Oversized),
     Check(pr.root.length <= MAX_DOCUMENT, Oversized),
     Check(pr.component.length <= MAX_DOCUMENT, Oversized)]
  }

  function FreezeChecks(pr: Request): seq<Check> {
    var target, pins, record := pr.root.value.version, pr.pins.value, pr.record.value;
    [Check(pr.root.value.channel == "stable" && pr.component.value.channel == "stable"
           && pr.component.value.version == target, ChannelMismatch),
     Check(Contains(pr.ui, "property string applicationVersion: " + "\"" + target + "\""), UiMismatch),
     Check(pr.pins.length <= MAX_DOCUMENT, Oversized),
     Check(pins.version == target && Hex(pins.sourceCommit, 40), PinsMismatch),
     Check(pr.descends, NotAncestor),
     Check(forall p :: p in pr.changed ==> MayChange(p), FrozenInputChanged),
     Check(pr.record.length <= MAX_DOCUMENT, Oversized),
     Check(record.version == target && record.sourceCommit == pins.sourceCommit, Unqualified),
     Check(record.passed && record.nonDestructive && Hex(record.evidenceSha256, 64), NoForwardEvidence)]
  }

  function BackendChecks(pr: Request): seq<Check> {
    var pins := pr.pins.value;
    [Check(Hex(pins.backendSha256, 64) && pr.record.value.backendSha256 == pins.backendSha256, BackendMismatch),
     Check(pr.frozenDigest.Some?, BackendUnsupported),
     Check(pr.frozenDigest == Some(pins.backendSha256), BackendMismatch)]
  }

  function PathsOf(pr: Request): seq<Check> {
    UpgradeChecks(pr.record.value.paths, pr.published.value.version, pr.root.value.version,
                  pr.pins.value.sourceCommit, pr.blobs)
  }

  function MasterOf(pr: Request): seq<Check> {
    MasterChecks(pr.published.value.version, pr.root.value.version, pr.branch)
  }

  function GateChecks(pr: Request): seq<Check> {
    EntryChecks(pr) + (MasterOf(pr) + (FreezeChecks(pr) + (PathsOf(pr) + BackendChecks(pr))))
  }

  method CheckEntry(pr: Request) returns (r: Status<Refused>)
    ensures Outcome(EntryChecks(pr), r)
  {
    hide Hex;
    ghost var checks := EntryChecks(pr);
    if !Hex(pr.base, 40) || !Hex(pr.head, 40) { assert FirstAt(checks, 0); return Fail(CommitIds); }
    if pr.published.length > MAX_DOCUMENT { assert FirstAt(checks, 1); return Fail(Oversized); }
    if pr.root.length > MAX_DOCUMENT { assert FirstAt(checks, 2); return Fail(Oversized); }
    if pr.component.length > MAX_DOCUMENT { assert FirstAt(checks, 3); return Fail(Oversized); }
    r := Pass;
  }

  method CheckFreeze(pr: Request) returns (r: Status<Refused>)
    ensures Outcome(FreezeChecks(pr), r)
  {
    hide Hex, Contains, MayChange;
    ghost var checks := FreezeChecks(pr);
    var target, pins, record := pr.root.value.version, pr.pins.value, pr.record.value;
    if pr.root.value.channel != "stable" || pr.component.value.channel != "stable"
         || pr.component.value.version != target {
      assert FirstAt(checks, 0);
      return Fail(ChannelMismatch);
    }
    if !Contains(pr.ui, "property string applicationVersion: " + "\"" + target + "\"") {
      assert FirstAt(checks, 1);
      return Fail(UiMismatch);
    }
    if pr.pins.length > MAX_DOCUMENT { assert FirstAt(checks, 2); return Fail(Oversized); }
    if pins.version != target || !Hex(pins.sourceCommit, 40) { assert FirstAt(checks, 3); return Fail(PinsMismatch); }
    if !pr.descends { assert FirstAt(checks, 4); return Fail(NotAncestor); }
    var frozen := ValidateDistributionChanges(pr.changed);
    if frozen.Fail? { assert FirstAt(checks, 5); return frozen; }
    if pr.record.length > MAX_DOCUMENT { assert FirstAt(checks, 6); return Fail(Oversized); }
    if record.version != target || record.sourceCommit != pins.sourceCommit {
      assert FirstAt(checks, 7);
      return Fail(Unqualified);
    }
    if !record.passed || !record.nonDestructive || !Hex(record.evidenceSha256, 64) {
      assert FirstAt(checks, 8);
      return Fail(NoForwardEvidence);
    }
    r := Pass;
  }

  method CheckBackend(pr: Request) returns (r: Status<Refused>)
    ensures Outcome(BackendChecks(pr), r)
  {
    hide Hex;
    ghost var checks := BackendChecks(pr);
    var pins := pr.pins.value;
    if !Hex(pins.backendSha256, 64) || pr.record.value.backendSha256 != pins.backendSha256 {
      assert FirstAt(checks, 0);
      return Fail(BackendMismatch);
    }
    if pr.frozenDigest.None? { assert FirstAt(checks, 1); return Fail(BackendUnsupported); }
    if pr.frozenDigest.value != pins.backendSha256 { assert FirstAt(checks, 2); return Fail(BackendMismatch); }
    r := Pass;
  }

  // What the gate may complain of, in terms of the request's fields alone

  /** What may still change once the artifacts are frozen. */
  ghost predicate FreeOfFreeze(path: string) {
    || path in {"AGENTS.md", "CONTRIBUTING.md", "README.md", "native/bootstrap/release.json",
                "scripts/release_policy.py", "scripts/check-release-policy.py", "scripts/test-release-policy.py"}
    || "docs/" <= path
  }

  lemma MayChangeIff(path: string)
    ensures MayChange(path) <==> FreeOfFreeze(path)
  {
  }

  /** Each refusal, and the requests it is for. */
  ghost predicate Complaint(pr: Request, e: Refused) {
    var previous, target := pr.published.value.version, pr.root.value.version;
    var pins, record := pr.pins.value, pr.record.value;
    || OwnComplaint(pr, previous, target, pins, record, e)
    || UpgradeComplaint(record.paths, previous, target, pins.sourceCommit, pr.blobs, e)
  }

  ghost predicate OwnComplaint(pr: Request, previous: string, target: string, pins: Pins, record: Qualification,
                               e: Refused)
  {
    match e
    case CommitIds => !LowerHex(pr.base, 40) || !LowerHex(pr.head, 40)
    case Oversized =>
      || pr.published.length > 131072 || pr.root.length > 131072 || pr.component.length > 131072
      || pr.pins.length > 131072 || pr.record.length > 131072
    case InvalidVersion => Parse(target).Err? || Parse(previous).Err?
    case NotStable => Parse(target).Ok? && Parse(target).value.kind.Some?
    case WrongBranch => pr.branch != "release/" + target
    case NotNewer => Parse(previous).Ok? && Parse(target).Ok? && !Older(Parse(previous).value, Parse(target).value)
    case ChannelMismatch =>
      || pr.root.value.channel != "stable" || pr.component.value.channel != "stable"
      || pr.component.value.version != target
    case UiMismatch => !exists a, b :: pr.ui == a + ("property string applicationVersion: \"" + target + "\"") + b
    case PinsMismatch => pins.version != target || !LowerHex(pins.sourceCommit, 40)
    case NotAncestor => !pr.descends
    case FrozenInputChanged => exists p :: p in pr.changed && !FreeOfFreeze(p)
    case Unqualified => record.version != target || record.sourceCommit != pins.sourceCommit
    case NoForwardEvidence => !record.passed || !record.nonDestructive || !LowerHex(record.evidenceSha256, 64)
    case BackendMismatch =>
      || !LowerHex(pins.backendSha256, 64) || record.backendSha256 != pins.backendSha256
      || (pr.frozenDigest.Some? && pr.frozenDigest.value != pins.backendSha256)
    case BackendUnsupported => pr.frozenDigest.None?
    case _ => false
  }

  /** Only requests a refusal is for get it from a check that is reached. */
  ghost predicate Complains(pr: Request, checks: seq<Check>) {
    forall e :: Outcome(checks, Fail(e)) ==> Complaint(pr, e)
  }

  lemma HexesIff(pr: Request)
    ensures Hex(pr.base, 40) <==> LowerHex(pr.base, 40)
    ensures Hex(pr.head, 40) <==> LowerHex(pr.head, 40)
    ensures Hex(pr.pins.value.sourceCommit, 40) <==> LowerHex(pr.pins.value.sourceCommit, 40)
    ensures Hex(pr.pins.value.backendSha256, 64) <==> LowerHex(pr.pins.value.backendSha256, 64)
    ensures Hex(pr.record.value.evidenceSha256, 64) <==> LowerHex(pr.record.value.evidenceSha256, 64)
  {
    HexIff(pr.base, 40);
    HexIff(pr.head, 40);
    HexIff(pr.pins.value.sourceCommit, 40);
    HexIff(pr.pins.value.backendSha256, 64);
    HexIff(pr.record.value.evidenceSha256, 64);
  }

  lemma UiIff(pr: Request)
    ensures Contains(pr.ui, "property string applicationVersion: " + "\"" + Target(pr) + "\"") <==>
      exists a, b :: pr.ui == a + ("property string applicationVersion: \"" + Target(pr) + "\"") + b
  {
    var text := "property string applicationVersion: " + "\"" + Target(pr) + "\"";
    assert text == "property string applicationVersion: \"" + Target(pr) + "\"";
    ContainsIff(pr.ui, text);
  }

  lemma EntryComplains(pr: Request)
    ensures Complains(pr, EntryChecks(pr))
  {
    hide Hex, LowerHex, UpgradeComplaint, Parse;
    HexesIff(pr);
  }

  lemma MasterComplains(pr: Request)
    ensures Complains(pr, MasterOf(pr))
  {
    hide Hex, LowerHex, UpgradeComplaint, Parse, Older;
    forall e | Outcome(MasterOf(pr), Fail(e)) ensures Complaint(pr, e) {
      var k :| 0 <= k < 5 && FirstAt(MasterOf(pr), k) && MasterOf(pr)[k].otherwise == e;
      assert k > 0 ==> MasterOf(pr)[0].holds;
      assert k > 3 ==> MasterOf(pr)[3].holds;
    }
  }

  lemma FreezeComplains(pr: Request)
    ensures Complains(pr, FreezeChecks(pr))
  {
    hide Complaint, FreezeChecks;
    forall e | Outcome(FreezeChecks(pr), Fail(e)) ensures Complaint(pr, e) {
      var k :| 0 <= k < |FreezeChecks(pr)| && FirstAt(FreezeChecks(pr), k) && FreezeChecks(pr)[k].otherwise == e;
      FrozenForReason(pr, k);
    }
  }

  lemma FrozenForReason(pr: Request, k: nat)
    requires k < |FreezeChecks(pr)| && !FreezeChecks(pr)[k].holds
    ensures Complaint(pr, FreezeChecks(pr)[k].otherwise)
  {
    hide Hex, LowerHex, UpgradeComplaint, Parse, MayChange, FreeOfFreeze, Contains;
    HexesIff(pr);
    if k == 1 {
      UiIff(pr);
    } else if k == 5 {
      var p :| p in pr.changed && !MayChange(p);
      MayChangeIff(p);
    }
  }

  lemma BackendComplains(pr: Request)
    ensures Complains(pr, BackendChecks(pr))
  {
    hide Hex, LowerHex, UpgradeComplaint, Parse;
    HexesIff(pr);
    var checks := BackendChecks(pr);
    forall e | Outcome(checks, Fail(e)) ensures Complaint(pr, e) {
      var k :| 0 <= k < 3 && FirstAt(checks, k) && checks[k].otherwise == e;
      assert k > 1 ==> checks[1].holds;
    }
  }

  lemma PathsComplain(pr: Request)
    ensures Complains(pr, PathsOf(pr))
  {
    hide UpgradeComplaint, UpgradeChecks, OwnComplaint;
    forall e | Outcome(PathsOf(pr), Fail(e)) ensures Complaint(pr, e) {
      UpgradeComplains(pr.record.value.paths, Published(pr), Target(pr), Source(pr), pr.blobs, e);
    }
  }

  lemma BothComplain(pr: Request, a: seq<Check>, b: seq<Check>)
    requires Complains(pr, a) && Complains(pr, b)
    ensures Complains(pr, a + b)
  {
    hide Complaint, Outcome;
    forall e | Outcome(a + b, Fail(e)) ensures Complaint(pr, e) { EitherFails(a, b, Fail(e)); }
  }

  /** A request is refused only for what is wrong with it. */
  lemma GateComplains(pr: Request)
    ensures Complains(pr, GateChecks(pr))
  {
    hide Complains, EntryChecks, MasterChecks, FreezeChecks, BackendChecks, UpgradeChecks;
    EntryComplains(pr);
    MasterComplains(pr);
    FreezeComplains(pr);
    PathsComplain(pr);
    BackendComplains(pr);
    BothComplain(pr, PathsOf(pr), BackendChecks(pr));
    BothComplain(pr, FreezeChecks(pr), PathsOf(pr) + BackendChecks(pr));
    BothComplain(pr, MasterOf(pr), FreezeChecks(pr) + (PathsOf(pr) + BackendChecks(pr)));
    BothComplain(pr, EntryChecks(pr), MasterOf(pr) + (FreezeChecks(pr) + (PathsOf(pr) + BackendChecks(pr))));
  }

  lemma PassingIsSound(pr: Request, e: Refused)
    requires Outcome(EntryChecks(pr), Pass) && Outcome(MasterOf(pr), Pass)
    requires Outcome(FreezeChecks(pr), Pass) && Outcome(BackendChecks(pr), Pass)
    ensures !OwnComplaint(pr, Published(pr), Target(pr), pr.pins.value, pr.record.value, e)
  {
    hide Hex, LowerHex, Parse, MayChange, FreeOfFreeze, Contains;
    HexesIff(pr);
    UiIff(pr);
    forall p | p in pr.changed ensures MayChange(p) <==> FreeOfFreeze(p) { MayChangeIff(p); }
    forall i | 0 <= i < 4 ensures EntryChecks(pr)[i].holds { assert EntryChecks(pr)[i] in EntryChecks(pr); }
    forall i | 0 <= i < 5 ensures MasterOf(pr)[i].holds { assert MasterOf(pr)[i] in MasterOf(pr); }
    forall i | 0 <= i < 9 ensures FreezeChecks(pr)[i].holds { assert FreezeChecks(pr)[i] in FreezeChecks(pr); }
    forall i | 0 <= i < 3 ensures BackendChecks(pr)[i].holds { assert BackendChecks(pr)[i] in BackendChecks(pr); }
  }

  /** Acceptance, without the checks: nothing any refusal is for. */
  lemma AcceptedIff(pr: Request)
    ensures Accepted(pr) <==> forall e :: !Complaint(pr, e)
  {
    hide EntryChecks, MasterChecks, FreezeChecks, BackendChecks, UpgradeChecks, UpgradeComplaint, OwnComplaint, Outcome;
    if Accepted(pr) {
      BothPass(EntryChecks(pr), MasterOf(pr) + (FreezeChecks(pr) + (PathsOf(pr) + BackendChecks(pr))));
      BothPass(MasterOf(pr), FreezeChecks(pr) + (PathsOf(pr) + BackendChecks(pr)));
      BothPass(FreezeChecks(pr), PathsOf(pr) + BackendChecks(pr));
      BothPass(PathsOf(pr), BackendChecks(pr));
      UpgradePassIff(pr.record.value.paths, Published(pr), Target(pr), Source(pr), pr.blobs);
      forall e ensures !Complaint(pr, e) { PassingIsSound(pr, e); }
    } else {
      var e := SomeRefusal(GateChecks(pr));
      GateComplains(pr);
    }
  }

  /** `main` of the gate, for a pull request against master. */
  method Gate(pr: Request) returns (r: Status<Refused>)
    ensures Outcome(GateChecks(pr), r)
    // A request passes exactly if no refusal is for it, and is refused only for what is wrong with it.
    ensures r.Pass? <==> forall e :: !Complaint(pr, e)
    ensures r.Fail? ==> Complaint(pr, r.error)
  {
    r := ApplyChecks(pr);
    AcceptedIff(pr);
    GateComplains(pr);
    hide Outcome, GateChecks, Complaint;
  }

  /** The checks in the order of `main`. */
  method ApplyChecks(pr: Request) returns (r: Status<Refused>)
    ensures Outcome(GateChecks(pr), r)
  {
    hide Outcome, EntryChecks, FreezeChecks, BackendChecks, MasterChecks, UpgradeChecks;
    var a, b, c := EntryChecks(pr), MasterOf(pr), FreezeChecks(pr);
    var d, e := PathsOf(pr), BackendChecks(pr);
    r := CheckEntry(pr);
    if r.Fail? { OutcomeOfBoth(a, b + (c + (d + e)), r); return; }
    r := ValidateMasterPromotion(pr.published.value.version, pr.root.value.version, pr.branch);
    if r.Fail? { OutcomeOfBoth(b, c + (d + e), r); OutcomeOfBoth(a, b + (c + (d + e)), r); return; }
    r := CheckFreeze(pr);
    if r.Pass? {
      r := ValidateUpgradePaths(pr.record.value.paths, pr.published.value.version, pr.root.value.version,
                                pr.pins.value.sourceCommit, pr.blobs);
      if r.Pass? { r := CheckBackend(pr); }
      OutcomeOfBoth(d, e, r);
    }
    OutcomeOfBoth(c, d + e, r);
    OutcomeOfBoth(b, c + (d + e), r);
    OutcomeOfBoth(a, b + (c + (d + e)), r);
  }

  // Histories of accepted promotions

  ghost predicate Accepted(pr: Request) {
    Outcome(GateChecks(pr), Pass)
  }

  function Published(pr: Request): string {
    pr.published.value.version
  }

  function Target(pr: Request): string {
    pr.root.value.version
  }

  function Source(pr: Request): string {
    pr.pins.value.sourceCommit
  }

  /** What the theorems below need of an accepted promotion. */
  lemma AcceptedIsForward(pr: Request)
    requires Accepted(pr)
    ensures Stable(Target(pr)) && StrictlyOlder(Published(pr), Target(pr))
    ensures pr.record.value.paths.Some?
    ensures forall p :: p in pr.record.value.paths.value ==>
      p.Some? && Tested(p.value, Target(pr), Source(pr), pr.blobs)
    ensures exists p :: p in pr.record.value.paths.value && StartsFrom(p, Published(pr))
    ensures forall p :: p in pr.changed ==> MayChange(p)
    ensures pr.frozenDigest == Some(pr.pins.value.backendSha256)
  {
    hide Hex, Contains, MayChange, Parse, Tested, StartsFrom, UpgradeChecks, Stable, StrictlyOlder;
    BothPass(EntryChecks(pr), MasterOf(pr) + (FreezeChecks(pr) + (PathsOf(pr) + BackendChecks(pr))));
    BothPass(MasterOf(pr), FreezeChecks(pr) + (PathsOf(pr) + BackendChecks(pr)));
    BothPass(FreezeChecks(pr), PathsOf(pr) + BackendChecks(pr));
    BothPass(PathsOf(pr), BackendChecks(pr));
    assert MasterOf(pr)[1] in MasterOf(pr) && MasterOf(pr)[4] in MasterOf(pr);
    assert FreezeChecks(pr)[5] in FreezeChecks(pr);
    assert BackendChecks(pr)[2] in BackendChecks(pr);
    AcceptedPathsAreTested(pr.record.value.paths, Published(pr), Target(pr), Source(pr), pr.blobs);
  }

  /** The version master has after i promotions from `start`. */
  function VersionAt(start: string, history: seq<Request>, i: nat): string
    requires i <= |history|
  {
    if i == 0 then start else Target(history[i - 1])
  }

  /** Each promotion was accepted against the version the one before it published. */
  ghost predicate IsHistory(start: string, history: seq<Request>) {
    forall i :: 0 <= i < |history| ==> Accepted(history[i]) && Published(history[i]) == VersionAt(start, history, i)
  }

  lemma StrictlyOlderTransitive(a: string, b: string, c: string)
    requires StrictlyOlder(a, b) && StrictlyOlder(b, c)
    ensures StrictlyOlder(a, c)
  {
    hide Parse;
    OrderIsTotal(Parse(a).value, Parse(b).value, Parse(c).value);
  }

  lemma LastStep(start: string, history: seq<Request>, j: nat)
    requires IsHistory(start, history) && 0 < j <= |history|
    ensures Accepted(history[j - 1]) && Published(history[j - 1]) == VersionAt(start, history, j - 1)
    ensures Target(history[j - 1]) == VersionAt(start, history, j)
    ensures StrictlyOlder(VersionAt(start, history, j - 1), VersionAt(start, history, j))
  {
    hide Accepted, StrictlyOlder, Tested, StartsFrom, MayChange, Stable;
    AcceptedIsForward(history[j - 1]);
  }

  /** Versions strictly increase along any history. */
  lemma {:induction false} VersionsRise(start: string, history: seq<Request>, i: nat, j: nat)
    requires IsHistory(start, history) && i < j <= |history|
    ensures StrictlyOlder(VersionAt(start, history, i), VersionAt(start, history, j))
  {
    hide Accepted, StrictlyOlder, IsHistory, VersionAt;
    LastStep(start, history, j);
    if i < j - 1 {
      VersionsRise(start, history, i, j - 1);
      StrictlyOlderTransitive(VersionAt(start, history, i), VersionAt(start, history, j - 1),
                              VersionAt(start, history, j));
    }
  }

  /** No published version is ever published again. */
  lemma NoVersionRecurs(start: string, history: seq<Request>, i: nat, j: nat)
    requires IsHistory(start, history) && i < j <= |history|
    ensures VersionAt(start, history, i) != VersionAt(start, history, j)
  {
    hide Parse, IsHistory;
    VersionsRise(start, history, i, j);
  }

  /** Some accepted promotion recorded a passed rehearsal of a path with the hop from a to b. */
  ghost predicate RecordedHop(history: seq<Request>, a: string, b: string) {
    exists pr, p, n: nat :: pr in history && HopOf(pr, p, n, a, b)
  }

  ghost predicate HopOf(pr: Request, p: Option<UpgradePath>, n: nat, a: string, b: string) {
    && pr.record.value.paths.Some? && p in pr.record.value.paths.value && p.Some?
    && Tested(p.value, Target(pr), Source(pr), pr.blobs)
    && n + 1 < |p.value.versions.value| && p.value.versions.value[n] == a && p.value.versions.value[n + 1] == b
  }

  /** A strictly increasing chain of stable versions, every hop of which was rehearsed. */
  ghost predicate TestedChain(history: seq<Request>, chain: seq<string>) {
    && chain != []
    && Progresses(chain)
    && (forall v :: v in chain ==> Stable(v))
    && forall k :: 0 <= k < |chain| - 1 ==> RecordedHop(history, chain[k], chain[k + 1])
  }

  /** The part of a recorded path that starts at the version being replaced. */
  lemma ChainOfOne(pr: Request) returns (chain: seq<string>)
    requires Accepted(pr)
    ensures TestedChain([pr], chain) && |chain| >= 2
    ensures chain[0] == Published(pr) && chain[|chain| - 1] == Target(pr)
  {
    hide Accepted, Tested, StartsFrom, MayChange, Stable, StrictlyOlder, TestedChain;
    AcceptedIsForward(pr);
    var p :| p in pr.record.value.paths.value && StartsFrom(p, Published(pr));
    chain := ChainOfPath(pr, p);
  }

  lemma ChainOfPath(pr: Request, p: Option<UpgradePath>) returns (chain: seq<string>)
    requires pr.record.value.paths.Some? && p in pr.record.value.paths.value && p.Some?
    requires Tested(p.value, Target(pr), Source(pr), pr.blobs) && StartsFrom(p, Published(pr))
    ensures TestedChain([pr], chain) && |chain| >= 2
    ensures chain[0] == Published(pr) && chain[|chain| - 1] == Target(pr)
  {
    hide EvidencePath, Hex, Unchanged, Rehearsed, Binds, Stable, StrictlyOlder;
    var vs := p.value.versions.value;
    var m :| 0 <= m < |vs| - 1 && vs[m] == Published(pr);
    chain := vs[m..];
    forall k | 0 <= k < |chain| - 1 ensures RecordedHop([pr], chain[k], chain[k + 1]) {
      assert HopOf(pr, p, m + k, chain[k], chain[k + 1]);
    }
    forall v | v in chain ensures Stable(v) { assert v in vs; }
  }

  lemma Composed(history: seq<Request>, a: seq<string>, b: seq<string>)
    requires TestedChain(history, a) && TestedChain(history, b) && a[|a| - 1] == b[0]
    ensures TestedChain(history, a + b[1..])
  {
    hide RecordedHop, Stable, StrictlyOlder;
    var c := a + b[1..];
    forall k | 0 <= k < |c| - 1 ensures RecordedHop(history, c[k], c[k + 1]) && StrictlyOlder(c[k], c[k + 1]) {
      if k >= |a| - 1 { assert c[k] == b[k - |a| + 1] && c[k + 1] == b[k - |a| + 2]; }
    }
  }

  lemma MoreHistory(few: seq<Request>, history: seq<Request>, chain: seq<string>)
    requires TestedChain(few, chain) && forall pr :: pr in few ==> pr in history
    ensures TestedChain(history, chain)
  {
    hide HopOf, Stable, StrictlyOlder;
  }

  /**
   Upgrade-chain induction: from every earlier release there is a strictly increasing chain
   of hops to every later one, each hop recorded by a promotion made in between.
   */
  lemma {:induction false} UpgradeChain(start: string, history: seq<Request>, i: nat, j: nat)
    returns (chain: seq<string>)
    requires IsHistory(start, history) && i < j <= |history|
    ensures chain != [] && TestedChain(history[i..j], chain)
    ensures chain[0] == VersionAt(start, history, i) && chain[|chain| - 1] == VersionAt(start, history, j)
  {
    hide Accepted, TestedChain, IsHistory, VersionAt, StrictlyOlder;
    LastStep(start, history, j);
    var last := ChainOfOne(history[j - 1]);
    if i == j - 1 {
      chain := last;
      assert history[i..j] == [history[j - 1]];
    } else {
      var first := UpgradeChain(start, history, i, j - 1);
      chain := Extended(history, i, j, first, last);
    }
  }

  lemma Extended(history: seq<Request>, i: nat, j: nat, first: seq<string>, last: seq<string>)
    returns (chain: seq<string>)
    requires i < j <= |history|
    requires TestedChain(history[i..j - 1], first) && TestedChain([history[j - 1]], last)
    requires first[|first| - 1] == last[0] && |last| >= 2
    ensures chain != [] && TestedChain(history[i..j], chain)
    ensures chain[0] == first[0] && chain[|chain| - 1] == last[|last| - 1]
  {
    assert first != [];
    hide TestedChain;
    assert history[i..j] == history[i..j - 1] + [history[j - 1]];
    MoreHistory(history[i..j - 1], history[i..j], first);
    MoreHistory([history[j - 1]], history[i..j], last);
    Composed(history[i..j], first, last);
    chain := first + last[1..];
  }

  // A request the gate accepts

  function Zeros(n: nat): (s: string)
    ensures |s| == n && forall i :: 0 <= i < n ==> s[i] == '0'
  {
    seq(n, i => '0')
  }

  lemma PatchRelease(patch: string)
    requires patch in {"0", "1"}
    ensures Parse("1.0." + patch) == Ok(Version(1, 0, if patch == "0" then 0 else 1, None, 0))
  {
    var g := Groups("1", "0", patch, None);
    assert g.Text() == "1.0." + patch;
    MatchFinds(g);
    assert "1"[..0] == "" && "0"[..0] == "" && patch[..0] == "";
    assert Value("1") == 1 && Value("0") == 0;
  }

  lemma ReleaseParts(file: string)
    requires '/' !in file
    ensures Paths.Split(RELEASES + file, '/') == ["docs", "releases", file]
  {
    hide Paths.Split, Paths.Find;
    var rest := "releases" + ['/'] + file;
    assert RELEASES + file == "docs" + ['/'] + rest;
    Paths.SplitFirst("docs", '/', rest);
    Paths.SplitFirst("releases", '/', file);
    Paths.NoSplit(file, '/');
  }

  lemma EvidenceNamed(m: string)
    requires m != "" && '/' !in m && forall i :: 0 <= i < |m| ==> EvidenceCharacter(m[i])
    ensures EvidencePath(RELEASES + m + JSON)
  {
    hide Paths.Split, Paths.Find, EvidenceCharacter;
    var file, s := m + JSON, RELEASES + m + JSON;
    assert s == RELEASES + file && |file| > 5;
    ReleaseParts(file);
    assert s[|s| - |JSON|..] == JSON;
    forall i | |RELEASES| <= i < |s| - |JSON| ensures EvidenceCharacter(s[i]) { assert s[i] == m[i - |RELEASES|]; }
  }

  const START: Manifest := Manifest("1.0.0", "stable")
  const NEXT: Manifest := Manifest("1.0.1", "stable")

  function SomeUpgrade(): UpgradePath {
    UpgradePath(Some(["1.0.0", "1.0.1"]), RELEASES + "a" + JSON, Zeros(64))
  }

  function SomeBlobs(): map<string, Blob> {
    map[RELEASES + "a" + JSON := Blob(0, Zeros(64), Record(Rehearsal(true, Some(Zeros(40)), map[])))]
  }

  /** A plain promotion of 1.0.0 to 1.0.1. */
  function SomeRequest(path: string): Request {
    var source, digest := Zeros(40), Zeros(64);
    Request(source, source, "release/" + NEXT.version, Sized(0, START), Sized(0, NEXT), Sized(0, NEXT),
            "property string applicationVersion: " + "\"" + NEXT.version + "\"",
            Sized(0, Pins(NEXT.version, source, digest)), true, [path],
            Sized(0, Qualification(NEXT.version, source, true, true, digest, Some([Some(SomeUpgrade())]), digest)),
            SomeBlobs(), Some(digest))
  }

  lemma SomeVersions()
    ensures Stable(START.version) && Stable(NEXT.version) && StrictlyOlder(START.version, NEXT.version)
  {
    hide Parse;
    PatchRelease("0");
    PatchRelease("1");
    assert START.version == "1.0." + "0" && NEXT.version == "1.0." + "1";
  }

  lemma SomeVersionsProgress()
    ensures var versions := SomeUpgrade().versions.value;
      && EndsAt(SomeUpgrade(), NEXT.version) && Progresses(versions)
      && (forall v :: v in versions ==> Stable(v))
      && StartsFrom(Some(SomeUpgrade()), START.version)
  {
    SomeVersions();
    hide Stable, StrictlyOlder, Zeros;
    var versions := SomeUpgrade().versions.value;
    assert versions == [START.version, NEXT.version];
    assert versions[..1] == [START.version];
  }

  lemma SomeEvidence()
    ensures var u := SomeUpgrade();
      && EvidencePath(u.evidence) && Hex(u.evidenceSha256, 64)
      && Unchanged(u, SomeBlobs()) && Rehearsed(u, SomeBlobs()) && Binds(u, NEXT.version, Zeros(40), SomeBlobs())
  {
    EvidenceNamed("a");
    hide EvidencePath;
  }

  lemma SomeUpgradeIsTested()
    ensures Tested(SomeUpgrade(), NEXT.version, Zeros(40), SomeBlobs())
    ensures StartsFrom(Some(SomeUpgrade()), START.version)
  {
    SomeVersionsProgress();
    SomeEvidence();
    hide SomeUpgrade, SomeBlobs, Zeros, EvidencePath, Hex, Unchanged, Rehearsed, Binds, EndsAt, Progresses, Stable,
         StartsFrom;
  }

  lemma SomeEntryHolds(path: string)
    ensures forall c :: c in EntryChecks(SomeRequest(path)) ==> c.holds
  {
  }

  lemma SomeMasterHolds(path: string)
    ensures forall c :: c in MasterOf(SomeRequest(path)) ==> c.holds
  {
    SomeVersions();
    hide StrictlyOlder, Zeros, Parse, SomeBlobs, SomeUpgrade;
  }

  lemma SomeFreezeHolds(path: string)
    requires MayChange(path)
    ensures forall c :: c in FreezeChecks(SomeRequest(path)) ==> c.holds
  {
    hide MayChange, SomeBlobs, SomeUpgrade;
  }

  lemma SomeBackendHolds(path: string)
    ensures forall c :: c in BackendChecks(SomeRequest(path)) ==> c.holds
  {
    hide SomeBlobs, SomeUpgrade;
  }

  /** The gate accepts something: a plain promotion that changes one permitted path. */
  lemma AnAcceptedRequest(path: string) returns (pr: Request)
    requires MayChange(path)
    ensures Accepted(pr) && pr.changed == [path]
  {
    hide EntryChecks, MasterOf, FreezeChecks, BackendChecks, Tested, StartsFrom, UpgradeChecks, Accepted, MayChange,
         SomeUpgrade, SomeBlobs, Zeros;
    pr := SomeRequest(path);
    SomeEntryHolds(path);
    SomeMasterHolds(path);
    SomeFreezeHolds(path);
    SomeBackendHolds(path);
    SomeUpgradeIsTested();
    var p := Some(SomeUpgrade());
    assert pr.record.value.paths.value == [p] && p in [p];
    AcceptedWhen(pr);
  }

  /** All groups of checks hold. */
  lemma AcceptedWhen(pr: Request)
    requires forall c :: c in EntryChecks(pr) || c in MasterOf(pr) ==> c.holds
    requires forall c :: c in FreezeChecks(pr) || c in BackendChecks(pr) ==> c.holds
    requires pr.record.value.paths.Some? && 0 < |pr.record.value.paths.value| <= MAX_PATHS
    requires forall p :: p in pr.record.value.paths.value ==>
      p.Some? && Tested(p.value, Target(pr), Source(pr), pr.blobs)
    requires exists p :: p in pr.record.value.paths.value && StartsFrom(p, Published(pr))
    ensures Accepted(pr)
  {
    hide EntryChecks, MasterOf, FreezeChecks, BackendChecks, Tested, StartsFrom, UpgradeChecks;
    AcceptedPathsAreTested(pr.record.value.paths, Published(pr), Target(pr), Source(pr), pr.blobs);
    BothPass(PathsOf(pr), BackendChecks(pr));
    BothPass(FreezeChecks(pr), PathsOf(pr) + BackendChecks(pr));
    BothPass(MasterOf(pr), FreezeChecks(pr) + (PathsOf(pr) + BackendChecks(pr)));
    BothPass(EntryChecks(pr), MasterOf(pr) + (FreezeChecks(pr) + (PathsOf(pr) + BackendChecks(pr))));
  }
}
