/** Release versions of scripts/release_policy.py: the accepted texts, what they mean, and their order. */
module Versions {
  import opened Wrappers

  // Numerals

  predicate Digit(c: char) {
    '0' <= c <= '9'
  }

  predicate Numeral(s: string) {
    s != [] && forall i :: 0 <= i < |s| ==> Digit(s[i])
  }

  /** (0|[1-9][0-9]*) */
  predicate Plain(s: string) {
    Numeral(s) && (s[0] == '0' ==> |s| == 1)
  }

  /** int() of a text of digits. */
  function Value(s: string): nat
    requires forall i :: 0 <= i < |s| ==> Digit(s[i])
  {
    if s == [] then 0 else
      assert Digit(s[|s| - 1]);
      10 * Value(s[..|s| - 1]) + (s[|s| - 1] as int - '0' as int)
  }

  function Decimal(n: nat): (s: string)
    ensures Plain(s)
    ensures n > 0 ==> s[0] != '0'
  {
    if n < 10 then ['0' + n as char] else Decimal(n / 10) + ['0' + (n % 10) as char]
  }

  lemma {:induction false} ValueOfDecimal(n: nat)
    ensures Value(Decimal(n)) == n
  {
    if n >= 10 {
      ValueOfDecimal(n / 10);
      assert Decimal(n)[..|Decimal(n)| - 1] == Decimal(n / 10);
    }
  }

  lemma {:induction false} DecimalOfValue(s: string)
    requires Plain(s)
    ensures Decimal(Value(s)) == s
    ensures s[0] != '0' ==> Value(s) > 0
  {
    var n := |s| - 1;
    if n > 0 {
      DecimalOfValue(s[..n]);
      assert Value(s) / 10 == Value(s[..n]) && Value(s) % 10 == s[n] as int - '0' as int;
      assert s == s[..n] + [s[n]];
    } else {
      assert s == [s[0]];
      assert Value(s) == s[0] as int - '0' as int;
    }
  }

  function WithoutLeadingZeros(s: string): (t: string)
    requires Numeral(s)
    ensures Plain(t)
  {
    if |s| > 1 && s[0] == '0' then WithoutLeadingZeros(s[1..]) else s
  }

  lemma {:induction false} LeadingZeroIsNothing(s: string)
    requires Numeral(s) && s[0] == '0'
    ensures Value(s) == Value(s[1..])
  {
    if |s| > 1 {
      LeadingZeroIsNothing(s[..|s| - 1]);
      assert s[1..][..|s| - 2] == s[..|s| - 1][1..];
    }
  }

  lemma {:induction false} ZerosAreNothing(s: string)
    requires Numeral(s)
    ensures Value(WithoutLeadingZeros(s)) == Value(s)
  {
    if |s| > 1 && s[0] == '0' {
      LeadingZeroIsNothing(s);
      ZerosAreNothing(s[1..]);
    }
  }

  /** Two iterations mean the same exactly when they differ in leading zeros only. */
  lemma SameValueIff(s: string, t: string)
    requires Numeral(s) && Numeral(t)
    ensures Value(s) == Value(t) <==> WithoutLeadingZeros(s) == WithoutLeadingZeros(t)
  {
    ZerosAreNothing(s);
    ZerosAreNothing(t);
    DecimalOfValue(WithoutLeadingZeros(s));
    DecimalOfValue(WithoutLeadingZeros(t));
  }

  // The pattern

  datatype Kind = Edge | Rc

  function KindText(k: Kind): string {
    if k.Edge? then "edge" else "rc"
  }

  /** sys.get_int_max_str_digits() */
  const MAX_DIGITS := 4300

  /** The groups of the pattern. */
  datatype Groups = Groups(major: string, minor: string, patch: string, pre: Option<(Kind, string)>) {
    predicate WellFormed() {
      && Plain(major) && Plain(minor) && Plain(patch)
      && (pre.Some? ==> Numeral(pre.value.1))
    }

    /** int() converts it: Python refuses texts of more digits, leading zeros included. */
    predicate Convertible() {
      && |major| <= MAX_DIGITS && |minor| <= MAX_DIGITS && |patch| <= MAX_DIGITS
      && (pre.Some? ==> |pre.value.1| <= MAX_DIGITS)
    }

    function Text(): string {
      major + "." + minor + "." + patch
      + if pre.Some? then "-" + KindText(pre.value.0) + "." + pre.value.1 else ""
    }
  }

  /** The length of the digits s starts with. */
  function DigitRun(s: string): (n: nat)
    ensures n <= |s|
    ensures forall i :: 0 <= i < n ==> Digit(s[i])
    ensures n < |s| ==> !Digit(s[n])
  {
    if s == [] || !Digit(s[0]) then 0 else 1 + DigitRun(s[1..])
  }

  function ReadPre(s: string): Option<(Kind, string)> {
    if |s| > 6 && s[..6] == "-edge." && Numeral(s[6..]) then Some((Edge, s[6..]))
    else if |s| > 4 && s[..4] == "-rc." && Numeral(s[4..]) then Some((Rc, s[4..]))
    else None
  }

  /** A plain numeral that is followed by a dot, and what comes after the dot. */
  function ReadNumber(s: string): Option<(string, string)> {
    var n := DigitRun(s);
    if Plain(s[..n]) && n < |s| && s[n] == '.' then Some((s[..n], s[n + 1..])) else None
  }

  /** VERSION.fullmatch. */
  function FullMatch(s: string): Option<Groups> {
    var a := ReadNumber(s);
    if a.None? then None else
      var b := ReadNumber(a.value.1);
      if b.None? then None else
        var rest := b.value.1;
        var n := DigitRun(rest);
        if !Plain(rest[..n]) then None
        else if n == |rest| then Some(Groups(a.value.0, b.value.0, rest, None))
        else
          var pre := ReadPre(rest[n..]);
          if pre.None? then None else Some(Groups(a.value.0, b.value.0, rest[..n], pre))
  }

  lemma RunOf(a: string, rest: string)
    requires Numeral(a) && (rest == [] || !Digit(rest[0]))
    ensures DigitRun(a + rest) == |a|
  {
    assert forall i :: 0 <= i < |a| ==> (a + rest)[i] == a[i];
    assert rest != [] ==> (a + rest)[|a|] == rest[0];
  }

  lemma ReadNumberIff(s: string, a: string, rest: string)
    ensures ReadNumber(s) == Some((a, rest)) <==> Plain(a) && s == a + "." + rest
  {
    var n := DigitRun(s);
    if Plain(a) && s == a + "." + rest {
      assert s == a + ("." + rest);
      RunOf(a, "." + rest);
      assert s[..n] == a && s[n + 1..] == rest;
    }
    if ReadNumber(s) == Some((a, rest)) {
      assert s == s[..n] + [s[n]] + s[n + 1..];
    }
  }

  lemma ReadPreIff(s: string, k: Kind, n: string)
    ensures ReadPre(s) == Some((k, n)) <==> Numeral(n) && s == "-" + KindText(k) + "." + n
  {
    if Numeral(n) && s == "-" + KindText(k) + "." + n {
      var head := "-" + KindText(k) + ".";
      assert head == if k.Edge? then "-edge." else "-rc.";
      assert s[..|head|] == head && s[|head|..] == n;
      if k == Rc { assert s[1] == 'r'; }
    }
    if ReadPre(s) == Some((k, n)) {
      var l := if k.Edge? then 6 else 4;
      assert s == s[..l] + s[l..];
    }
  }

  function Tail(g: Groups): string {
    if g.pre.Some? then "-" + KindText(g.pre.value.0) + "." + g.pre.value.1 else ""
  }

  lemma TextSplits(g: Groups)
    ensures g.Text() == g.major + "." + (g.minor + "." + (g.patch + Tail(g)))
  {
  }

  lemma MatchFinds(g: Groups)
    requires g.WellFormed()
    ensures FullMatch(g.Text()) == Some(g)
  {
    hide DigitRun, ReadNumber, ReadPre, KindText;
    var t := Tail(g);
    TextSplits(g);
    ReadNumberIff(g.Text(), g.major, g.minor + "." + (g.patch + t));
    ReadNumberIff(g.minor + "." + (g.patch + t), g.minor, g.patch + t);
    RunOf(g.patch, t);
    assert (g.patch + t)[..|g.patch|] == g.patch && (g.patch + t)[|g.patch|..] == t;
    if g.pre.Some? { ReadPreIff(t, g.pre.value.0, g.pre.value.1); } else { assert g.patch + t == g.patch; }
  }

  lemma MatchIsRight(s: string, g: Groups)
    requires FullMatch(s) == Some(g)
    ensures g.WellFormed() && s == g.Text()
  {
    hide DigitRun, ReadNumber, ReadPre, KindText;
    TextSplits(g);
    var a := ReadNumber(s).value;
    ReadNumberIff(s, a.0, a.1);
    var b := ReadNumber(a.1).value;
    ReadNumberIff(a.1, b.0, b.1);
    var n := DigitRun(b.1);
    assert b.1 == b.1[..n] + b.1[n..];
    if n < |b.1| { ReadPreIff(b.1[n..], g.pre.value.0, g.pre.value.1); }
    assert b.1 == g.patch + Tail(g);
  }

  /** The matcher finds exactly the decompositions the pattern describes, so there is at most one. */
  lemma FullMatchIff(s: string, g: Groups)
    ensures FullMatch(s) == Some(g) <==> g.WellFormed() && s == g.Text()
  {
    hide FullMatch, Groups.Text, Groups.WellFormed;
    if g.WellFormed() { MatchFinds(g); }
    if FullMatch(s) == Some(g) { MatchIsRight(s, g); }
  }

  // Meaning and order

  datatype Version = Version(major: nat, minor: nat, patch: nat, kind: Option<Kind>, iteration: nat)

  function Meaning(g: Groups): Version
    requires g.WellFormed()
  {
    Version(Value(g.major), Value(g.minor), Value(g.patch),
            if g.pre.Some? then Some(g.pre.value.0) else None,
            if g.pre.Some? then Value(g.pre.value.1) else 0)
  }

  datatype Invalid = NotAVersion | TooManyDigits

  /** `version`. */
  function Parse(s: string): (r: Result<Version, Invalid>) {
    var g := FullMatch(s);
    if g.None? then Err(NotAVersion)
    else
      assert g.value.WellFormed() && s == g.value.Text() by { FullMatchIff(s, g.value); }
      if !g.value.Convertible() then Err(TooManyDigits) else Ok(Meaning(g.value))
  }

  /**
   A text is accepted exactly when it has the documented form with convertible numbers, and then means what that
   form says.
   */
  lemma ParseIff(s: string, v: Version)
    ensures Parse(s) == Ok(v) <==>
      exists g: Groups :: g.WellFormed() && g.Convertible() && s == g.Text() && v == Meaning(g)
    ensures Parse(s) == Err(TooManyDigits) <==> exists g: Groups :: g.WellFormed() && !g.Convertible() && s == g.Text()
  {
    hide FullMatch, Groups.Text, Groups.WellFormed, Groups.Convertible, Meaning;
    if FullMatch(s).Some? { FullMatchIff(s, FullMatch(s).value); }
    forall g: Groups | g.WellFormed() && s == g.Text() ensures FullMatch(s) == Some(g) {
      FullMatchIff(s, g);
    }
  }

  function Rank(k: Option<Kind>): nat {
    match k
    case Some(Edge) => 0
    case Some(Rc) => 1
    case None => 2
  }

  type Key = (nat, nat, nat, nat, nat)

  /** `version_order`. */
  function OrderKey(v: Version): Key {
    (v.major, v.minor, v.patch, Rank(v.kind), v.iteration)
  }

  /** How tuples compare. */
  predicate Less(a: Key, b: Key) {
    || a.0 < b.0
    || (a.0 == b.0 && (a.1 < b.1
    || (a.1 == b.1 && (a.2 < b.2
    || (a.2 == b.2 && (a.3 < b.3
    || (a.3 == b.3 && a.4 < b.4)))))))
  }

  predicate Older(v: Version, w: Version) {
    Less(OrderKey(v), OrderKey(w))
  }

  // Section 11 of Semantic Versioning 2.0.0, read on its own terms

  datatype Identifier = Numeric(n: nat) | Alphanumeric(text: string)

  datatype Release = Release(core: seq<nat>, pre: seq<Identifier>)

  /** Lexical order in ASCII. */
  predicate TextBelow(s: string, t: string) {
    t != [] && (s == [] || s[0] < t[0] || (s[0] == t[0] && TextBelow(s[1..], t[1..])))
  }

  /** Numeric identifiers compare numerically and are below all others, which compare lexically. */
  predicate IdentifierBelow(a: Identifier, b: Identifier) {
    match (a, b)
    case (Numeric(m), Numeric(n)) => m < n
    case (Numeric(_), Alphanumeric(_)) => true
    case (Alphanumeric(_), Numeric(_)) => false
    case (Alphanumeric(s), Alphanumeric(t)) => TextBelow(s, t)
  }

  /** The first difference decides; if there is none the longer list is higher. */
  predicate FieldsBelow(a: seq<Identifier>, b: seq<Identifier>) {
    b != [] && (a == [] || IdentifierBelow(a[0], b[0]) || (a[0] == b[0] && FieldsBelow(a[1..], b[1..])))
  }

  predicate CoreBelow(a: seq<nat>, b: seq<nat>) {
    b != [] && (a == [] || a[0] < b[0] || (a[0] == b[0] && CoreBelow(a[1..], b[1..])))
  }

  /** A pre-release is below the release itself. */
  predicate Precedes(a: Release, b: Release) {
    || CoreBelow(a.core, b.core)
    || (a.core == b.core && a.pre != [] && (b.pre == [] || FieldsBelow(a.pre, b.pre)))
  }

  /** A text read as Semantic Versioning reads it: dot-separated identifiers after the hyphen. */
  function AsRelease(g: Groups): Release
    requires g.WellFormed()
  {
    Release([Value(g.major), Value(g.minor), Value(g.patch)],
            if g.pre.Some? then [Alphanumeric(KindText(g.pre.value.0)), Numeric(Value(g.pre.value.1))] else [])
  }

  lemma KindsCompare(a: Kind, b: Kind)
    ensures TextBelow(KindText(a), KindText(b)) <==> a.Edge? && b.Rc?
    ensures KindText(a) == KindText(b) <==> a == b
  {
    if a == b {
      NotBelowItself(KindText(a));
    } else {
      assert KindText(a)[0] != KindText(b)[0];
    }
  }

  lemma {:induction false} NotBelowItself(s: string)
    ensures !TextBelow(s, s)
  {
    if s != [] { NotBelowItself(s[1..]); }
  }

  /** The first difference decides, or else the length. */
  lemma {:induction false} TextBelowIff(s: string, t: string)
    ensures TextBelow(s, t) <==> exists k: nat ::
      k <= |s| && k < |t| && s[..k] == t[..k] && (k == |s| || s[k] < t[k])
  {
    if t != [] {
      assert s[..0] == t[..0];
      if s != [] && s[0] == t[0] {
        TextBelowIff(s[1..], t[1..]);
        forall k: nat | k <= |s[1..]| && k < |t[1..]| && s[1..][..k] == t[1..][..k]
          ensures s[..k + 1] == t[..k + 1]
        {
          assert s[..k + 1] == [s[0]] + s[1..][..k] && t[..k + 1] == [t[0]] + t[1..][..k];
        }
        forall k: nat | 0 < k <= |s| && k < |t| && s[..k] == t[..k] ensures s[1..][..k - 1] == t[1..][..k - 1] {
          assert s[1..][..k - 1] == s[..k][1..] && t[1..][..k - 1] == t[..k][1..];
        }
      }
    }
  }

  lemma ThreeFields(a: nat, b: nat, c: nat, d: nat, e: nat, f: nat)
    ensures CoreBelow([a, b, c], [d, e, f]) <==> a < d || (a == d && (b < e || (b == e && c < f)))
  {
    assert [a, b, c][1..] == [b, c] && [d, e, f][1..] == [e, f];
    assert [b, c][1..] == [c] && [e, f][1..] == [f];
    assert CoreBelow([c], [f]) <==> c < f;
    assert CoreBelow([b, c], [e, f]) <==> b < e || (b == e && c < f);
  }

  /** The order the tools use is Semantic Versioning's precedence, on every accepted text. */
  lemma OrderIsPrecedence(g: Groups, h: Groups)
    requires g.WellFormed() && h.WellFormed()
    ensures Older(Meaning(g), Meaning(h)) <==> Precedes(AsRelease(g), AsRelease(h))
  {
    var v, w := Meaning(g), Meaning(h);
    ThreeFields(v.major, v.minor, v.patch, w.major, w.minor, w.patch);
    if g.pre.Some? && h.pre.Some? {
      KindsCompare(g.pre.value.0, h.pre.value.0);
      var a, b := AsRelease(g).pre, AsRelease(h).pre;
      assert FieldsBelow(a[1..], b[1..]) <==> v.iteration < w.iteration by {
        assert a[1..][1..] == [] && b[1..][1..] == [];
      }
    }
  }

  /** A strict order, total up to equal meaning: no two different meanings share a key. */
  lemma OrderIsTotal(u: Version, v: Version, w: Version)
    ensures !Older(v, v)
    ensures Older(u, v) && Older(v, w) ==> Older(u, w)
    ensures !Older(u, v) && !Older(v, w) ==> !Older(u, w)
    ensures OrderKey(v) == OrderKey(w) <==> v == w
    ensures v == w || Older(v, w) || Older(w, v)
  {
    KeysDiffer(v, w);
  }

  lemma KeysDiffer(v: Version, w: Version)
    ensures OrderKey(v) == OrderKey(w) <==> v == w
  {
    assert Rank(v.kind) == Rank(w.kind) ==> v.kind == w.kind;
  }

  /** Distinct accepted texts mean the same exactly when only zeros in front of the iteration differ. */
  lemma SameMeaningIff(g: Groups, h: Groups)
    requires g.WellFormed() && h.WellFormed()
    ensures Meaning(g) == Meaning(h) <==>
      && g.major == h.major && g.minor == h.minor && g.patch == h.patch
      && (g.pre.Some? <==> h.pre.Some?)
      && (g.pre.Some? ==>
            && g.pre.value.0 == h.pre.value.0
            && WithoutLeadingZeros(g.pre.value.1) == WithoutLeadingZeros(h.pre.value.1))
  {
    DecimalOfValue(g.major); DecimalOfValue(h.major);
    DecimalOfValue(g.minor); DecimalOfValue(h.minor);
    DecimalOfValue(g.patch); DecimalOfValue(h.patch);
    if g.pre.Some? && h.pre.Some? { SameValueIff(g.pre.value.1, h.pre.value.1); }
  }

  predicate Stable(s: string) {
    Parse(s).Ok? && Parse(s).value.kind.None?
  }

  /** Among stable versions the text is determined by the meaning. */
  lemma StableTextIsUnique(s: string, t: string)
    requires Stable(s) && Stable(t)
    ensures Parse(s) == Parse(t) <==> s == t
  {
    var g, h := FullMatch(s).value, FullMatch(t).value;
    FullMatchIff(s, g);
    FullMatchIff(t, h);
    SameMeaningIff(g, h);
  }

  /** X.Y.Z, X.Y.Z-edge.N or X.Y.Z-rc.N, with any zeros in front of N. */
  function Written(v: Version, zeros: string): string {
    Decimal(v.major) + "." + Decimal(v.minor) + "." + Decimal(v.patch)
    + match v.kind
      case None => ""
      case Some(Edge) => "-edge." + (zeros + Decimal(v.iteration))
      case Some(Rc) => "-rc." + (zeros + Decimal(v.iteration))
  }

  /** Every version of every kind can be written, and reads back as itself exactly if its numbers are not too long. */
  lemma EveryVersionReadsBack(v: Version, zeros: string)
    requires v.kind.None? ==> v.iteration == 0
    requires forall i :: 0 <= i < |zeros| ==> zeros[i] == '0'
    ensures Parse(Written(v, zeros)) == Ok(v) <==>
      && |Decimal(v.major)| <= 4300 && |Decimal(v.minor)| <= 4300 && |Decimal(v.patch)| <= 4300
      && (v.kind.Some? ==> |zeros| + |Decimal(v.iteration)| <= 4300)
  {
    hide Value, FullMatch, Decimal, Written, Groups.Text;
    PaddedValue(zeros, Decimal(v.iteration));
    var g := Groups(Decimal(v.major), Decimal(v.minor), Decimal(v.patch),
                    if v.kind.Some? then Some((v.kind.value, zeros + Decimal(v.iteration))) else None);
    ValueOfDecimal(v.major);
    ValueOfDecimal(v.minor);
    ValueOfDecimal(v.patch);
    ValueOfDecimal(v.iteration);
    WrittenAsGroups(v, zeros, g);
    FullMatchIff(g.Text(), g);
  }

  lemma {:induction false} PaddedValue(zeros: string, s: string)
    requires Numeral(s) && forall i :: 0 <= i < |zeros| ==> zeros[i] == '0'
    ensures Numeral(zeros + s) && Value(zeros + s) == Value(s)
  {
    if zeros == [] {
      assert zeros + s == s;
    } else {
      PaddedValue(zeros[1..], s);
      assert (zeros + s)[1..] == zeros[1..] + s;
      LeadingZeroIsNothing(zeros + s);
    }
  }

  lemma WrittenAsGroups(v: Version, zeros: string, g: Groups)
    requires g.major == Decimal(v.major) && g.minor == Decimal(v.minor) && g.patch == Decimal(v.patch)
    requires g.pre == if v.kind.Some? then Some((v.kind.value, zeros + Decimal(v.iteration))) else None
    ensures g.Text() == Written(v, zeros)
  {
    hide Decimal;
    if v.kind.Some? {
      var n := zeros + Decimal(v.iteration);
      assert "-" + KindText(v.kind.value) + "." + n == (if v.kind.value.Edge? then "-edge." else "-rc.") + n;
    }
  }
}
