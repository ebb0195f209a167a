/**
 The newc archives `cpio_file` of scripts/qualify-powercut.py writes, and a reader after
 the Linux kernel document "initramfs buffer format" (cpio_header structure).
 */
module Cpio {
  import opened Wrappers

  type Byte = b: int | 0 <= b < 256

  type Bytes = seq<Byte>

  /** What `cpio_file` is called with; the name is already encoded. */
  datatype Entry = Entry(name: Bytes, data: Bytes, mode: nat, inode: nat)

  const NUL: Byte := 0
  const ZERO: Byte := 48
  const LIMIT := 0x1_0000_0000

  /** 070701 */
  const MAGIC: Bytes := [48, 55, 48, 55, 48, 49]

  // Writing

  function HexDigit(d: nat): Byte
    requires d < 16
  {
    if d < 10 then ZERO + d else 87 + d
  }

  function HexText(n: nat): Bytes {
    if n < 16 then [HexDigit(n)] else HexText(n / 16) + [HexDigit(n % 16)]
  }

  function Repeat(b: Byte, n: nat): (s: Bytes)
    ensures |s| == n
    ensures forall i :: 0 <= i < n ==> s[i] == b
  {
    if n == 0 then [] else [b] + Repeat(b, n - 1)
  }

  /** f"{n:08x}": at least eight digits, and more when the number needs them. */
  function Field(n: nat): Bytes {
    Repeat(ZERO, if |HexText(n)| < 8 then 8 - |HexText(n)| else 0) + HexText(n)
  }

  function Fields(numbers: seq<nat>): Bytes {
    if numbers == [] then [] else Field(numbers[0]) + Fields(numbers[1..])
  }

  /** How far n is from a multiple of four: -n % 4. */
  function Gap(n: nat): (g: nat)
    ensures g < 4 && (n + g) % 4 == 0
  {
    (0 - n as int) % 4
  }

  function Numbers(e: Entry): seq<nat> {
    [e.inode, e.mode, 0, 0, 1, 0, |e.data|, 0, 0, 0, 0, |e.name| + 1, 0]
  }

  function Head(e: Entry): Bytes {
    MAGIC + Fields(Numbers(e)) + (e.name + [NUL])
  }

  function Record(e: Entry): Bytes {
    Head(e) + Repeat(NUL, Gap(|Head(e)|)) + e.data + Repeat(NUL, Gap(|e.data|))
  }

  function Archive(entries: seq<Entry>): Bytes {
    if entries == [] then [] else Record(entries[0]) + Archive(entries[1..])
  }

  class Stream {
    var written: Bytes

    constructor ()
      ensures written == []
    {
      written := [];
    }

    method Write(bytes: Bytes)
      modifies this
      ensures written == old(written) + bytes
    {
      written := written + bytes;
    }
  }

  /** `cpio_file`. */
  method WriteEntry(out: Stream, e: Entry)
    modifies out
    ensures out.written == old(out.written) + Record(e)
  {
    var name := e.name + [NUL];
    var numbers := [e.inode, e.mode, 0, 0, 1, 0, |e.data|, 0, 0, 0, 0, |name|, 0];
    var fields := JoinFields(numbers);
    var header := MAGIC + fields;
    out.Write(header + name);
    out.Write(Repeat(NUL, (-(|header| + |name|)) % 4));
    out.Write(e.data);
    out.Write(Repeat(NUL, (-|e.data|) % 4));
    assert header + name == Head(e);
  }

  method JoinFields(numbers: seq<nat>) returns (fields: Bytes)
    ensures fields == Fields(numbers)
  {
    hide Field, Fields;
    fields := [];
    NoFields(numbers);
    for i := 0 to |numbers|
      invariant fields + Fields(numbers[i..]) == Fields(numbers)
    {
      NextField(numbers, i);
      assert fields + Fields(numbers[i..]) == (fields + Field(numbers[i])) + Fields(numbers[i + 1..]);
      fields := fields + Field(numbers[i]);
    }
  }

  lemma NoFields(numbers: seq<nat>)
    ensures numbers[0..] == numbers && Fields(numbers[|numbers|..]) == []
  {
  }

  lemma NextField(numbers: seq<nat>, i: nat)
    requires i < |numbers|
    ensures Fields(numbers[i..]) == Field(numbers[i]) + Fields(numbers[i + 1..])
  {
    hide Field;
    assert numbers[i..][1..] == numbers[i + 1..];
  }

  // Reading

  function DigitValue(b: Byte): Option<nat> {
    if ZERO <= b <= 57 then Some(b - ZERO)
    else if 97 <= b <= 102 then Some(b - 87)
    else if 65 <= b <= 70 then Some(b - 55)
    else None
  }

  function Number(s: Bytes): Option<nat> {
    if s == [] then Some(0) else
      var high, low := Number(s[..|s| - 1]), DigitValue(s[|s| - 1]);
      if high.None? || low.None? then None else Some(16 * high.value + low.value)
  }

  /** Numbers of exactly eight digits each. */
  function ReadFields(s: Bytes, n: nat): (r: Option<seq<nat>>)
    requires |s| >= 8 * n
    ensures r.Some? ==> |r.value| == n
  {
    if n == 0 then Some([]) else
      var first, rest := Number(s[..8]), ReadFields(s[8..], n - 1);
      if first.None? || rest.None? then None else Some([first.value] + rest.value)
  }

  datatype Header = Header(ino: nat, mode: nat, uid: nat, gid: nat, nlink: nat, mtime: nat, filesize: nat,
                           major: nat, minor: nat, rmajor: nat, rminor: nat, namesize: nat, chksum: nat)

  function Named(f: seq<nat>): Header
    requires |f| == 13
  {
    Header(f[0], f[1], f[2], f[3], f[4], f[5], f[6], f[7], f[8], f[9], f[10], f[11], f[12])
  }

  datatype Member = Member(header: Header, name: Bytes, data: Bytes)

  const HEADER_SIZE := 110

  /** A C string. */
  function UpToNul(s: Bytes): (t: Bytes)
    ensures NUL !in t && |t| <= |s|
    ensures NUL in s ==> |t| < |s|
  {
    if s == [] || s[0] == NUL then [] else [s[0]] + UpToNul(s[1..])
  }

  function ReadOne(s: Bytes): (r: Option<(Member, Bytes)>)
    ensures r.Some? ==> |r.value.1| < |s|
  {
    if |s| < HEADER_SIZE || s[..6] != [0x30, 0x37, 0x30, 0x37, 0x30, 0x31] then None else
      var fields := ReadFields(s[6..HEADER_SIZE], 13);
      if fields.None? then None else
        var h := Named(fields.value);
        var nameEnd := HEADER_SIZE + h.namesize;
        var dataStart := nameEnd + Gap(nameEnd);
        var dataEnd := dataStart + h.filesize;
        var end := dataEnd + Gap(h.filesize);
        if |s| < end || h.namesize == 0 || s[nameEnd - 1] != NUL then None
        else Some((Member(h, UpToNul(s[HEADER_SIZE..nameEnd]), s[dataStart..dataEnd]), s[end..]))
  }

  function Read(s: Bytes): Option<seq<Member>>
    decreases |s|
  {
    if s == [] then Some([]) else
      var first := ReadOne(s);
      if first.None? then None else
        var rest := Read(first.value.1);
        if rest.None? then None else Some([first.value.0] + rest.value)
  }

  /** What an entry should be read as. */
  function Meant(e: Entry): Member {
    Member(Header(e.inode, e.mode, 0, 0, 1, 0, |e.data|, 0, 0, 0, 0, |e.name| + 1, 0), e.name, e.data)
  }

  function AllMeant(entries: seq<Entry>): (members: seq<Member>)
    ensures |members| == |entries|
    ensures forall i :: 0 <= i < |entries| ==> members[i] == Meant(entries[i])
  {
    if entries == [] then [] else [Meant(entries[0])] + AllMeant(entries[1..])
  }

  /** What the format can carry. */
  predicate Fits(e: Entry) {
    e.inode < LIMIT && e.mode < LIMIT && |e.data| < LIMIT && |e.name| + 1 < LIMIT && NUL !in e.name
  }

  // Numbers

  lemma {:induction false} NumberOfHex(n: nat)
    ensures Number(HexText(n)) == Some(n)
  {
    if n < 16 {
      assert HexText(n)[..0] == [];
    } else {
      NumberOfHex(n / 16);
      assert HexText(n)[..|HexText(n)| - 1] == HexText(n / 16);
    }
  }

  lemma {:induction false} ZerosInFront(k: nat, s: Bytes)
    requires s != []
    ensures Number(Repeat(ZERO, k) + s) == Number(s)
    decreases k, |s|
  {
    if |s| > 1 {
      ZerosInFront(k, s[..|s| - 1]);
      assert (Repeat(ZERO, k) + s)[..k + |s| - 1] == Repeat(ZERO, k) + s[..|s| - 1];
    } else {
      OnlyZeros(k);
      assert (Repeat(ZERO, k) + s)[..k] == Repeat(ZERO, k);
    }
  }

  lemma {:induction false} OnlyZeros(k: nat)
    ensures Number(Repeat(ZERO, k)) == Some(0)
  {
    if k > 0 {
      OnlyZeros(k - 1);
      assert Repeat(ZERO, k)[..k - 1] == Repeat(ZERO, k - 1);
    }
  }

  function Sixteens(k: nat): (p: nat)
    ensures p > 0
  {
    if k == 0 then 1 else 16 * Sixteens(k - 1)
  }

  lemma EightDigits()
    ensures Sixteens(8) == LIMIT
  {
    assert Sixteens(4) == 0x1_0000;
    assert Sixteens(6) == 0x100_0000;
  }

  lemma {:induction false} NumberIsSmall(s: Bytes)
    requires Number(s).Some?
    ensures Number(s).value < Sixteens(|s|)
  {
    if s != [] { NumberIsSmall(s[..|s| - 1]); }
  }

  lemma {:induction false} HexLength(n: nat, k: nat)
    requires k > 0
    ensures |HexText(n)| <= k <==> n < Sixteens(k)
  {
    if k > 1 && n >= 16 {
      HexLength(n / 16, k - 1);
    } else if k == 1 {
      assert n >= 16 ==> |HexText(n / 16)| >= 1;
    } else {
      assert Sixteens(k) >= 16 by { SixteensGrow(k); }
    }
  }

  lemma {:induction false} SixteensGrow(k: nat)
    requires k > 0
    ensures Sixteens(k) >= 16
  {
    if k > 1 { SixteensGrow(k - 1); }
  }

  lemma {:induction false} HexIsLowerCase(n: nat)
    ensures forall b :: b in HexText(n) ==> 48 <= b <= 57 || 97 <= b <= 102
  {
    if n >= 16 { HexIsLowerCase(n / 16); }
  }

  /** A number is written in exactly eight digits when it is below 2^32, and then reads back. */
  lemma FieldReads(n: nat)
    ensures |Field(n)| == 8 <==> n < LIMIT
    ensures |Field(n)| >= 8
    ensures Number(Field(n)) == Some(n)
    ensures forall b :: b in Field(n) ==> 48 <= b <= 57 || 97 <= b <= 102
  {
    HexIsLowerCase(n);
    EightDigits();
    HexLength(n, 8);
    NumberOfHex(n);
    ZerosInFront(if |HexText(n)| < 8 then 8 - |HexText(n)| else 0, HexText(n));
  }

  lemma {:induction false} FieldsRead(numbers: seq<nat>, rest: Bytes)
    requires forall n :: n in numbers ==> n < LIMIT
    ensures |Fields(numbers)| == 8 * |numbers|
    ensures ReadFields(Fields(numbers) + rest, |numbers|) == Some(numbers)
  {
    hide Field, Number;
    if numbers != [] {
      var first, others := numbers[0], numbers[1..];
      assert first in numbers && forall n :: n in others ==> n in numbers;
      FieldReads(first);
      FieldsRead(others, rest);
      assert Fields(numbers) + rest == Field(first) + (Fields(others) + rest);
      FirstField(first, Fields(others) + rest, |others|);
      assert numbers == [first] + others;
    }
  }

  lemma FirstField(n: nat, rest: Bytes, more: nat)
    requires |Field(n)| == 8 && Number(Field(n)) == Some(n) && |rest| >= 8 * more
    ensures ReadFields(Field(n) + rest, more + 1) ==
      (if ReadFields(rest, more).None? then None else Some([n] + ReadFields(rest, more).value))
  {
    hide Field, Number;
    var s := Field(n) + rest;
    assert s[..8] == Field(n) && s[8..] == rest;
  }

  // One record

  lemma {:induction false} WholeName(name: Bytes, rest: Bytes)
    ensures NUL !in name ==> UpToNul(name + [NUL] + rest) == name
  {
    if name != [] && NUL !in name {
      WholeName(name[1..], rest);
      assert (name + [NUL] + rest)[1..] == name[1..] + [NUL] + rest;
      assert name[0] in name;
    }
  }

  lemma HeadReads(e: Entry)
    requires Fits(e)
    ensures |Head(e)| == HEADER_SIZE + |e.name| + 1
    ensures Head(e)[..6] == MAGIC
    ensures Head(e)[6..HEADER_SIZE] == Fields(Numbers(e))
    ensures Head(e)[HEADER_SIZE..] == e.name + [NUL]
    ensures ReadFields(Fields(Numbers(e)), 13) == Some(Numbers(e))
  {
    FieldsRead(Numbers(e), []);
    assert Fields(Numbers(e)) + [] == Fields(Numbers(e));
  }

  lemma RecordReads(e: Entry, rest: Bytes)
    requires Fits(e)
    ensures ReadOne(Record(e) + rest) == Some((Meant(e), rest))
  {
    hide Fields, Field, ReadFields, Head, Repeat, UpToNul, Gap;
    HeadReads(e);
    RecordParts(e, rest);
    WholeName(e.name, []);
    assert e.name + [NUL] + [] == e.name + [NUL];
    hide Record;
  }

  /** Where the parts of a record are. */
  lemma RecordParts(e: Entry, rest: Bytes)
    requires Fits(e)
    ensures var s := Record(e) + rest;
      var nameEnd := HEADER_SIZE + |e.name| + 1;
      var dataStart := nameEnd + Gap(nameEnd);
      var end := dataStart + |e.data| + Gap(|e.data|);
      && |s| >= end && s[..6] == MAGIC && s[6..HEADER_SIZE] == Fields(Numbers(e))
      && s[HEADER_SIZE..nameEnd] == e.name + [NUL] && s[nameEnd - 1] == NUL
      && s[dataStart..dataStart + |e.data|] == e.data && s[end..] == rest
  {
    hide Fields, Field, ReadFields, Head, Repeat, UpToNul, Gap;
    HeadReads(e);
    var head, s := Head(e), Record(e) + rest;
    var pad, end := Repeat(NUL, Gap(|head|)), Repeat(NUL, Gap(|e.data|));
    assert s == head + (pad + e.data + end + rest);
    assert s[..6] == head[..6] && s[6..HEADER_SIZE] == head[6..HEADER_SIZE];
    assert s[HEADER_SIZE..|head|] == head[HEADER_SIZE..];
    assert s[|head| - 1] == (e.name + [NUL])[|e.name|];
    var dataStart := |head| + |pad|;
    assert s == (head + pad) + (e.data + end + rest);
    assert s[dataStart..dataStart + |e.data|] == e.data;
    assert s == (head + pad + e.data + end) + rest;
    assert s[|Record(e)|..] == rest;
  }

  /** Whatever is read fits the format: this is the other half of the round trip. */
  lemma ReadFits(s: Bytes)
    requires ReadOne(s).Some?
    ensures var m := ReadOne(s).value.0;
      && m.header.ino < LIMIT && m.header.mode < LIMIT && |m.data| < LIMIT && |m.name| + 1 < LIMIT
      && NUL !in m.name
  {
    hide ReadFields, UpToNul, Gap;
    SmallFields(s[6..HEADER_SIZE], 13);
  }

  lemma {:induction false} SmallFields(s: Bytes, n: nat)
    requires |s| >= 8 * n && ReadFields(s, n).Some?
    ensures forall i :: 0 <= i < n ==> ReadFields(s, n).value[i] < LIMIT
  {
    if n > 0 {
      EightDigits();
      NumberIsSmall(s[..8]);
      SmallFields(s[8..], n - 1);
    }
  }

  // Whole archives

  lemma RecordIsAligned(e: Entry)
    ensures |Record(e)| % 4 == 0 && |Record(e)| > 0
  {
    hide Head, Repeat;
    assert |Head(e)| >= 1 by { HeadIsSomething(e); }
  }

  lemma HeadIsSomething(e: Entry)
    ensures |Head(e)| >= 1
  {
  }

  /** Every header starts at a multiple of four, however large the fields. */
  lemma {:induction false} HeadersAreAligned(entries: seq<Entry>, i: nat)
    requires i <= |entries|
    ensures |Archive(entries[..i])| % 4 == 0
    ensures Archive(entries) == Archive(entries[..i]) + Archive(entries[i..])
  {
    hide Record;
    if i > 0 {
      HeadersAreAligned(entries[1..], i - 1);
      RecordIsAligned(entries[0]);
      assert entries[..i][1..] == entries[1..][..i - 1];
      assert entries[1..][i - 1..] == entries[i..];
    }
  }

  lemma {:induction false} ArchiveReads(entries: seq<Entry>)
    requires forall e :: e in entries ==> Fits(e)
    ensures Read(Archive(entries)) == Some(AllMeant(entries))
  {
    hide Record, ReadOne, Fits;
    if entries != [] {
      RecordReads(entries[0], Archive(entries[1..]));
      RecordIsAligned(entries[0]);
      ArchiveReads(entries[1..]);
    }
  }

  lemma {:induction false} ReadAllFit(s: Bytes, members: seq<Member>)
    requires Read(s) == Some(members)
    ensures forall m :: m in members ==>
      && m.header.ino < LIMIT && m.header.mode < LIMIT && |m.data| < LIMIT && |m.name| + 1 < LIMIT
      && NUL !in m.name
    decreases |s|
  {
    hide ReadOne;
    if s != [] {
      ReadFits(s);
      ReadAllFit(ReadOne(s).value.1, members[1..]);
    }
  }

  /** The round trip holds exactly for the lists the format can carry. */
  lemma RoundTripIff(entries: seq<Entry>)
    ensures Read(Archive(entries)) == Some(AllMeant(entries)) <==> forall e :: e in entries ==> Fits(e)
  {
    hide Read, Archive;
    if forall e :: e in entries ==> Fits(e) { ArchiveReads(entries); }
    if Read(Archive(entries)) == Some(AllMeant(entries)) {
      ReadAllFit(Archive(entries), AllMeant(entries));
      forall e | e in entries ensures Fits(e) {
        var i :| 0 <= i < |entries| && entries[i] == e;
        assert AllMeant(entries)[i] in AllMeant(entries);
      }
    }
  }
}
