/**
 The serial loop of `boot` in scripts/qualify-powercut.py: events are read off complete
 lines of whatever pieces the pipe delivers, and the machine is killed at the boundary.
 */
module SerialEvents {
  import opened Wrappers
  import Paths

  type Byte = b: int | 0 <= b < 256

  type Bytes = seq<Byte>

  const NEWLINE: Byte := 10

  datatype Event = Boundary(name: string) | Success | Other(text: string)

  datatype Error = Malformed | UnexpectedBoundary

  /** What one line says: nothing for us, something that is no JSON, or an event. */
  datatype Reading = Ignored | Broken | Heard(event: Event)

  datatype Record = Record(events: seq<Event>, cut: bool, error: Option<Error>)

  /** One boot: how lines are read, whether it is a crash phase, and the case it is for. */
  datatype Boot = Boot(read: Bytes -> Reading, crash: bool, name: string) {

    predicate Accepts(e: Event) {
      e.Boundary? && crash && e.name == name
    }

    /** The inner loop's body for one line. */
    function Step(r: Record, line: Bytes): Record {
      if r.error.Some? then r else
        match read(line)
        case Ignored => r
        case Broken => r.(error := Some(Malformed))
        case Heard(e) =>
          var r' := r.(events := r.events + [e]);
          if !e.Boundary? then r'
          else if Accepts(e) then r'.(cut := true)
          else r'.(error := Some(UnexpectedBoundary))
    }

    function Run(r: Record, lines: seq<Bytes>): Record
      decreases |lines|
    {
      if lines == [] then r else Run(Step(r, lines[0]), lines[1..])
    }

    /** The independent reading of a whole stream: stop right after the first boundary that is accepted. */
    function Scan(lines: seq<Bytes>): Verdict {
      if lines == [] then Verdict([], Quiet) else
        match read(lines[0])
        case Ignored => Scan(lines[1..])
        case Broken => Verdict([], Raised(Malformed))
        case Heard(e) =>
          if Accepts(e) then Verdict([e], Cut)
          else if e.Boundary? then Verdict([e], Raised(UnexpectedBoundary))
          else Scan(lines[1..]).After(e)
    }
  }

  datatype Ending = Quiet | Cut | Raised(error: Error)

  datatype Verdict = Verdict(events: seq<Event>, ending: Ending) {
    function After(e: Event): Verdict {
      this.(events := [e] + events)
    }
  }

  const START := Record([], false, None)

  // Lines

  /** The complete lines of a stream, and what follows the last newline. */
  function Lines(s: Bytes): seq<Bytes> {
    var pieces := Paths.Split(s, NEWLINE);
    pieces[..|pieces| - 1]
  }

  function Rest(s: Bytes): Bytes {
    var pieces := Paths.Split(s, NEWLINE);
    pieces[|pieces| - 1]
  }

  function Concat(chunks: seq<Bytes>): Bytes {
    if chunks == [] then [] else Concat(chunks[..|chunks| - 1]) + chunks[|chunks| - 1]
  }

  /** The lines and the rest, each free of newlines, make up the stream. */
  lemma LinesMakeUp(s: Bytes)
    ensures Paths.Join(Lines(s) + [Rest(s)], 10) == s
    ensures 10 !in Rest(s) && forall line :: line in Lines(s) ==> 10 !in line
  {
    hide Paths.Split, Paths.Join;
    var pieces := Paths.Split(s, NEWLINE);
    Paths.JoinSplit(s, NEWLINE);
    assert pieces == Lines(s) + [Rest(s)];
    assert pieces[|pieces| - 1] in pieces;
  }

  lemma {:induction false} FindIn(s: Bytes, more: Bytes)
    ensures NEWLINE in s ==> Paths.Find(s + more, NEWLINE) == Paths.Find(s, NEWLINE)
  {
    if s != [] && s[0] != NEWLINE {
      FindIn(s[1..], more);
      assert (s + more)[1..] == s[1..] + more;
    }
  }

  lemma NoLine(s: Bytes)
    requires NEWLINE !in s
    ensures Lines(s) == [] && Rest(s) == s
  {
    Paths.FindAt(s, NEWLINE, []);
  }

  lemma OneLine(s: Bytes)
    requires NEWLINE in s
    ensures var n := Paths.Find(s, NEWLINE);
      n < |s| && Lines(s) == [s[..n]] + Lines(s[n + 1..]) && Rest(s) == Rest(s[n + 1..])
  {
    hide Paths.Find, Paths.Split;
    Paths.SplitStep(s, NEWLINE);
    var n := Paths.Find(s, NEWLINE);
    var pieces, tail := Paths.Split(s, NEWLINE), Paths.Split(s[n + 1..], NEWLINE);
    LastOf(s[..n], tail);
    assert Lines(s) == pieces[..|pieces| - 1] && Rest(s) == pieces[|pieces| - 1];
    assert Lines(s[n + 1..]) == tail[..|tail| - 1] && Rest(s[n + 1..]) == tail[|tail| - 1];
    hide Lines, Rest;
  }

  lemma LastOf(first: Bytes, others: seq<Bytes>)
    requires others != []
    ensures var all := [first] + others;
      && all[..|all| - 1] == [first] + others[..|others| - 1]
      && all[|all| - 1] == others[|others| - 1]
  {
  }

  /** New data adds lines to those there were: the reader may keep just the unfinished one. */
  lemma {:induction false} LinesAppend(a: Bytes, b: Bytes)
    ensures Lines(a + b) == Lines(a) + Lines(Rest(a) + b)
    ensures Rest(a + b) == Rest(Rest(a) + b)
    decreases |a|
  {
    hide Lines, Rest, Paths.Find;
    if NEWLINE in a {
      var n := Paths.Find(a, NEWLINE);
      OneLine(a);
      OneLine(a + b);
      FindIn(a, b);
      assert (a + b)[..n] == a[..n];
      assert (a + b)[n + 1..] == a[n + 1..] + b;
      LinesAppend(a[n + 1..], b);
    } else {
      NoLine(a);
    }
  }

  // Reading more lines

  lemma {:induction false} RunOn(boot: Boot, r: Record, a: seq<Bytes>, b: seq<Bytes>)
    ensures boot.Run(r, a + b) == boot.Run(boot.Run(r, a), b)
    decreases |a|
  {
    if a == [] {
      assert a + b == b;
    } else {
      RunOn(boot, boot.Step(r, a[0]), a[1..], b);
      assert (a + b)[1..] == a[1..] + b;
    }
  }

  lemma {:induction false} ErrorStays(boot: Boot, r: Record, lines: seq<Bytes>)
    requires r.error.Some?
    ensures boot.Run(r, lines) == r
    decreases |lines|
  {
    if lines != [] { ErrorStays(boot, r, lines[1..]); }
  }

  /** Once cut, what was recorded up to the boundary stays. */
  lemma {:induction false} CutStays(boot: Boot, r: Record, lines: seq<Bytes>)
    requires r.cut
    ensures boot.Run(r, lines).cut && r.events <= boot.Run(r, lines).events
    decreases |lines|
  {
    if lines != [] { CutStays(boot, boot.Step(r, lines[0]), lines[1..]); }
  }

  /** What a boot may record of a stream that reads as v. */
  predicate Records(r: Record, v: Verdict) {
    match v.ending
    case Quiet => r == Record(v.events, false, None)
    case Cut => r.cut && v.events <= r.events
    case Raised(e) => r == Record(v.events, false, Some(e))
  }

  lemma {:induction false} RunRecords(boot: Boot, r: Record, lines: seq<Bytes>)
    requires r.error.None? && !r.cut
    ensures var v := boot.Scan(lines);
      Records(boot.Run(r, lines), v.(events := r.events + v.events))
    decreases |lines|
  {
    if lines == [] {
      assert r.events + [] == r.events;
    } else {
      var next := boot.Step(r, lines[0]);
      match boot.read(lines[0])
      case Ignored => RunRecords(boot, r, lines[1..]);
      case Broken =>
        ErrorStays(boot, next, lines[1..]);
        assert r.events + [] == r.events;
      case Heard(e) =>
        if next.error.Some? {
          ErrorStays(boot, next, lines[1..]);
        } else if next.cut {
          CutStays(boot, next, lines[1..]);
        } else {
          RunRecords(boot, next, lines[1..]);
          var v := boot.Scan(lines[1..]);
          assert next.events + v.events == r.events + ([e] + v.events);
        }
    }
  }

  lemma {:induction false} ScanStops(boot: Boot, a: seq<Bytes>, b: seq<Bytes>)
    requires boot.Scan(a).ending != Quiet
    ensures boot.Scan(a + b) == boot.Scan(a)
  {
    if a != [] {
      assert (a + b)[0] == a[0] && (a + b)[1..] == a[1..] + b;
      if boot.Scan(a[1..]).ending != Quiet { ScanStops(boot, a[1..], b); }
    }
  }

  function Recorded(boot: Boot, chunks: seq<Bytes>): Record {
    boot.Run(START, Lines(Concat(chunks)))
  }

  predicate Ended(r: Record) {
    r.cut || r.error.Some?
  }

  /** Reads up to the one that ends the loop, or all of them. */
  ghost predicate StopsAfter(boot: Boot, chunks: seq<Bytes>, k: nat) {
    && k <= |chunks|
    && (forall j :: 0 <= j < k ==> !Ended(Recorded(boot, chunks[..j])))
    && (k < |chunks| ==> Ended(Recorded(boot, chunks[..k])))
  }

  /**
   The machine is killed exactly when a crash phase reports the boundary of its case; any other
   boundary ends the boot with an error.
   */
  ghost predicate BoundariesChecked(boot: Boot, r: Record) {
    && (r.cut <==> boot.crash && Boundary(boot.name) in r.events)
    && (forall i :: 0 <= i < |r.events| && r.events[i].Boundary? && (!boot.crash || r.events[i].name != boot.name) ==>
          i == |r.events| - 1 && r.error == Some(UnexpectedBoundary))
    && (r.error == Some(UnexpectedBoundary) ==>
          && r.events != [] && r.events[|r.events| - 1].Boundary?
          && (!boot.crash || r.events[|r.events| - 1].name != boot.name))
  }

  lemma NothingToCheck(boot: Boot)
    ensures BoundariesChecked(boot, START)
  {
  }

  lemma StepChecksBoundary(boot: Boot, r: Record, line: Bytes)
    requires BoundariesChecked(boot, r)
    ensures BoundariesChecked(boot, boot.Step(r, line))
  {
    match boot.read(line)
    case Ignored =>
    case Broken =>
    case Heard(e) =>
      var more := r.events + [e];
      assert forall b :: b in more <==> b in r.events || b == e;
      assert forall i :: 0 <= i < |r.events| ==> more[i] == r.events[i];
  }

  /** The reading loop. */
  method Listen(boot: Boot, chunks: seq<Bytes>) returns (r: Record)
    ensures BoundariesChecked(boot, r)
    // Exactly the lines completed by the reads up to the last one made.
    ensures exists k: nat :: StopsAfter(boot, chunks, k) && r == Recorded(boot, chunks[..k])
    // Up to and including the first accepted boundary, however the stream was cut into reads.
    ensures Records(r, boot.Scan(Lines(Concat(chunks))))
  {
    hide Lines, Rest, Records, BoundariesChecked;
    NothingToCheck(boot);
    var buffer: Bytes := [];
    r := START;
    NoLine([]);
    for k := 0 to |chunks|
      invariant buffer == Rest(Concat(chunks[..k])) && NEWLINE !in buffer
      invariant r == Recorded(boot, chunks[..k]) && !Ended(r) && BoundariesChecked(boot, r)
      invariant forall j :: 0 <= j < k ==> !Ended(Recorded(boot, chunks[..j]))
    {
      ghost var before := r;
      ghost var done := Lines(Concat(chunks[..k]));
      assert chunks[..k + 1][..k] == chunks[..k];
      LinesAppend(Concat(chunks[..k]), chunks[k]);
      buffer := buffer + chunks[k];
      ghost var all := Lines(Concat(chunks[..k + 1]));
      assert all == done + Lines(buffer);
      while NEWLINE in buffer
        invariant done + Lines(buffer) == all
        invariant Rest(buffer) == Rest(Concat(chunks[..k + 1]))
        invariant r == boot.Run(START, done) && r.error.None? && BoundariesChecked(boot, r)
        decreases |buffer|
      {
        OneLine(buffer);
        var n := Paths.Find(buffer, NEWLINE);
        var line := buffer[..n];
        RunOn(boot, START, done, [line]);
        assert boot.Run(r, [line]) == boot.Step(r, line);
        ghost var earlier := done;
        done := done + [line];
        assert done + Lines(buffer[n + 1..]) == earlier + ([line] + Lines(buffer[n + 1..]));
        buffer := buffer[n + 1..];
        StepChecksBoundary(boot, r, line);
        r := boot.Step(r, line);
        if r.error.Some? {
          RunOn(boot, START, done, Lines(buffer));
          ErrorStays(boot, r, Lines(buffer));
          assert Recorded(boot, chunks[..k + 1]) == boot.Run(START, done + Lines(buffer));
          Stopped(boot, chunks, k + 1);
          return;
        }
      }
      NoLine(buffer);
      assert done + [] == done;
      if r.cut {
        Stopped(boot, chunks, k + 1);
        return;
      }
    }
    assert chunks[..|chunks|] == chunks;
    assert StopsAfter(boot, chunks, |chunks|);
    RunRecords(boot, START, Lines(Concat(chunks)));
    assert [] + boot.Scan(Lines(Concat(chunks))).events == boot.Scan(Lines(Concat(chunks))).events;
  }

  /** What the reads not made would have brought changes nothing up to the boundary. */
  lemma Stopped(boot: Boot, chunks: seq<Bytes>, k: nat)
    requires 0 < k <= |chunks| && Ended(Recorded(boot, chunks[..k]))
    requires forall j :: 0 <= j < k ==> !Ended(Recorded(boot, chunks[..j]))
    ensures StopsAfter(boot, chunks, k)
    ensures Records(Recorded(boot, chunks[..k]), boot.Scan(Lines(Concat(chunks))))
  {
    hide Lines, Rest;
    var lines := Lines(Concat(chunks[..k]));
    RunRecords(boot, START, lines);
    var v := boot.Scan(lines);
    assert [] + v.events == v.events;
    assert v.ending != Quiet;
    ConcatSplits(chunks, k);
    var more := Rest(Concat(chunks[..k])) + Concat(chunks[k..]);
    LinesAppend(Concat(chunks[..k]), Concat(chunks[k..]));
    ScanStops(boot, lines, Lines(more));
  }

  lemma {:induction false} ConcatSplits(chunks: seq<Bytes>, k: nat)
    requires k <= |chunks|
    ensures Concat(chunks) == Concat(chunks[..k]) + Concat(chunks[k..])
    decreases |chunks|
  {
    var n := |chunks| - 1;
    if k == |chunks| {
      assert chunks[..k] == chunks && chunks[k..] == [];
    } else {
      ConcatSplits(chunks[..n], k);
      assert chunks[..n][..k] == chunks[..k] && chunks[..n][k..] == chunks[k..][..n - k];
    }
  }

  /** Two ways of cutting one stream into reads cannot disagree about anything up to the boundary. */
  lemma ReadsDoNotMatter(boot: Boot, a: seq<Bytes>, b: seq<Bytes>, r: Record, s: Record)
    requires Concat(a) == Concat(b)
    requires Records(r, boot.Scan(Lines(Concat(a)))) && Records(s, boot.Scan(Lines(Concat(b))))
    ensures !r.cut ==> r == s
    ensures r.cut == s.cut
    ensures r.cut ==> exists n :: 0 < n <= |r.events| && n <= |s.events| && r.events[..n] == s.events[..n]
                                  && boot.Accepts(r.events[n - 1])
                                  && forall i :: 0 <= i < n - 1 ==> !r.events[i].Boundary?
  {
    hide Lines;
    var v := boot.Scan(Lines(Concat(a)));
    if r.cut {
      CutAtBoundary(boot, Lines(Concat(a)));
      var n := |v.events|;
      assert r.events[..n] == v.events && s.events[..n] == v.events;
      assert forall i :: 0 <= i < n ==> r.events[i] == v.events[i];
    }
  }

  lemma {:induction false} CutAtBoundary(boot: Boot, lines: seq<Bytes>)
    requires boot.Scan(lines).ending == Cut
    ensures var es := boot.Scan(lines).events;
      && es != [] && boot.Accepts(es[|es| - 1])
      && forall i :: 0 <= i < |es| - 1 ==> !es[i].Boundary?
  {
    match boot.read(lines[0])
    case Ignored => CutAtBoundary(boot, lines[1..]);
    case Heard(e) =>
      if !boot.Accepts(e) {
        CutAtBoundary(boot, lines[1..]);
        var es := boot.Scan(lines[1..]).events;
        assert forall i :: 1 <= i < |es| ==> ([e] + es)[i] == es[i - 1];
      }
  }

  /** After the boundary they can: lines that came in the same read are still recorded. */
  lemma EventsAfterBoundaryDiffer() returns (boot: Boot, a: seq<Bytes>, b: seq<Bytes>)
    ensures Concat(a) == Concat(b)
    ensures StopsAfter(boot, a, |a|) && StopsAfter(boot, b, 1)
    ensures Recorded(boot, a).events != Recorded(boot, b[..1]).events
  {
    boot := Sample();
    SampleRecords();
    hide Sample;
    var first: Bytes := [1, NEWLINE];
    var second: Bytes := [2, NEWLINE];
    a, b := [first + second], [first, second];
    hide Lines, Rest, Concat;
    TwoLines(first, second);
    NothingYet(boot, a);
    NothingYet(boot, b);
    ConcatOne(first + second);
    ConcatOne(first);
    ConcatTwo(first, second);
    assert a[..1] == a && b[..1] == [first];
  }

  lemma ConcatTwo(c: Bytes, d: Bytes)
    ensures Concat([c, d]) == c + d
  {
    assert [c, d][..1] == [c];
    ConcatOne(c);
  }

  /** Line 1 is the boundary, any other line a success. */
  function Sample(): Boot {
    Boot(line => if line == [1] then Heard(Boundary("x")) else Heard(Success), true, "x")
  }

  lemma SampleRecords()
    ensures Sample().Run(START, [[1]]) == Record([Boundary("x")], true, None)
    ensures Sample().Run(START, [[1], [2]]) == Record([Boundary("x"), Success], true, None)
  {
    var boot := Sample();
    var once := Record([Boundary("x")], true, None);
    assert boot.Step(START, [1]) == once;
    assert boot.Run(START, [[1]]) == once;
    assert boot.Run(once, [[2]]) == boot.Step(once, [2]);
    RunOn(boot, START, [[1]], [[2]]);
    assert [[1]] + [[2]] == [[1], [2]];
  }

  lemma TwoLines(first: Bytes, second: Bytes)
    requires first == [1, NEWLINE] && second == [2, NEWLINE]
    ensures Lines(first) == [[1]] && Lines(first + second) == [[1], [2]]
  {
    hide Lines, Rest;
    NoLine([]);
    SingleLine(1);
    SingleLine(2);
    assert first == [1] + [NEWLINE] && second == [2] + [NEWLINE];
    LinesAppend(first, second);
    assert [] + second == second;
    assert [[1]] + [[2]] == [[1], [2]];
  }

  lemma SingleLine(b: Byte)
    requires b != NEWLINE
    ensures Lines([b] + [NEWLINE]) == [[b]] && Rest([b] + [NEWLINE]) == []
  {
    hide Lines, Rest;
    var s := [b] + [NEWLINE];
    Paths.FindAt([b], NEWLINE, []);
    assert s == [b] + [NEWLINE] + [];
    OneLine(s);
    assert s[..1] == [b] && s[2..] == [];
    NoLine([]);
  }

  // Exactly when the reads do not matter at all

  /** How many lines there are up to and including the first accepted boundary. */
  function CutAt(boot: Boot, lines: seq<Bytes>): (n: nat)
    requires boot.Scan(lines).ending == Cut
    ensures 0 < n <= |lines|
  {
    match boot.read(lines[0])
    case Ignored => 1 + CutAt(boot, lines[1..])
    case Heard(e) => if boot.Accepts(e) then 1 else 1 + CutAt(boot, lines[1..])
  }

  /** After the first accepted boundary the stream has no complete line with anything for us. */
  predicate QuietAfterCut(boot: Boot, lines: seq<Bytes>) {
    boot.Scan(lines).ending == Cut ==>
      forall i :: CutAt(boot, lines) <= i < |lines| ==> boot.read(lines[i]) == Ignored
  }

  /** A way the stream s may be read: an empty read would end the loop, so there is none. */
  predicate Reads(chunks: seq<Bytes>, s: Bytes) {
    Concat(chunks) == s && forall c :: c in chunks ==> c != []
  }

  lemma {:induction false} CutAtStops(boot: Boot, a: seq<Bytes>, b: seq<Bytes>)
    requires boot.Scan(a).ending == Cut
    ensures boot.Scan(a + b).ending == Cut && CutAt(boot, a + b) == CutAt(boot, a)
  {
    ScanStops(boot, a, b);
    assert (a + b)[0] == a[0] && (a + b)[1..] == a[1..] + b;
    match boot.read(a[0])
    case Ignored => CutAtStops(boot, a[1..], b);
    case Heard(e) => if !boot.Accepts(e) { CutAtStops(boot, a[1..], b); }
  }

  lemma {:induction false} IgnoredAddsNothing(boot: Boot, r: Record, lines: seq<Bytes>)
    requires forall line :: line in lines ==> boot.read(line) == Ignored
    ensures boot.Run(r, lines) == r
    decreases |lines|
  {
    if lines != [] { IgnoredAddsNothing(boot, r, lines[1..]); }
  }

  lemma {:induction false} RunOnlyAdds(boot: Boot, r: Record, lines: seq<Bytes>)
    ensures |r.events| <= |boot.Run(r, lines).events|
    ensures r.error.Some? ==> boot.Run(r, lines) == r
    decreases |lines|
  {
    if lines != [] { RunOnlyAdds(boot, boot.Step(r, lines[0]), lines[1..]); }
  }

  lemma {:induction false} AnythingElseAdds(boot: Boot, r: Record, lines: seq<Bytes>, i: nat)
    requires r.error.None? && i < |lines| && boot.read(lines[i]) != Ignored
    ensures boot.Run(r, lines) != r
    decreases |lines|
  {
    if boot.read(lines[0]) == Ignored {
      AnythingElseAdds(boot, r, lines[1..], i - 1);
    } else {
      RunOnlyAdds(boot, boot.Step(r, lines[0]), lines[1..]);
    }
  }

  /** The record right after the boundary. */
  lemma {:induction false} RunToCut(boot: Boot, r: Record, lines: seq<Bytes>)
    requires boot.Scan(lines).ending == Cut && r.error.None? && !r.cut
    ensures boot.Run(r, lines[..CutAt(boot, lines)]) == Record(r.events + boot.Scan(lines).events, true, None)
    decreases |lines|
  {
    var n := CutAt(boot, lines);
    var next := boot.Step(r, lines[0]);
    assert lines[..n][0] == lines[0] && lines[..n][1..] == lines[1..][..n - 1];
    match boot.read(lines[0])
    case Ignored => RunToCut(boot, r, lines[1..]);
    case Heard(e) =>
      if boot.Accepts(e) {
        assert lines[1..][..0] == [];
      } else {
        RunToCut(boot, next, lines[1..]);
        assert next.events + boot.Scan(lines[1..]).events == r.events + ([e] + boot.Scan(lines[1..]).events);
      }
  }

  /** What is recorded of lines that hold the boundary and nothing after it. */
  lemma QuietRecord(boot: Boot, lines: seq<Bytes>, n: nat)
    requires boot.Scan(lines).ending == Cut && CutAt(boot, lines) <= n <= |lines|
    requires QuietAfterCut(boot, lines)
    ensures boot.Run(START, lines[..n]) == Record(boot.Scan(lines).events, true, None)
  {
    var c := CutAt(boot, lines);
    RunToCut(boot, START, lines);
    assert [] + boot.Scan(lines).events == boot.Scan(lines).events;
    assert lines[..n] == lines[..c] + lines[c..n];
    RunOn(boot, START, lines[..c], lines[c..n]);
    forall line | line in lines[c..n] ensures boot.read(line) == Ignored {
      var j :| 0 <= j < n - c && lines[c..n][j] == line;
      assert line == lines[c + j];
    }
    IgnoredAddsNothing(boot, boot.Run(START, lines[..c]), lines[c..n]);
  }

  /** What a reading records is decided by the lines it completed, which come first in the stream. */
  lemma ReadLines(boot: Boot, chunks: seq<Bytes>, k: nat) returns (n: nat)
    requires StopsAfter(boot, chunks, k)
    ensures n <= |Lines(Concat(chunks))|
    ensures Lines(Concat(chunks[..k])) == Lines(Concat(chunks))[..n]
    ensures Records(Recorded(boot, chunks[..k]), boot.Scan(Lines(Concat(chunks))))
  {
    hide Lines, Rest, Records;
    var lines := Lines(Concat(chunks[..k]));
    n := |lines|;
    ConcatSplits(chunks, k);
    LinesAppend(Concat(chunks[..k]), Concat(chunks[k..]));
    if k == |chunks| {
      assert chunks[..k] == chunks;
      RunRecords(boot, START, lines);
      assert [] + boot.Scan(lines).events == boot.Scan(lines).events;
    } else {
      NothingYet(boot, chunks);
      Stopped(boot, chunks, k);
    }
  }

  lemma NothingYet(boot: Boot, chunks: seq<Bytes>)
    ensures Recorded(boot, chunks[..0]) == START
  {
    assert chunks[..0] == [];
    NoLine([]);
  }

  /** The lines that have been read up to a cut hold the boundary. */
  lemma CutIsRead(boot: Boot, lines: seq<Bytes>, n: nat)
    requires n <= |lines| && boot.Scan(lines).ending == Cut && boot.Run(START, lines[..n]).cut
    ensures CutAt(boot, lines) <= n
  {
    RunRecords(boot, START, lines[..n]);
    if boot.Scan(lines[..n]).ending == Cut {
      CutAtStops(boot, lines[..n], lines[n..]);
      assert lines == lines[..n] + lines[n..];
    }
  }

  /** If the stream is quiet after the boundary, whatever the reads, the record is the same. */
  lemma QuietReadsAgree(boot: Boot, a: seq<Bytes>, b: seq<Bytes>, k: nat, l: nat)
    requires Concat(a) == Concat(b) && QuietAfterCut(boot, Lines(Concat(a)))
    requires StopsAfter(boot, a, k) && StopsAfter(boot, b, l)
    ensures Recorded(boot, a[..k]) == Recorded(boot, b[..l])
  {
    hide Lines, Rest, QuietAfterCut, StopsAfter;
    var lines := Lines(Concat(a));
    var m := ReadLines(boot, a, k);
    var n := ReadLines(boot, b, l);
    if boot.Scan(lines).ending == Cut {
      CutIsRead(boot, lines, m);
      CutIsRead(boot, lines, n);
      QuietRecord(boot, lines, m);
      QuietRecord(boot, lines, n);
    }
  }

  /** Where the first n lines of a stream end. */
  lemma {:induction false} LinesEnd(s: Bytes, n: nat) returns (p: nat)
    requires n <= |Lines(s)|
    ensures p <= |s| && Lines(s[..p]) == Lines(s)[..n]
    decreases |s|
  {
    hide Lines, Rest, Paths.Find;
    if n == 0 {
      p := 0;
      assert s[..0] == [];
      NoLine([]);
    } else {
      if NEWLINE !in s { NoLine(s); }
      OneLine(s);
      var m := Paths.Find(s, NEWLINE);
      var q := LinesEnd(s[m + 1..], n - 1);
      p := m + 1 + q;
      FirstLineOf(s, p);
      assert s[..p][m + 1..] == s[m + 1..][..q];
      assert s[..p][..m] == s[..m];
    }
  }

  lemma FirstLineOf(s: Bytes, p: nat)
    requires NEWLINE in s && Paths.Find(s, NEWLINE) < p <= |s|
    ensures NEWLINE in s[..p] && Paths.Find(s[..p], NEWLINE) == Paths.Find(s, NEWLINE)
    ensures var m := Paths.Find(s, NEWLINE);
      Lines(s[..p]) == [s[..p][..m]] + Lines(s[..p][m + 1..])
  {
    hide Lines, Rest, Paths.Find;
    FindInPrefix(s, p);
    OneLine(s[..p]);
  }

  lemma FindInPrefix(s: Bytes, p: nat)
    requires NEWLINE in s && Paths.Find(s, NEWLINE) < p <= |s|
    ensures NEWLINE in s[..p] && Paths.Find(s[..p], NEWLINE) == Paths.Find(s, NEWLINE)
  {
    hide Paths.Find;
    var head := s[..p];
    assert head[Paths.Find(s, NEWLINE)] == NEWLINE;
    FindIn(head, s[p..]);
    assert head + s[p..] == s;
  }

  /** A stream that is not quiet after the boundary, read in one piece and read up to the boundary first. */
  lemma NoisyReadsDiffer(boot: Boot, s: Bytes) returns (a: seq<Bytes>, b: seq<Bytes>)
    requires !QuietAfterCut(boot, Lines(s))
    ensures Reads(a, s) && Reads(b, s) && StopsAfter(boot, a, 1) && StopsAfter(boot, b, 1)
    ensures Recorded(boot, a[..1]) != Recorded(boot, b[..1])
  {
    hide Lines, Rest;
    var lines := Lines(s);
    var c := CutAt(boot, lines);
    var p := LinesEnd(s, c);
    RunToCut(boot, START, lines);
    assert [] + boot.Scan(lines).events == boot.Scan(lines).events;
    assert lines == lines[..c] + lines[c..];
    RunOn(boot, START, lines[..c], lines[c..]);
    var i :| c <= i < |lines| && boot.read(lines[i]) != Ignored;
    assert lines[c..][i - c] == lines[i];
    AnythingElseAdds(boot, boot.Run(START, lines[..c]), lines[c..], i - c);
    assert Lines(s[..p]) != Lines(s);
    assert s[..|s|] == s;
    NoLine([]);
    assert Lines(s[..p]) != Lines([]);
    a, b := [s], [s[..p], s[p..]];
    NothingYet(boot, a);
    NothingYet(boot, b);
    ConcatOne(s);
    ConcatOne(s[..p]);
    assert a[..1] == a && b[..1] == [s[..p]];
    assert s[..p] + s[p..] == s;
    assert s[..p] != [] && s[p..] != [];
  }

  lemma ConcatOne(c: Bytes)
    ensures Concat([c]) == c
  {
    assert [c][..0] == [];
  }

  /**
   Chunk independence, exactly: all readings of a stream record the same if and only if, should
   it hold an accepted boundary, every complete line after the first one is ignored.
   */
  lemma ReadsNeverMatterIff(boot: Boot, s: Bytes)
    ensures QuietAfterCut(boot, Lines(s)) <==>
      (forall a, b, k: nat, l: nat ::
         Reads(a, s) && Reads(b, s) && StopsAfter(boot, a, k) && StopsAfter(boot, b, l) ==>
           Recorded(boot, a[..k]) == Recorded(boot, b[..l]))
  {
    hide QuietAfterCut, Recorded, Lines;
    if QuietAfterCut(boot, Lines(s)) {
      forall a, b, k: nat, l: nat | Reads(a, s) && Reads(b, s) && StopsAfter(boot, a, k) && StopsAfter(boot, b, l)
        ensures Recorded(boot, a[..k]) == Recorded(boot, b[..l])
      {
        QuietReadsAgree(boot, a, b, k, l);
      }
    } else {
      var a, b := NoisyReadsDiffer(boot, s);
    }
  }
}
