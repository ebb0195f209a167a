/**
 `destination_lock` of scripts/install-panel.py: any number of invocations open the lock
 file beside the destination, wait for its flock, and go on only if the name still leads
 to the file they have locked.  The kernel drops the flock of a process that ends.
 */
module DestinationLock {
  import opened Wrappers

  type Process = nat
  type File = nat

  datatype Phase = Outside | Opened(file: File) | Locked(file: File) | Inside(file: File)

  /** The lock file's name, who holds the flock of each file, and where each invocation is. */
  datatype World = World(name: Option<File>, holder: map<File, Process>, phases: map<Process, Phase>,
                         unowned: set<File>, next: File)
  {
    function At(p: Process): Phase {
      if p in phases then phases[p] else Outside
    }

    ghost predicate Somebody() {
      exists p :: At(p).Inside?
    }

    function Put(p: Process, phase: Phase): World {
      this.(phases := phases[p := phase])
    }

    /** close(2), or the end of the process: its flock is gone. */
    function Leave(p: Process): World {
      Put(p, Outside).(holder := map f | f in holder && holder[f] != p :: holder[f])
    }
  }

  datatype Event =
    | Open(p: Process)
    | Refuse(p: Process)    // not a regular file of ours with one link
    | Flock(p: Process)
    | Confirm(p: Process)   // compare the name's identity with the locked file's
    | Exit(p: Process)      // leaving the block, an exception, or death
    | Replace(entry: Option<File>, unowned: bool)  // somebody else removes or replaces the lock file

  predicate Possible(w: World, e: Event) {
    match e
    case Open(p) => w.At(p).Outside?
    case Refuse(p) => w.At(p).Opened? && w.At(p).file in w.unowned
    case Flock(p) => w.At(p).Opened? && w.At(p).file !in w.unowned && w.At(p).file !in w.holder
    case Confirm(p) => w.At(p).Locked?
    case Exit(p) => true
    case Replace(entry, _) => entry.Some? ==> entry.value == w.next
  }

  function After(w: World, e: Event): World
    requires Possible(w, e)
  {
    match e
    case Open(p) =>
      if w.name.Some? then w.Put(p, Opened(w.name.value))
      else w.Put(p, Opened(w.next)).(name := Some(w.next), next := w.next + 1)
    case Refuse(p) => w.Leave(p)
    case Flock(p) => w.Put(p, Locked(w.At(p).file)).(holder := w.holder[w.At(p).file := p])
    case Confirm(p) => if w.name == Some(w.At(p).file) then w.Put(p, Inside(w.At(p).file)) else w.Leave(p)
    case Exit(p) => w.Leave(p)
    case Replace(entry, unowned) =>
      w.(name := entry, next := w.next + 1, unowned := w.unowned + if unowned then {w.next} else {})
  }

  /** Nobody replaces the lock file while an invocation is inside. */
  ghost predicate Respectful(w: World, e: Event) {
    e.Replace? ==> !w.Somebody()
  }

  const START := World(None, map[], map[], {}, 0)

  ghost predicate IsRun(run: seq<World>, events: seq<Event>) {
    && |run| == |events| + 1
    && run[0] == START
    && forall i :: 0 <= i < |events| ==> Possible(run[i], events[i]) && run[i + 1] == After(run[i], events[i])
  }

  ghost predicate RespectfulRun(run: seq<World>, events: seq<Event>) {
    IsRun(run, events) && forall i :: 0 <= i < |events| ==> Respectful(run[i], events[i])
  }

  /** Whoever has locked a file holds its flock; whoever is inside holds the flock of the file now named. */
  ghost predicate Fenced(w: World) {
    && (forall p :: w.At(p).Locked? || w.At(p).Inside? ==> w.At(p).file in w.holder && w.holder[w.At(p).file] == p)
    && (forall p :: w.At(p).Inside? ==> w.name == Some(w.At(p).file))
    && (forall f :: f in w.holder ==> w.At(w.holder[f]) == Locked(f) || w.At(w.holder[f]) == Inside(f))
  }

  lemma EventKeepsFenced(w: World, e: Event)
    requires Fenced(w) && Possible(w, e) && Respectful(w, e)
    ensures Fenced(After(w, e))
  {
    var w' := After(w, e);
    if e.Replace? {
      assert forall p :: w'.At(p) == w.At(p);
    } else {
      forall p ensures p != e.p ==> w'.At(p) == w.At(p) {}
    }
  }

  lemma {:induction false} RunsStayFenced(run: seq<World>, events: seq<Event>, k: nat)
    requires RespectfulRun(run, events) && k < |run|
    ensures Fenced(run[k])
  {
    if k > 0 {
      RunsStayFenced(run, events, k - 1);
      EventKeepsFenced(run[k - 1], events[k - 1]);
    }
  }

  /** At most one invocation is inside, whatever the interleaving, and however many die. */
  lemma MutualExclusion(run: seq<World>, events: seq<Event>, k: nat, p: Process, q: Process)
    requires RespectfulRun(run, events) && k < |run|
    requires run[k].At(p).Inside? && run[k].At(q).Inside?
    ensures p == q
  {
    RunsStayFenced(run, events, k);
  }

  /** Files in use have been made, and nobody has locked one that is not ours. */
  ghost predicate Owned(w: World) {
    && (w.name.Some? ==> w.name.value < w.next)
    && (forall p :: !w.At(p).Outside? ==> w.At(p).file < w.next)
    && (forall p :: w.At(p).Locked? || w.At(p).Inside? ==> w.At(p).file !in w.unowned)
  }

  lemma EventKeepsOwned(w: World, e: Event)
    requires Owned(w) && Possible(w, e)
    ensures Owned(After(w, e))
  {
    var w' := After(w, e);
    if e.Replace? {
      assert forall p :: w'.At(p) == w.At(p);
    } else {
      forall p ensures p != e.p ==> w'.At(p) == w.At(p) {}
    }
  }

  /** Whoever gets inside has locked a file of our own, even when others replace it meanwhile. */
  lemma {:induction false} InsideIsOwned(run: seq<World>, events: seq<Event>, k: nat)
    requires IsRun(run, events) && k < |run|
    ensures Owned(run[k])
  {
    if k > 0 {
      InsideIsOwned(run, events, k - 1);
      EventKeepsOwned(run[k - 1], events[k - 1]);
    }
  }

  /** A lock left by a dead invocation is free: the next one that opens it gets in. */
  lemma NextGetsIn(run: seq<World>, events: seq<Event>, k: nat, dead: Process, p: Process)
    requires RespectfulRun(run, events) && k < |run|
    requires run[k].At(dead).Inside? && run[k].At(dead).file !in run[k].unowned && run[k].At(p).Outside?
    ensures Possible(run[k], Exit(dead))
    ensures var w0 := After(run[k], Exit(dead));
      && Possible(w0, Open(p))
      && var w1 := After(w0, Open(p));
      && Possible(w1, Flock(p))
      && var w2 := After(w1, Flock(p));
      && Possible(w2, Confirm(p)) && After(w2, Confirm(p)).At(p).Inside?
  {
    RunsStayFenced(run, events, k);
  }

  /** The condition cannot be dropped: a lock file replaced under an invocation lets a second one in. */
  lemma ReplacedLockAdmitsTwo() returns (run: seq<World>, events: seq<Event>)
    ensures IsRun(run, events) && !RespectfulRun(run, events)
    ensures run[|run| - 1].At(1).Inside? && run[|run| - 1].At(2).Inside?
  {
    events := [Open(1), Flock(1), Confirm(1), Replace(None, false), Open(2), Flock(2), Confirm(2)];
    var w0 := START;
    var w1 := After(w0, events[0]);
    var w2 := After(w1, events[1]);
    var w3 := After(w2, events[2]);
    var w4 := After(w3, events[3]);
    var w5 := After(w4, events[4]);
    var w6 := After(w5, events[5]);
    var w7 := After(w6, events[6]);
    run := [w0, w1, w2, w3, w4, w5, w6, w7];
    assert w3.At(1).Inside?;
    assert !Respectful(run[3], events[3]);
  }
}
