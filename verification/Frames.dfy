/** What each part of the installer leaves alone, and when it may take which step of `Recovery`. */
module Frames {
  import opened Wrappers
  import opened Ownership
  import opened Packaging
  import opened Disk
  import opened Recovery
  import opened Preservation
  import opened Safety
  import opened Conservation

  datatype Error =
    | OsError | CommandFailed
    | UnrecognizedJournal | RecoveryDirectoryReplaced | PathsChanged | Abandoned
    | Refused(why: Refusal) | DestinationExists | NotBuilt | SourceLinks
    | DesktopLocked | UnrecognizedIntent
    | RestartFailed  // the restart that is owed at the end, whatever happened before

  /** Not a refusal of the request itself. */
  predicate OfRecovery(e: Error) {
    !e.DestinationExists? && !e.NotBuilt? && !e.SourceLinks? && !OfShell(e)
  }

  predicate OfShell(e: Error) {
    e.UnrecognizedIntent? || e.RestartFailed?
  }

  /** From the checks of the journal's paths on. */
  predicate OfPublication(e: Error) {
    OfRecovery(e) && !e.UnrecognizedJournal? && !e.RecoveryDirectoryReplaced?
  }

  /** What the trees and records of b still have of those of a: anything changed was edited by others. */
  ghost predicate Remembers(a: Fs, b: Fs) {
    && a.trees.Keys <= b.trees.Keys
    && a.edited <= b.edited
    && (forall g :: g in a.trees && b.trees[g] != a.trees[g] ==> g in b.edited)
    && (forall r :: r in a.records ==> r in b.records && b.records[r] == a.records[r])
    && (forall r :: r in a.records && r !in a.unsettled ==> r !in b.unsettled)
  }

  /** b is a, except for edits by others. */
  ghost predicate Touched(a: Fs, b: Fs) {
    && b == a.(trees := b.trees, unsettled := b.unsettled, edited := b.edited)
    && b.trees.Keys == a.trees.Keys
    && a.unsettled <= b.unsettled <= a.unsettled + (a.trees.Keys * b.edited)
    && a.edited <= b.edited
    && (forall g :: g in a.trees && b.trees[g] != a.trees[g] ==> g in b.edited)
    && (forall r :: r in a.records && r !in a.unsettled ==> r !in b.unsettled)
  }

  ghost predicate Drift(a: Fs, b: Fs, calm: bool) {
    Touched(a, b) && (calm ==> a == b)
  }

  /** Two parent contents that differ in the files about the shell only. */
  ghost predicate SameButIntents(v: View, w: View) {
    forall n: Name :: !n.RestartIntent? && !n.Temporary? ==> SameName(v, w, n)
  }

  /** Nothing a recovery could look at has changed: directories stand, except for files about the shell. */
  ghost predicate Undisturbed(a: Fs, b: Fs)
    requires a.Valid() && b.Valid()
  {
    && b.directories.Keys == a.directories.Keys
    && (forall d :: d in a.directories && d != PARENT ==> b.directories[d] == a.directories[d])
    && SameButIntents(a.At(PARENT), b.At(PARENT))
    && Remembers(a, b)
    && b.trees.Keys == a.trees.Keys
    && b.unguarded == a.unguarded
  }

  lemma QuietTransitive(a: Fs, b: Fs, c: Fs)
    requires a.Valid() && b.Valid() && c.Valid() && Undisturbed(a, b) && Undisturbed(b, c)
    ensures Undisturbed(a, c)
  {
    hide Fs.Numbered;
    assert a.Valid() && b.Valid() && c.Valid();
  }

  lemma CountingIsValid(a: Fs, b: Fs)
    requires a.Valid() && b == a.(unguarded := b.unguarded)
    ensures b.Valid()
  {
  }

  lemma QuietReflexive(a: Fs)
    requires a.Valid()
    ensures Undisturbed(a, a)
  {
  }

  lemma ShellChanged(a: Fs, shell: Shell, kills: nat)
    requires a.Valid()
    ensures a.(shell := shell, kills := kills).Valid() && Undisturbed(a, a.(shell := shell, kills := kills))
  {
  }

  lemma TouchedIsQuiet(a: Fs, b: Fs)
    requires a.Valid() && b.Valid() && Touched(a, b)
    ensures Undisturbed(a, b)
  {
  }

  lemma IntentRenamed(a: Fs, tag: nat)
    requires a.Valid() && Temporary(tag) in a.At(PARENT) && RestartIntent !in a.At(PARENT)
    ensures var b := a.RenameWithin(PARENT, Temporary(tag), RestartIntent); b.Valid() && Undisturbed(a, b)
  {
    RenameWithinValid(a, PARENT, Temporary(tag), RestartIntent);
    hide Fs.Numbered;
  }

  lemma IntentDropped(a: Fs, name: Name)
    requires a.Valid() && name in a.At(PARENT) && (name.Temporary? || name.RestartIntent?)
    ensures var b := a.Unlink(PARENT, name); b.Valid() && Undisturbed(a, b)
  {
    UnlinkValid(a, PARENT, name);
    hide Fs.Numbered;
  }

  lemma IntentMade(a: Fs, tag: nat)
    requires a.Valid() && Temporary(tag) !in a.At(PARENT)
    ensures var b := a.MakeRecord(PARENT, Temporary(tag), IntentRecord);
      b.Valid() && Undisturbed(a, b)
  {
    MakeRecordValid(a, PARENT, Temporary(tag), IntentRecord);
    RecordIsNew(a);
    hide Fs.Numbered;
  }

  lemma RecordIsNew(a: Fs)
    requires a.Valid()
    ensures a.nextId !in a.trees && a.nextId !in a.records && a.nextId !in a.unsettled
  {
  }

  lemma RecordSettled(a: Fs, x: Id)
    requires a.Valid() && x in a.records
    ensures a.Settle(x).Valid() && Undisturbed(a, a.Settle(x))
  {
  }

  lemma ParentSynced(a: Fs)
    requires a.Valid()
    ensures a.Sync(PARENT).Valid() && Undisturbed(a, a.Sync(PARENT))
  {
  }

  /** At most the journal's entry is gone; everything else recovery could look at is as it was. */
  ghost predicate AbandonedOnly(a: Fs, b: Fs)
    requires a.Readable() && b.Readable()
  {
    && b.directories.Keys == a.directories.Keys
    && (forall d :: d in a.directories && d != PARENT ==> b.directories[d] == a.directories[d])
    && (b.At(PARENT) == a.At(PARENT) || b.At(PARENT) == a.At(PARENT) - {Journal})
    && Remembers(a, b)
    && b.trees.Keys == a.trees.Keys
    && b.unguarded == a.unguarded
  }

  /** At most the journal's entry is gone, and files about the shell have come or gone. */
  ghost predicate RefusedCleanly(a: Fs, b: Fs)
    requires a.Readable() && b.Readable()
  {
    && b.directories.Keys == a.directories.Keys
    && (forall d :: d in a.directories && d != PARENT ==> b.directories[d] == a.directories[d])
    && (forall n: Name :: !n.RestartIntent? && !n.Temporary? && !n.Journal? ==> SameName(a.At(PARENT), b.At(PARENT), n))
    && Remembers(a, b)
    && b.trees.Keys == a.trees.Keys
    && b.unguarded == a.unguarded
  }

  lemma RemembersTransitive(a: Fs, b: Fs, c: Fs)
    requires Remembers(a, b) && Remembers(b, c)
    ensures Remembers(a, c)
  {
  }

  lemma TouchedIsClean(a: Fs, b: Fs)
    requires a.Readable() && b.Readable() && Touched(a, b)
    ensures AbandonedOnly(a, b)
  {
  }

  lemma UnlinkIsClean(a: Fs, b: Fs)
    requires a.Readable() && b.Readable() && Touched(a.Unlink(PARENT, Journal), b)
    ensures AbandonedOnly(a, b)
  {
  }

  lemma SyncIsClean(a: Fs, b: Fs, c: Fs)
    requires a.Readable() && b.Readable() && c.Readable() && AbandonedOnly(a, b)
    requires Touched(b, c) || Touched(b.Sync(PARENT), c)
    ensures AbandonedOnly(a, c)
  {
  }

  lemma QuietFacts(a: Fs, b: Fs)
    requires a.Valid() && b.Valid() && Undisturbed(a, b)
    ensures b.directories.Keys == a.directories.Keys && b.trees.Keys == a.trees.Keys
    ensures Remembers(a, b) && b.unguarded == a.unguarded
  {
  }

  lemma CleanlyAbandoned(a: Fs, b: Fs, c: Fs)
    requires a.Valid() && b.Valid() && c.Valid() && Undisturbed(a, b) && AbandonedOnly(b, c)
    ensures RefusedCleanly(a, c)
  {
    hide Fs.Numbered;
  }

  lemma CleanFacts(a: Fs, b: Fs)
    requires a.Valid() && b.Valid() && RefusedCleanly(a, b)
    ensures b.trees.Keys == a.trees.Keys && Remembers(a, b) && b.unguarded == a.unguarded
  {
  }

  /** The journal names `plan`, nothing is published yet, and the new tree is staged where it should be. */
  ghost predicate Ready(s: Fs, q: Id, plan: Plan) {
    && s.Readable()
    && Names(s.At(PARENT), Journal, q) && q in s.records && s.records[q] == PlanRecord(plan)
    && plan.transaction in s.directories && plan.transaction != PARENT
    && AtOld(plan, s.At(PARENT))
    && Names(s.At(plan.transaction), New, plan.after.identity)
  }

  lemma ReadyNames(s: Fs, q: Id, plan: Plan)
    requires Ready(s, q, plan)
    ensures s.Readable() && Names(s.At(PARENT), Journal, q)
  {
  }

  lemma StillReady(a: Fs, b: Fs, q: Id, plan: Plan)
    requires a.Valid() && b.Valid() && Undisturbed(a, b) && Ready(a, q, plan)
    ensures Ready(b, q, plan)
  {
    hide Fs.Numbered;
    assert SameName(a.At(PARENT), b.At(PARENT), Journal);
    assert SameName(a.At(PARENT), b.At(PARENT), Destination);
  }

  lemma JournalLegal(s: Fs)
    requires Good(s) && Journal in s.At(PARENT)
    ensures var q := s.At(PARENT)[Journal];
      && IsPlan(s, q) && q !in s.unsettled
      && var plan := s.records[q].plan;
      && plan.transaction in s.directories && plan.transaction != PARENT
      && Names(s.At(PARENT), Transaction(plan.tag), plan.transaction)
      && Durable(s, plan.after)
      && (plan.before.Some? ==> Faithful(s, plan.before.value) && plan.before.value.identity != plan.after.identity)
      && Legal(q, plan, s.At(PARENT), s.At(plan.transaction))
  {
    hide Judge, Faithful, Durable, Known, Legal;
    JournalIsPlan(s);
    var plan := s.records[s.At(PARENT)[Journal]].plan;
    PairedLast(s.directories[PARENT], s.directories[plan.transaction]);
  }

  /** `snapshot` of the object with identity `id`. */
  function Judged(trees: map<Id, Tree>, id: Id): Result<Snapshot, Error> {
    if id !in trees then Err(Refused(NotADirectory)) else
      match Judge(id, trees[id])
      case Ok(snap) => Ok(snap)
      case Err(why) => Err(Refused(why))
  }

  predicate HasTag(n: Name, tag: nat) {
    n == Transaction(tag) || n == Temporary(tag)
  }

  lemma SubsetIsSmaller<T>(a: set<T>, b: set<T>)
    requires a <= b
    ensures |a| <= |b|
  {
    assert b == a + (b - a);
  }

  /** mkdtemp and mkstemp: some name that is not taken. */
  method UnusedTag(v: View) returns (tag: nat)
    ensures Transaction(tag) !in v && Temporary(tag) !in v
  {
    tag := 0;
    ghost var seen: set<Name> := {};
    while Transaction(tag) in v || Temporary(tag) in v
      invariant seen <= v.Keys && |seen| == tag
      invariant forall n, k: nat :: n in seen && HasTag(n, k) ==> k < tag
      decreases |v.Keys| - tag
    {
      ghost var n := if Transaction(tag) in v then Transaction(tag) else Temporary(tag);
      assert HasTag(n, tag);
      seen := seen + {n};
      tag := tag + 1;
      SubsetIsSmaller(seen, v.Keys);
    }
  }

  /** b is a, except inside transaction directory t and for what others edited. */
  ghost predicate Within(a: Fs, b: Fs, t: Id) {
    && b.directories.Keys == a.directories.Keys
    && (forall d :: d in a.directories && d != t ==> b.directories[d] == a.directories[d])
    && Remembers(a, b)
    && b.trees.Keys == a.trees.Keys
    && b.unguarded == a.unguarded && b.kills == a.kills && b.shell == a.shell
  }

  lemma WithinTransitive(a: Fs, b: Fs, c: Fs, t: Id)
    requires Within(a, b, t) && Within(b, c, t)
    ensures Within(a, c, t)
  {
  }

  lemma TouchedIsWithin(a: Fs, b: Fs, t: Id)
    requires Touched(a, b)
    ensures Within(a, b, t)
  {
  }

  lemma TargetIsWithin(a: Fs, target: Fs, b: Fs, t: Id)
    requires Within(a, target, t) && Touched(target, b)
    ensures Within(a, b, t)
  {
  }

  /** The journal names `plan` and the new generation is at the destination. */
  ghost predicate Published(s: Fs, q: Id, plan: Plan) {
    && s.Readable()
    && Names(s.At(PARENT), Journal, q) && q in s.records && s.records[q] == PlanRecord(plan)
    && plan.transaction in s.directories && plan.transaction != PARENT
    && Names(s.At(PARENT), Destination, plan.after.identity)
  }

  lemma StillPublished(a: Fs, b: Fs, q: Id, plan: Plan, t: Id)
    requires Published(a, q, plan) && Within(a, b, t) && t != PARENT && b.Readable()
    ensures Published(b, q, plan) && b.directories[PARENT] == a.directories[PARENT]
  {
  }

  lemma PublishedShape(s: Fs, q: Id, plan: Plan)
    requires Good(s) && Published(s, q, plan)
    ensures Swapped(plan, s.At(PARENT), s.At(plan.transaction)) || Retired(plan, s.At(plan.transaction))
    ensures plan.before.Some? ==> plan.before.value.identity != plan.after.identity
  {
    hide Judge, Faithful, Durable, Known;
    JournalLegal(s);
  }

  lemma NothingToRetire(s: Fs, q: Id, plan: Plan)
    requires Good(s) && Published(s, q, plan) && plan.before.None?
    ensures Retired(plan, s.At(plan.transaction))
  {
    hide Judge;
    PublishedShape(s, q, plan);
  }

  lemma SyncIsWithin(a: Fs, t: Id)
    requires a.Valid() && t in a.directories
    ensures a.Sync(t).Valid() && Within(a, a.Sync(t), t)
  {
    SyncValid(a, t);
  }

  lemma RetireIsWithin(a: Fs, t: Id)
    requires a.Valid() && t in a.directories && New in a.At(t) && Previous !in a.At(t)
    ensures var b := a.RenameWithin(t, New, Previous); b.Valid() && Within(a, b, t)
  {
    RenameWithinValid(a, t, New, Previous);
  }

  lemma NoteIsWithin(a: Fs, t: Id, changed: bool)
    requires a.Valid() && t in a.directories
    ensures var b := a.MakeRecord(t, CompletedFile, CompletionNote(changed)); b.Valid() && Within(a, b, t)
  {
    MakeRecordValid(a, t, CompletedFile, CompletionNote(changed));
  }

  /** The completion note is there, and says so. */
  ghost predicate Noted(s: Fs, t: Id, changed: bool) {
    && t in s.directories && s.directories[t].revisions != []
    && CompletedFile in s.At(t)
    && s.At(t)[CompletedFile] in s.records && s.records[s.At(t)[CompletedFile]] == CompletionNote(changed)
  }

  lemma NoteMade(a: Fs, b: Fs, t: Id, changed: bool)
    requires t in a.directories && a.directories[t].revisions != []
    requires Touched(a.MakeRecord(t, CompletedFile, CompletionNote(changed)), b)
    ensures Noted(b, t, changed)
  {
  }

  lemma StillNoted(a: Fs, b: Fs, t: Id, changed: bool)
    requires Noted(a, t, changed) && Remembers(a, b) && t in b.directories && b.directories[t].revisions != []
    requires b.At(t) == a.At(t)
    ensures Noted(b, t, changed)
  {
  }

  /** Directory t has the completion note it had, or still none. */
  ghost predicate SameNote(a: Fs, b: Fs, t: Id) {
    && t in a.directories && a.directories[t].revisions != []
    && t in b.directories && b.directories[t].revisions != []
    && SameName(a.At(t), b.At(t), CompletedFile)
  }

  lemma SameNoteTransitive(a: Fs, b: Fs, c: Fs, t: Id)
    requires SameNote(a, b, t) && SameNote(b, c, t)
    ensures SameNote(a, c, t)
  {
  }

  lemma SameViewSameNote(a: Fs, b: Fs, c: Fs, t: Id)
    requires SameNote(a, b, t) && t in c.directories && c.directories[t].revisions != [] && c.At(t) == b.At(t)
    ensures SameNote(a, c, t)
  {
  }

  lemma SyncKeepsNote(a: Fs, b: Fs, t: Id)
    requires a.Readable() && t in a.directories && t != PARENT && (Touched(a.Sync(PARENT), b) || Touched(a, b))
    ensures SameNote(a, b, t)
  {
  }

  lemma NotedAlready(a: Fs, b: Fs, t: Id)
    requires SameNote(a, b, t)
    ensures CompletedFile in a.At(t) <==> CompletedFile in b.At(t)
  {
  }

  lemma TouchedKeepsNote(a: Fs, b: Fs, t: Id)
    requires a.Readable() && t in a.directories && Touched(a, b)
    ensures SameNote(a, b, t)
  {
  }

  lemma RetireKeepsNote(a: Fs, b: Fs, t: Id)
    requires a.Readable() && t in a.directories && New in a.At(t) && Previous !in a.At(t)
    requires Touched(a.RenameWithin(t, New, Previous), b)
    ensures SameNote(a, b, t)
  {
  }

  lemma SwapKeepsNote(a: Fs, b: Fs, t: Id, exchange: bool, unguarded: nat)
    requires a.Readable() && t in a.directories && t != PARENT
    requires New in a.At(t) && (exchange <==> Destination in a.At(PARENT))
    requires Touched(a.RenameUp(t, New, Destination, exchange).(unguarded := unguarded), b)
    ensures SameNote(a, b, t)
  {
  }

  lemma QuietKeepsNote(a: Fs, b: Fs, t: Id)
    requires a.Valid() && b.Valid() && Undisturbed(a, b) && t in a.directories && t != PARENT
    ensures SameNote(a, b, t)
  {
  }

  /** At some moment of the run, from the given one on, the old generation was seen just as it was captured. */
  ghost predicate SeenIntact(run: seq<Fs>, from: nat, plan: Plan) {
    exists i :: from <= i < |run| && IntactAt(run[i], plan)
  }

  ghost predicate IntactAt(s: Fs, plan: Plan) {
    && plan.transaction in s.directories && s.directories[plan.transaction].revisions != []
    && RetiredIntact(s.trees, s.At(plan.transaction), plan)
  }

  /**
   The completion note tells of detected changes, or the old generation was intact when it was
   looked at; and if nothing disturbs, it tells exactly of those there are.
   */
  ghost predicate Reported(s: Fs, run: seq<Fs>, from: nat, plan: Plan, calm: bool) {
    exists changed :: Noted(s, plan.transaction, changed) && Truthful(s, run, from, plan, calm, changed)
  }

  ghost predicate Truthful(s: Fs, run: seq<Fs>, from: nat, plan: Plan, calm: bool, changed: bool) {
    && (changed ==> plan.before.Some?)
    && (plan.before.Some? && !changed ==> SeenIntact(run, from, plan))
    && (calm && plan.before.Some? ==>
          (!changed <==> Judged(s.trees, plan.before.value.identity) == Ok(plan.before.value)))
  }

  lemma SawIntact(early: seq<Fs>, late: seq<Fs>, from: nat, plan: Plan)
    requires early != [] && early <= late && from < |early| && IntactAt(early[|early| - 1], plan)
    ensures SeenIntact(late, from, plan)
  {
  }

  /** A published plan's old generation is in its transaction directory: looking there is looking at it. */
  lemma IntactWhenPublished(s: Fs, q: Id, plan: Plan)
    requires Good(s) && Published(s, q, plan) && plan.before.Some?
    ensures RetiredIntact(s.trees, s.At(plan.transaction), plan) <==>
      Judged(s.trees, plan.before.value.identity) == Ok(plan.before.value)
  {
    PublishedShape(s, q, plan);
    hide Good, Judge, Judged;
  }

  /** The note that has been written is truthful. */
  lemma Reports(a: Fs, b: Fs, early: seq<Fs>, late: seq<Fs>, from: nat, plan: Plan, calm: bool, changed: bool)
    requires early != [] && early <= late && from < |early| && early[|early| - 1] == a
    requires a.Readable() && plan.transaction in a.directories
    requires Noted(b, plan.transaction, changed) && (changed ==> plan.before.Some?)
    requires plan.before.Some? && !changed ==> RetiredIntact(a.trees, a.At(plan.transaction), plan)
    requires calm && plan.before.Some? ==>
      && b.trees == a.trees
      && (RetiredIntact(a.trees, a.At(plan.transaction), plan) ==> !changed)
      && (RetiredIntact(a.trees, a.At(plan.transaction), plan) <==>
            Judged(a.trees, plan.before.value.identity) == Ok(plan.before.value))
    ensures Reported(b, late, from, plan, calm)
  {
    hide RetiredIntact, Judged;
    if plan.before.Some? && !changed { SawIntact(early, late, from, plan); }
    hide SeenIntact;
    assert Truthful(b, late, from, plan, calm, changed);
  }

  /** Removing the journal leaves the note. */
  lemma NoteOutlives(a: Fs, b: Fs, c: Fs, d: Fs, early: seq<Fs>, late: seq<Fs>, from: nat, plan: Plan, calm: bool)
    requires a.Readable() && b.Readable() && c.Readable() && d.Readable()
    requires plan.transaction in c.directories && plan.transaction in d.directories && early <= late
    requires d.directories[plan.transaction] == c.directories[plan.transaction] && Remembers(c, d)
    requires calm ==> d.trees == c.trees
    requires SameNote(a, b, plan.transaction)
    requires CompletedFile in b.At(plan.transaction) ==> SameNote(b, c, plan.transaction)
    requires CompletedFile !in b.At(plan.transaction) ==> Reported(c, early, from, plan, calm)
    ensures CompletedFile in a.At(plan.transaction) ==> SameNote(a, d, plan.transaction)
    ensures CompletedFile !in a.At(plan.transaction) ==> Reported(d, late, from, plan, calm)
  {
    hide RetiredIntact, Judged;
    if CompletedFile !in a.At(plan.transaction) {
      var changed :| Noted(c, plan.transaction, changed) && Truthful(c, early, from, plan, calm, changed);
      StillNoted(c, d, plan.transaction, changed);
      if SeenIntact(early, from, plan) {
        var i :| from <= i < |early| && IntactAt(early[i], plan);
        assert late[i] == early[i];
      }
      assert Truthful(d, late, from, plan, calm, changed);
    }
  }

  lemma NoteSinceStart(a: Fs, b: Fs, c: Fs, run: seq<Fs>, from: nat, later: nat, plan: Plan, calm: bool)
    requires SameNote(a, b, plan.transaction) && from <= later && c.Readable()
    requires CompletedFile in b.At(plan.transaction) ==> SameNote(b, c, plan.transaction)
    requires CompletedFile !in b.At(plan.transaction) ==> Reported(c, run, later, plan, calm)
    ensures CompletedFile in a.At(plan.transaction) ==> SameNote(a, c, plan.transaction)
    ensures CompletedFile !in a.At(plan.transaction) ==> Reported(c, run, from, plan, calm)
  {
    hide RetiredIntact, Judged, Noted;
    if CompletedFile !in a.At(plan.transaction) {
      var changed :| Noted(c, plan.transaction, changed) && Truthful(c, run, later, plan, calm, changed);
      assert Truthful(c, run, from, plan, calm, changed);
    }
  }

  /** What the plan replaces is installed, and just as it was captured. */
  ghost predicate InstalledIntact(s: Fs, plan: Plan) {
    s.Readable() && AtOld(plan, s.At(PARENT)) && BeforeIntact(s.trees, plan)
  }

  /** The publication: the planned generation takes the destination. */
  ghost predicate Publishes(s: Fs, s': Fs, plan: Plan) {
    s.Readable() && s'.Readable() && s'.At(PARENT) == s.At(PARENT)[Destination := plan.after.identity]
  }

  /**
   The old generation was looked at, with the shell stopped if that was asked for, and found intact;
   then nothing but edits by others came before the publication.
   */
  ghost predicate Guarded(run: seq<Fs>, from: nat, plan: Plan, stopped: bool) {
    exists i: nat, p: nat :: from <= i <= p < |run| - 1 && GuardedAt(run, plan, stopped, i, p)
  }

  ghost predicate GuardedAt(run: seq<Fs>, plan: Plan, stopped: bool, i: nat, p: nat)
    requires i <= p < |run| - 1
  {
    && InstalledIntact(run[i], plan) && (stopped ==> run[i].shell == Stopped)
    && Touched(run[i], run[p]) && Publishes(run[p], run[p + 1], plan)
  }

  /** Before the shell was stopped the old generation was found intact. */
  ghost predicate StoppedForReason(run: seq<Fs>, from: nat, plan: Plan)
    requires from < |run|
  {
    exists i :: from <= i < |run| && InstalledIntact(run[i], plan) && run[i].kills == run[from].kills
  }

  lemma GuardedSince(early: seq<Fs>, late: seq<Fs>, from: nat, later: nat, plan: Plan, stopped: bool, more: bool)
    requires early <= late && from <= later && Guarded(early, later, plan, more) && (stopped ==> more)
    ensures Guarded(late, from, plan, stopped)
  {
    hide InstalledIntact, Publishes, Touched;
    var i: nat, p: nat :| later <= i <= p < |early| - 1 && GuardedAt(early, plan, more, i, p);
    assert late[i] == early[i] && late[p] == early[p] && late[p + 1] == early[p + 1];
    assert GuardedAt(late, plan, stopped, i, p);
  }

  lemma Guards(before: seq<Fs>, checked: seq<Fs>, run: seq<Fs>, plan: Plan)
    requires before != [] && before <= checked <= run && |checked| < |run|
    requires InstalledIntact(before[|before| - 1], plan) && Touched(before[|before| - 1], checked[|checked| - 1])
    requires Publishes(checked[|checked| - 1], run[|checked|], plan)
    ensures Guarded(run, |before| - 1, plan, before[|before| - 1].shell == Stopped)
  {
    hide InstalledIntact, Publishes, Touched;
    var i, p: nat := |before| - 1, |checked| - 1;
    assert run[i] == before[i] && run[p] == checked[p];
    assert GuardedAt(run, plan, before[i].shell == Stopped, i, p);
  }

  lemma ReasonSince(early: seq<Fs>, late: seq<Fs>, from: nat, plan: Plan)
    requires early != [] && early <= late && from < |early|
    requires InstalledIntact(early[|early| - 1], plan) && early[|early| - 1].kills == early[from].kills
    ensures StoppedForReason(late, from, plan)
  {
    hide InstalledIntact;
    assert late[|early| - 1] == early[|early| - 1] && late[from] == early[from];
  }

  lemma ReasonKept(early: seq<Fs>, late: seq<Fs>, from: nat, plan: Plan)
    requires early <= late && from < |early| && StoppedForReason(early, from, plan)
    ensures StoppedForReason(late, from, plan)
  {
    hide InstalledIntact;
    var i :| from <= i < |early| && InstalledIntact(early[i], plan) && early[i].kills == early[from].kills;
    assert late[i] == early[i] && late[from] == early[from];
  }

  /** The journal's transaction directory is still under its name. */
  ghost predicate HasDirectory(s: Fs, q: Id)
    requires s.Readable() && IsPlan(s, q)
  {
    var plan := s.records[q].plan;
    && Names(s.At(PARENT), Transaction(plan.tag), plan.transaction)
    && plan.transaction in s.directories && plan.transaction != PARENT
  }

  /** The temporary record has become the restart intent. */
  function BecameIntent(v: View, tag: nat, x: Id): View {
    (v - {Temporary(tag)})[RestartIntent := x]
  }

  lemma IsOwnIntent(a: Fs, b: Fs, c: Fs, x: Id)
    requires c.Readable() && Remembers(a, b) && Remembers(b, c)
    requires x in a.records && a.records[x] == IntentRecord && Names(c.At(PARENT), RestartIntent, x)
    ensures !ForeignIntent(c)
  {
  }

  lemma TemporaryForgotten(v: View, tag: nat, x: Id)
    requires Temporary(tag) !in v
    ensures v[Temporary(tag) := x] - {Temporary(tag)} == v
    ensures BecameIntent(v[Temporary(tag) := x], tag, x) == v[RestartIntent := x]
  {
  }

  /** There is a restart intent, and it is not one of the tool's. */
  ghost predicate ForeignIntent(s: Fs)
    requires s.Readable()
  {
    && RestartIntent in s.At(PARENT)
    && !(s.At(PARENT)[RestartIntent] in s.records && s.records[s.At(PARENT)[RestartIntent]] == IntentRecord)
  }

  lemma CleanKeepsIntent(a: Fs, b: Fs)
    requires a.Readable() && b.Readable() && (AbandonedOnly(a, b) || Touched(a, b))
    ensures RestartIntent in a.At(PARENT) ==> RestartIntent in b.At(PARENT)
  {
  }

  lemma SettledStaysNoted(a: Fs, b: Fs, x: Id, t: Id, changed: bool)
    requires Noted(a, t, changed) && Touched(a.Settle(x), b)
    ensures Noted(b, t, changed)
  {
  }

  lemma SettleIsWithin(a: Fs, x: Id, t: Id)
    requires a.Valid() && x in a.records
    ensures a.Settle(x).Valid() && Within(a, a.Settle(x), t)
  {
  }

  /** What a journal needs, besides what every run guarantees it, for recovery to succeed: no edits. */
  ghost predicate Resumable(s: Fs) {
    && s.Readable() && Journal in s.At(PARENT)
    && var q := s.At(PARENT)[Journal];
    && q in s.records && s.records[q].PlanRecord?
    && var plan := s.records[q].plan;
    || Names(s.At(PARENT), Destination, plan.after.identity)
    || (&& Judged(s.trees, plan.after.identity) == Ok(plan.after)
        && (plan.before.Some? ==> Judged(s.trees, plan.before.value.identity) == Ok(plan.before.value)))
  }

  /** Recovery is over: the plan's generation is installed and the one it replaced is put aside. */
  ghost predicate Finished(s: Fs, plan: Plan) {
    && s.Readable()
    && Journal !in s.At(PARENT) && s.Synced(PARENT)
    && Names(s.At(PARENT), Destination, plan.after.identity)
    && plan.transaction in s.directories && s.Synced(plan.transaction)
    && (plan.before.Some? ==> Previous in s.At(plan.transaction))
  }

  /** What the plan replaces, if anything, is as it was captured. */
  predicate BeforeIntact(trees: map<Id, Tree>, plan: Plan) {
    plan.before.Some? ==> Judged(trees, plan.before.value.identity) == Ok(plan.before.value)
  }

  /** What the transaction directory holds of the old generation is exactly what was captured of it. */
  predicate RetiredIntact(trees: map<Id, Tree>, view: View, plan: Plan) {
    && plan.before.Some?
    && (Previous in view || New in view)
    && Judged(trees, if Previous in view then view[Previous] else view[New]) == Ok(plan.before.value)
  }

  lemma ReadyWhenUnpublished(s: Fs, q: Id, plan: Plan)
    requires Good(s) && Names(s.At(PARENT), Journal, q) && IsPlan(s, q) && s.records[q].plan == plan
    requires !Names(s.At(PARENT), Destination, plan.after.identity)
    ensures Ready(s, q, plan)
  {
    hide Judge, Faithful, Durable, Known;
    JournalLegal(s);
  }

  lemma MayComplete(s: Fs, q: Id, plan: Plan)
    requires Good(s) && Published(s, q, plan) && s.Synced(plan.transaction)
    requires Retired(plan, s.At(plan.transaction))
    ensures Enabled(s, UnlinkJournal(q)) && Do(s, UnlinkJournal(q)) == s.Unlink(PARENT, Journal)
  {
  }

  lemma SyncRemembers(a: Fs, b: Fs)
    requires a.Readable() && b.Readable() && (Touched(a, b) || Touched(a.Sync(PARENT), b))
    ensures Remembers(a, b) && b.trees.Keys == a.trees.Keys && b.At(PARENT) == a.At(PARENT)
    ensures b.directories.Keys == a.directories.Keys
  {
  }

  lemma RetiredStays(plan: Plan, v: View, w: View)
    requires Retired(plan, v) && SameName(v, w, New) && SameName(v, w, Previous)
    ensures Retired(plan, w)
  {
  }

  lemma CleanRemembers(a: Fs, b: Fs, c: Fs, t: Id)
    requires b.Readable() && c.Readable() && Remembers(a, b) && AbandonedOnly(b, c)
    requires t in b.directories && t != PARENT
    ensures Remembers(a, c) && Remembers(b, c) && c.unguarded == b.unguarded && c.trees.Keys == b.trees.Keys
    ensures t in c.directories && c.directories[t] == b.directories[t]
    ensures c.At(PARENT) == b.At(PARENT) || c.At(PARENT) == b.At(PARENT) - {Journal}
  {
  }

  lemma PublishAfterCheck(a: Fs, b: Fs, c: Fs)
    requires a.Valid() && b.Valid() && c.Valid() && Undisturbed(a, b) && Remembers(b, c) && c.trees.Keys == b.trees.Keys
    ensures Remembers(a, c) && c.trees.Keys == a.trees.Keys && b.unguarded == a.unguarded
    ensures Undisturbed(b, c) ==> Undisturbed(a, c)
    ensures RefusedCleanly(b, c) ==> RefusedCleanly(a, c)
  {
    hide Fs.Numbered;
    if Undisturbed(b, c) { QuietTransitive(a, b, c); }
  }

  lemma WithinRemembers(a: Fs, b: Fs, c: Fs, t: Id)
    requires Remembers(a, b) && Within(b, c, t)
    ensures Remembers(a, c) && c.unguarded == b.unguarded && c.kills == b.kills && c.shell == b.shell
    ensures c.trees.Keys == b.trees.Keys && c.directories.Keys == b.directories.Keys
  {
  }

  // When the steps of `Recovery` may be taken.

  lemma MaySync(s: Fs, d: Id)
    requires Good(s) && d in s.directories
    ensures Enabled(s, SyncDirectory(d)) && Do(s, SyncDirectory(d)) == s.Sync(d)
  {
    hide Good;
  }

  lemma MaySyncRecord(s: Fs, r: Id)
    requires Good(s) && r in s.records
    ensures Enabled(s, SyncRecord(r)) && Do(s, SyncRecord(r)) == s.Settle(r)
  {
    hide Good;
  }

  lemma MayWriteIntent(s: Fs, tag: nat)
    requires Good(s) && Temporary(tag) !in s.At(PARENT)
    ensures Enabled(s, WriteIntent(tag))
    ensures Do(s, WriteIntent(tag)) == s.MakeRecord(PARENT, Temporary(tag), IntentRecord)
  {
  }

  lemma MayPublishIntent(s: Fs, tag: nat, r: Id)
    requires Good(s) && Names(s.At(PARENT), Temporary(tag), r) && RestartIntent !in s.At(PARENT)
    requires r in s.records && r !in s.unsettled && s.records[r] == IntentRecord
    ensures Enabled(s, Recovery.PublishIntent(tag))
    ensures Do(s, Recovery.PublishIntent(tag)) == s.RenameWithin(PARENT, Temporary(tag), RestartIntent)
  {
  }

  lemma MayDropTemporary(s: Fs, tag: nat)
    requires Good(s) && Temporary(tag) in s.At(PARENT)
    ensures Enabled(s, DropTemporary(tag)) && Do(s, DropTemporary(tag)) == s.Unlink(PARENT, Temporary(tag))
  {
  }

  lemma MayRemoveIntent(s: Fs)
    requires Good(s) && RestartIntent in s.At(PARENT) && s.shell == Running
    ensures Enabled(s, RemoveIntent) && Do(s, RemoveIntent) == s.Unlink(PARENT, RestartIntent)
  {
  }

  lemma MayStopShell(s: Fs)
    requires Good(s) && RestartIntent in s.At(PARENT) && s.Synced(PARENT)
    ensures Enabled(s, Recovery.StopShell) && Do(s, Recovery.StopShell) == s.(shell := Stopped, kills := s.kills + 1)
  {
  }

  lemma MayStartShell(s: Fs)
    requires Good(s)
    ensures Enabled(s, StartShell) && Do(s, StartShell) == s.(shell := Running)
  {
  }

  lemma MayPublish(s: Fs, q: Id)
    requires Good(s) && Names(s.At(PARENT), Journal, q) && IsPlan(s, q)
    requires var plan := s.records[q].plan;
      && AtOld(plan, s.At(PARENT))
      && plan.transaction in s.directories && Names(s.At(plan.transaction), New, plan.after.identity)
    ensures Enabled(s, Publish(q))
    ensures Do(s, Publish(q)) ==
      s.RenameUp(s.records[q].plan.transaction, New, Destination, s.records[q].plan.before.Some?)
      .(unguarded := s.unguarded + if s.shell == Running then 1 else 0)
  {
  }

  lemma MayRetire(s: Fs, q: Id)
    requires Good(s) && Names(s.At(PARENT), Journal, q) && IsPlan(s, q) && s.Synced(PARENT)
    requires var plan := s.records[q].plan;
      && plan.before.Some? && plan.transaction in s.directories
      && Swapped(plan, s.At(PARENT), s.At(plan.transaction))
    ensures Enabled(s, RetireOld(q))
    ensures Do(s, RetireOld(q)) == s.RenameWithin(s.records[q].plan.transaction, New, Previous)
  {
  }

  lemma MayWriteCompletion(s: Fs, t: Id, changed: bool)
    requires Good(s) && t in s.directories && t != PARENT && CompletedFile !in s.At(t)
    ensures Enabled(s, WriteCompletion(t, changed))
    ensures Do(s, WriteCompletion(t, changed)) == s.MakeRecord(t, CompletedFile, CompletionNote(changed))
  {
  }

  lemma MayAbandon(s: Fs, q: Id)
    requires Good(s) && Names(s.At(PARENT), Journal, q) && IsPlan(s, q) && AtOld(s.records[q].plan, s.At(PARENT))
    ensures Enabled(s, UnlinkJournal(q)) && Do(s, UnlinkJournal(q)) == s.Unlink(PARENT, Journal)
  {
    JournalLegal(s);
  }

  // Staging a new generation

  /** b is a, except inside transaction directory t, in the private tree g, and for what others edited. */
  ghost predicate Apart(a: Fs, b: Fs, t: Id, g: Id) {
    && b.directories.Keys == a.directories.Keys
    && (forall d :: d in a.directories && d != t ==> b.directories[d] == a.directories[d])
    && b.records == a.records
    && b.trees.Keys == a.trees.Keys
    && a.edited <= b.edited
    && (forall x :: x in a.trees && x != g && b.trees[x] != a.trees[x] ==> x in b.edited)
    && (forall x :: x in a.trees && x != g && x in a.unsettled ==> x in b.unsettled)
    && (forall r :: r in a.records && r !in a.unsettled ==> r !in b.unsettled)
    && b.unguarded == a.unguarded && b.kills == a.kills && b.shell == a.shell
  }

  lemma ApartTransitive(a: Fs, b: Fs, c: Fs, t: Id, g: Id)
    requires Apart(a, b, t, g) && Apart(b, c, t, g)
    ensures Apart(a, c, t, g)
  {
  }

  lemma TouchedIsApart(a: Fs, b: Fs, t: Id, g: Id)
    requires Touched(a, b)
    ensures Apart(a, b, t, g)
  {
  }

  lemma TargetIsApart(a: Fs, target: Fs, b: Fs, t: Id, g: Id)
    requires Apart(a, target, t, g) && Touched(target, b)
    ensures Apart(a, b, t, g)
  {
  }

  /** The destination is still what was captured. */
  ghost predicate SameInstallation(s: Fs, prior: Option<Snapshot>)
    requires s.Readable()
  {
    && (if prior.Some? then Names(s.At(PARENT), Destination, prior.value.identity) else Destination !in s.At(PARENT))
    && (prior.Some? ==> Known(s, prior.value))
  }

  /** Transaction t has been made for us, is known on disk, and no journal is about. */
  ghost predicate Begun(s: Fs, tag: nat, t: Id, prior: Option<Snapshot>, sound: bool) {
    && s.Valid() && s.Synced(PARENT)
    && Journal !in s.At(PARENT) && Names(s.At(PARENT), Transaction(tag), t)
    && t in s.directories && t != PARENT && Previous !in s.At(t) && PlanFile !in s.At(t)
    && SameInstallation(s, prior)
    && (sound ==> Unplanned(s, t))
  }

  /** Tree g is being staged in it, and is nobody else's. */
  ghost predicate InProgress(s: Fs, tag: nat, t: Id, g: Id, prior: Option<Snapshot>, sound: bool) {
    && Begun(s, tag, t, prior, sound)
    && Names(s.At(t), New, g) && g in s.trees
    && (prior.Some? ==> prior.value.identity != g)
    && (sound ==> Private(s, g))
  }

  lemma StillInProgress(a: Fs, b: Fs, tag: nat, t: Id, g: Id, prior: Option<Snapshot>, sound: bool)
    requires InProgress(a, tag, t, g, prior, sound) && b.Valid() && Apart(a, b, t, g) && b.At(t) == a.At(t)
    requires b.directories[t].synced >= a.directories[t].synced
    ensures InProgress(b, tag, t, g, prior, sound)
  {
    hide Judge, Fs.Numbered;
  }

  lemma StillSame(a: Fs, b: Fs, prior: Option<Snapshot>)
    requires a.Valid() && b.Valid() && SameInstallation(a, prior)
    requires Remembers(a, b) && SameName(a.At(PARENT), b.At(PARENT), Destination)
    ensures SameInstallation(b, prior)
  {
    hide Judge, Fs.Numbered;
  }

  lemma MayMakeTransaction(s: Fs, tag: nat)
    requires Good(s) && Transaction(tag) !in s.At(PARENT)
    ensures Enabled(s, MakeTransaction(tag)) && Do(s, MakeTransaction(tag)) == s.MakeDirectory(Transaction(tag))
  {
  }

  /** No plan can speak of a directory that is only now made. */
  lemma NewIsUnplanned(s: Fs, tag: nat)
    requires Good(s)
    ensures Unplanned(s.MakeDirectory(Transaction(tag)), s.nextId)
  {
    PlansHaveDirectories(s);
  }

  lemma MayStageTree(s: Fs, t: Id, tree: Tree)
    requires Good(s) && Unplanned(s, t) && New !in s.At(t)
    ensures Enabled(s, StageTree(t, tree)) && Do(s, StageTree(t, tree)) == s.MakeTree(t, New, tree)
  {
  }

  /** A tree that is only now made is nobody's. */
  lemma NewIsPrivate(s: Fs, t: Id, tree: Tree)
    requires Good(s) && t in s.directories && t != PARENT
    ensures s.MakeTree(t, New, tree).Valid() && Private(s.MakeTree(t, New, tree), s.nextId)
  {
    hide Judge, Shapes, ParentKept;
    MakeTreeValid(s, t, New, tree);
    forall q | IsPlan(s, q)
      ensures s.records[q].plan.after.identity != s.nextId
      ensures s.records[q].plan.before.Some? ==> s.records[q].plan.before.value.identity != s.nextId
    {
      assert PlanKept(s, q);
    }
    assert s.directories[PARENT].Valid(s.clock, s.nextId);
  }

  lemma MayWriteStaged(s: Fs, g: Id, tree: Tree)
    requires Good(s) && Private(s, g)
    ensures Enabled(s, WriteStaged(g, tree)) && Do(s, WriteStaged(g, tree)) == s.Rewrite(g, tree)
  {
  }

  lemma MaySyncTree(s: Fs, g: Id)
    requires Good(s) && Private(s, g)
    ensures Enabled(s, SyncTree(g)) && Do(s, SyncTree(g)) == s.Settle(g)
  {
  }

  lemma MayWritePlan(s: Fs, t: Id, plan: Plan)
    requires Good(s) && Staging(s, t, plan) && PlanFile !in s.At(t)
    ensures Enabled(s, WritePlan(t, plan)) && Do(s, WritePlan(t, plan)) == s.MakeRecord(t, PlanFile, PlanRecord(plan))
  {
  }

  lemma MayLinkJournal(s: Fs, q: Id)
    requires Good(s) && IsPlan(s, q) && q !in s.unsettled && Journal !in s.At(PARENT)
    requires var plan := s.records[q].plan;
      && AtOld(plan, s.At(PARENT)) && plan.transaction in s.directories && s.Synced(plan.transaction)
      && Names(s.At(plan.transaction), New, plan.after.identity)
    ensures Enabled(s, LinkJournal(q)) && Do(s, LinkJournal(q)) == s.Link(PARENT, Journal, q)
  {
  }

  lemma RewriteIsApart(a: Fs, g: Id, tree: Tree, t: Id)
    requires a.Valid() && g in a.trees
    ensures a.Rewrite(g, tree).Valid() && Apart(a, a.Rewrite(g, tree), t, g)
  {
  }

  lemma SettleIsApart(a: Fs, g: Id, t: Id)
    requires a.Valid() && g in a.trees
    ensures a.Settle(g).Valid() && Apart(a, a.Settle(g), t, g)
  {
  }

  lemma SyncIsApart(a: Fs, t: Id, g: Id)
    requires a.Valid() && t in a.directories
    ensures a.Sync(t).Valid() && Apart(a, a.Sync(t), t, g)
  {
    SyncValid(a, t);
  }

  ghost predicate SameButTransactions(v: View, w: View) {
    forall n: Name :: !n.Transaction? ==> SameName(v, w, n)
  }

  lemma MakeDirectoryFacts(s: Fs, tag: nat)
    requires s.Valid()
    ensures s.MakeDirectory(Transaction(tag)).Valid()
    ensures s.nextId !in s.directories && s.nextId != PARENT
  {
    MakeDirectoryValid(s, Transaction(tag));
  }

  lemma MkdirFacts(a: Fs, b: Fs, tag: nat, prior: Option<Snapshot>)
    requires a.Valid() && b.Valid() && SameInstallation(a, prior)
    requires Touched(a.MakeDirectory(Transaction(tag)), b)
    ensures Remembers(a, b) && SameInstallation(b, prior)
    ensures SameButTransactions(a.At(PARENT), b.At(PARENT))
    ensures b.At(PARENT) == a.At(PARENT)[Transaction(tag) := a.nextId]
    ensures a.nextId in b.directories && a.nextId != PARENT && b.At(a.nextId) == map[]
    ensures b.unguarded == a.unguarded && b.kills == a.kills && b.shell == a.shell && b.trees.Keys == a.trees.Keys
  {
    MkdirViews(a, tag);
    MkdirRemembers(a, a.MakeDirectory(Transaction(tag)), b);
    hide Judge, Fs.Numbered, Fs.MakeDirectory, SameInstallation, Remembers;
    StillSame(a, b, prior);
  }

  lemma MkdirRemembers(a: Fs, made: Fs, b: Fs)
    requires a.Valid() && made == a.(directories := made.directories, clock := made.clock, nextId := made.nextId)
    requires Touched(made, b)
    ensures Remembers(a, b)
  {
    hide Fs.Numbered;
  }

  lemma MkdirViews(a: Fs, tag: nat)
    requires a.Valid()
    ensures var b := a.MakeDirectory(Transaction(tag));
      && b.Readable() && b.At(PARENT) == a.At(PARENT)[Transaction(tag) := a.nextId]
      && a.nextId in b.directories && a.nextId != PARENT && b.At(a.nextId) == map[]
      && b == a.(directories := b.directories, clock := b.clock, nextId := b.nextId)
  {
    MakeDirectoryFacts(a, tag);
    hide Fs.Numbered;
  }

  lemma SyncedAfterMkdir(b: Fs, c: Fs, t: Id, prior: Option<Snapshot>)
    requires b.Valid() && c.Valid() && SameInstallation(b, prior)
    requires Touched(b, c) || Touched(b.Sync(PARENT), c)
    requires t in b.directories && t != PARENT
    ensures SameInstallation(c, prior) && c.At(PARENT) == b.At(PARENT)
    ensures t in c.directories && c.At(t) == b.At(t)
    ensures Remembers(b, c)
    ensures c.unguarded == b.unguarded && c.kills == b.kills && c.shell == b.shell && c.trees.Keys == b.trees.Keys
    ensures Unplanned(b, t) ==> Unplanned(c, t)
  {
    hide Judge, Fs.Numbered;
  }

  lemma StillUnplanned(a: Fs, b: Fs, t: Id)
    requires Unplanned(a, t) && Touched(a, b)
    ensures Unplanned(b, t)
  {
  }

  lemma InProgressHas(s: Fs, tag: nat, t: Id, g: Id, prior: Option<Snapshot>, sound: bool)
    requires InProgress(s, tag, t, g, prior, sound)
    ensures s.Valid() && t in s.directories && t != PARENT && g in s.trees && Names(s.At(t), New, g)
  {
  }

  lemma ApartHas(a: Fs, b: Fs, t: Id, g: Id)
    requires Apart(a, b, t, g)
    ensures b.directories.Keys == a.directories.Keys && b.trees.Keys == a.trees.Keys && a.edited <= b.edited
  {
  }

  const EMPTY: Tree := Tree(true, 0, 0, 0, map[])

  lemma TreeMadeRemembers(a: Fs, b: Fs, t: Id)
    requires a.Valid() && b.Valid() && t in a.directories && t != PARENT
    requires Touched(a.MakeTree(t, New, EMPTY), b)
    ensures Remembers(a, b) && a.nextId !in a.trees && a.nextId in b.trees
    ensures b.directories[PARENT] == a.directories[PARENT]
    ensures b.unguarded == a.unguarded && b.kills == a.kills && b.shell == a.shell
    ensures forall x :: x in a.trees && x in a.unsettled ==> x in b.unsettled
    ensures t in b.directories && b.At(t) == a.At(t)[New := a.nextId]
  {
    assert a.nextId !in a.trees;
    hide Fs.Numbered;
  }

  lemma TreeMadeUnplanned(a: Fs, b: Fs, t: Id)
    requires t in a.directories && a.directories[t].revisions != []
    requires Unplanned(a, t) && Touched(a.MakeTree(t, New, EMPTY), b)
    ensures Unplanned(b, t)
  {
  }

  lemma StagingMade(a: Fs, b: Fs, tag: nat, t: Id, prior: Option<Snapshot>, sound: bool)
    requires Begun(a, tag, t, prior, sound) && a.At(t) == map[] && b.Valid()
    requires a.MakeTree(t, New, EMPTY).Valid()
    requires sound ==> Private(a.MakeTree(t, New, EMPTY), a.nextId)
    requires Touched(a.MakeTree(t, New, EMPTY), b)
    ensures InProgress(b, tag, t, a.nextId, prior, sound) && Remembers(a, b) && a.nextId !in a.trees
    ensures b.At(PARENT) == a.At(PARENT)
    ensures b.unguarded == a.unguarded && b.kills == a.kills && b.shell == a.shell
  {
    hide Judge, Fs.Numbered;
    TreeMadeRemembers(a, b, t);
    if sound {
      StillPrivate(a.MakeTree(t, New, EMPTY), b, a.nextId);
      TreeMadeUnplanned(a, b, t);
    }
    hide Touched, Private, Unplanned, Fs.MakeTree;
    StillSame(a, b, prior);
  }

  lemma StillPrivate(a: Fs, b: Fs, g: Id)
    requires a.Valid() && b.Valid() && Private(a, g) && Touched(a, b)
    ensures Private(b, g)
  {
    hide Fs.Numbered;
  }

  lemma ApartReflexive(a: Fs, t: Id, g: Id)
    ensures Apart(a, a, t, g)
  {
  }

  /** `next` is what was staged for the package; only an editor can have changed that since. */
  ghost predicate Matches(s: Fs, next: Snapshot, package: Package) {
    && next.identity in s.trees
    && (next.identity !in s.edited ==>
          Judge(next.identity, s.trees[next.identity]) == Ok(next) && Carries(s.trees[next.identity], package))
  }

  lemma MatchesStays(a: Fs, b: Fs, next: Snapshot, package: Package)
    requires Matches(a, next, package) && a.edited <= b.edited && a.trees.Keys <= b.trees.Keys
    requires b.trees[next.identity] != a.trees[next.identity] ==> next.identity in b.edited
    ensures Matches(b, next, package)
  {
    hide Judge, Carries;
  }

  lemma MatchesRemembered(a: Fs, b: Fs, next: Snapshot, package: Package)
    requires Matches(a, next, package) && Remembers(a, b)
    ensures Matches(b, next, package)
  {
    hide Judge, Carries;
  }

  /** A whole, durable generation in a durable transaction directory that no journal speaks of yet. */
  ghost predicate StagedWell(s: Fs, tag: nat, t: Id, prior: Option<Snapshot>, next: Snapshot, sound: bool) {
    && InProgress(s, tag, t, next.identity, prior, sound)
    && s.Synced(t)
    && Durable(s, next)
  }

  lemma RememberedTree(a: Fs, b: Fs, g: Id)
    requires Remembers(a, b) && g !in b.trees
    ensures g !in a.trees
  {
  }

  lemma ApartRemembers(a: Fs, b: Fs, c: Fs, t: Id, g: Id)
    requires Remembers(a, b) && g !in a.trees && Apart(b, c, t, g) && t != PARENT && PARENT in b.directories
    ensures Remembers(a, c) && c.directories[PARENT] == b.directories[PARENT]
    ensures c.unguarded == b.unguarded && c.kills == b.kills && c.shell == b.shell
  {
  }

  /** Once synced, a tree is on disk unless somebody has edited it. */
  lemma SettledIsDurable(a: Fs, b: Fs, next: Snapshot, package: Package)
    requires Matches(a, next, package) && Touched(a.Settle(next.identity), b)
    ensures Durable(b, next) && Matches(b, next, package)
  {
    hide Judge, Carries;
  }

  lemma DurableStays(a: Fs, b: Fs, next: Snapshot)
    requires Durable(a, next) &&
      (Touched(a, b) || (exists d :: d in a.directories && a.directories[d].revisions != [] && Touched(a.Sync(d), b)))
    ensures Durable(b, next)
  {
    hide Judge;
  }

  /** The plan may be written: `Staging` holds for it. */
  lemma StagedIsStaging(s: Fs, tag: nat, t: Id, prior: Option<Snapshot>, next: Snapshot)
    requires Good(s) && StagedWell(s, tag, t, prior, next, true)
    ensures Staging(s, t, Plan(tag, t, prior, next)) && PlanFile !in s.At(t)
  {
    hide Judge, Good, Private, Faithful, Durable, Known, Unplanned, Fs.Numbered;
  }

  lemma PlanIsWithin(a: Fs, t: Id, plan: Plan)
    requires a.Valid() && t in a.directories
    ensures var b := a.MakeRecord(t, PlanFile, PlanRecord(plan)); b.Valid() && Within(a, b, t)
  {
    MakeRecordValid(a, t, PlanFile, PlanRecord(plan));
  }

  /** The plan of a staged transaction is written, and no journal is about. */
  ghost predicate Planned(s: Fs, q: Id, plan: Plan) {
    && s.Readable()
    && Journal !in s.At(PARENT) && q in s.records && s.records[q] == PlanRecord(plan)
    && plan.transaction in s.directories && plan.transaction != PARENT
    && Names(s.At(PARENT), Transaction(plan.tag), plan.transaction)
    && AtOld(plan, s.At(PARENT))
    && Names(s.At(plan.transaction), New, plan.after.identity)
  }

  lemma PlanWritten(a: Fs, b: Fs, tag: nat, t: Id, prior: Option<Snapshot>, next: Snapshot, sound: bool)
    requires StagedWell(a, tag, t, prior, next, sound)
    requires Touched(a.MakeRecord(t, PlanFile, PlanRecord(Plan(tag, t, prior, next))), b)
    ensures Planned(b, a.nextId, Plan(tag, t, prior, next))
  {
    hide Judge, Faithful, Durable, Known, Private, Unplanned, Fs.Numbered;
  }

  lemma StillPlanned(a: Fs, b: Fs, q: Id, plan: Plan)
    requires Planned(a, q, plan) && Within(a, b, plan.transaction) && b.Readable()
    requires SameName(a.At(plan.transaction), b.At(plan.transaction), New)
    ensures Planned(b, q, plan) && b.directories[PARENT] == a.directories[PARENT]
  {
  }

  lemma LinkRemembers(a: Fs, b: Fs, q: Id)
    requires a.Readable() && b.Readable() && (Touched(a, b) || Touched(a.Link(PARENT, Journal, q), b))
    ensures Remembers(a, b) && b.trees.Keys == a.trees.Keys && b.records == a.records
    ensures b.unguarded == a.unguarded && b.kills == a.kills && b.shell == a.shell
    ensures b.directories.Keys == a.directories.Keys
    ensures b.At(PARENT) == a.At(PARENT) || b.At(PARENT) == a.At(PARENT)[Journal := q]
    ensures Touched(a.Link(PARENT, Journal, q), b) ==> b.At(PARENT) == a.At(PARENT)[Journal := q]
  {
  }

  lemma PlannedHas(s: Fs, q: Id, plan: Plan)
    requires Planned(s, q, plan)
    ensures s.Readable() && plan.transaction in s.directories && plan.transaction != PARENT
    ensures q in s.records && s.records[q] == PlanRecord(plan) && Journal !in s.At(PARENT)
  {
  }

  lemma RecordIsSettled(a: Fs, b: Fs, q: Id)
    requires a.Valid() && q in a.records && Touched(a.Settle(q), b)
    ensures q !in b.unsettled && b.directories == a.directories
  {
  }

  lemma WithinKeepsSettled(a: Fs, b: Fs, t: Id, q: Id)
    requires Within(a, b, t) && q in a.records && q !in a.unsettled
    ensures q !in b.unsettled
  {
  }

  lemma WithinKeepsParent(a: Fs, b: Fs, t: Id)
    requires Within(a, b, t) && t != PARENT && PARENT in a.directories
    ensures b.directories[PARENT] == a.directories[PARENT] && Remembers(a, b)
    ensures b.unguarded == a.unguarded && b.kills == a.kills && b.shell == a.shell
  {
  }

  lemma PlannedMayLink(s: Fs, q: Id, plan: Plan)
    requires Good(s) && Planned(s, q, plan) && q !in s.unsettled && s.Synced(plan.transaction)
    ensures Enabled(s, LinkJournal(q)) && Do(s, LinkJournal(q)) == s.Link(PARENT, Journal, q)
  {
    hide Good;
    MayLinkJournal(s, q);
  }

  lemma RecordRemembered(a: Fs, b: Fs, q: Id)
    requires Remembers(a, b) && q in a.records
    ensures q in b.records && b.records[q] == a.records[q]
  {
  }

  // Installing one generation

  /** Every tree of a has in b the contents it had, and nobody has edited any. */
  ghost predicate TreesStand(a: Fs, b: Fs) {
    && b.edited == a.edited
    && forall x :: x in a.trees ==> x in b.trees && b.trees[x] == a.trees[x]
  }

  lemma StandTransitive(a: Fs, b: Fs, c: Fs)
    requires TreesStand(a, b) && TreesStand(b, c)
    ensures TreesStand(a, c)
  {
  }

  lemma SameTreesStand(a: Fs, b: Fs)
    requires b.trees == a.trees && b.edited == a.edited
    ensures TreesStand(a, b)
  {
  }

  lemma FilledStand(a: Fs, b: Fs, c: Fs, g: Id)
    requires TreesStand(a, b) && g !in a.trees && c.edited == b.edited && b.trees.Keys <= c.trees.Keys
    requires forall x :: x in b.trees && x != g ==> c.trees[x] == b.trees[x]
    ensures TreesStand(a, c)
  {
  }

  /** In b, a generation that did not exist in a and carries the package is durably installed. */
  ghost predicate Installed(a: Fs, b: Fs, package: Package) {
    && b.Readable()
    && Journal !in b.At(PARENT) && b.Synced(PARENT)
    && Destination in b.At(PARENT)
    && var g := b.At(PARENT)[Destination];
    && g !in a.trees && g in b.trees
    && (g !in b.edited ==> Judge(g, b.trees[g]).Ok? && Carries(b.trees[g], package))
  }

  /** The generation installed in a is, in b, durably `previous` in a transaction directory made since. */
  ghost predicate Superseded(a: Fs, b: Fs)
    requires a.Readable() && b.Readable()
  {
    Destination in a.At(PARENT) ==>
      exists d, tag: nat ::
        && d in b.directories && d !in a.directories && b.Synced(d)
        && Names(b.At(PARENT), Transaction(tag), d)
        && Names(b.At(d), Previous, a.At(PARENT)[Destination])
  }

  lemma FinishedIsInstalled(a: Fs, b: Fs, c: Fs, plan: Plan, package: Package)
    requires Matches(b, plan.after, package) && Remembers(b, c) && Finished(c, plan)
    requires plan.after.identity !in a.trees
    ensures Installed(a, c, package)
  {
    hide Judge, Carries;
    MatchesRemembered(b, c, plan.after, package);
  }

  lemma RetiredIsSuperseded(a: Fs, b: Fs, plan: Plan)
    requires a.Readable() && Finished(b, plan) && Retired(plan, b.At(plan.transaction))
    requires Names(b.At(PARENT), Transaction(plan.tag), plan.transaction)
    requires plan.transaction !in a.directories
    requires if plan.before.Some? then Names(a.At(PARENT), Destination, plan.before.value.identity)
      else Destination !in a.At(PARENT)
    ensures Superseded(a, b)
  {
  }

  lemma RetiredIsComplete(s: Fs, q: Id, plan: Plan)
    requires s.Valid() && Finished(s, plan) && Retired(plan, s.At(plan.transaction))
    requires q in s.records && s.records[q] == PlanRecord(plan)
    ensures Complete(s)
  {
    assert IsPlan(s, q);
  }

  lemma PlanNamesTransaction(s: Fs, q: Id)
    requires Good(s) && IsPlan(s, q)
    ensures Names(s.At(PARENT), Transaction(s.records[q].plan.tag), s.records[q].plan.transaction)
  {
    hide Judge, Shapes;
    TransactionsNamed(s);
  }

  lemma CapturedIsSame(a: Fs, b: Fs, prior: Snapshot)
    requires a.Valid() && b.Valid() && Touched(a, b)
    requires Destination in a.At(PARENT) && Judged(a.trees, a.At(PARENT)[Destination]) == Ok(prior)
    ensures SameInstallation(b, Some(prior))
  {
    SnapshotDescribes(a.At(PARENT)[Destination], a.trees[a.At(PARENT)[Destination]]);
    hide Judge, Fs.Numbered;
  }

  lemma JournalResumes(a: Fs, b: Fs, c: Fs, q: Id, plan: Plan, package: Package)
    requires a.Valid() && b.Valid() && c.Valid() && Names(c.At(PARENT), Journal, q)
    requires q in c.records && c.records[q] == PlanRecord(plan)
    requires Matches(b, plan.after, package) && TreesStand(a, b) && TreesStand(b, c)
    requires plan.after.identity !in a.trees
    requires plan.before.Some? ==>
      plan.before.value.identity in a.trees && Judged(a.trees, plan.before.value.identity) == Ok(plan.before.value)
    ensures Resumable(c)
  {
    assert a.edited <= a.trees.Keys;
    hide Judge, Carries, Fs.Numbered;
  }

  lemma TouchedBefore(a: Fs, b: Fs, c: Fs, calm: bool)
    requires a.Readable() && b.Readable() && Drift(a, b, calm) && Remembers(b, c) && (calm ==> TreesStand(b, c))
    ensures Remembers(a, c) && (calm ==> TreesStand(a, c))
  {
    TouchedRemembers(a, b, calm);
    if calm { StandTransitive(a, b, c); }
    hide TreesStand;
  }

  lemma TouchedRemembers(a: Fs, b: Fs, calm: bool)
    requires a.Readable() && b.Readable() && Drift(a, b, calm)
    ensures Remembers(a, b) && b.directories == a.directories && b.shell == a.shell && b.kills == a.kills
    ensures b.trees.Keys == a.trees.Keys && b.unguarded == a.unguarded
    ensures calm ==> TreesStand(a, b)
  {
  }

  lemma NewTreeStands(a: Fs, b: Fs, g: Id)
    requires g !in a.trees && b.trees == a.trees[g := EMPTY] && b.edited == a.edited
    ensures TreesStand(a, b)
  {
  }

  /** There is nothing to replace, or it may be replaced. */
  ghost predicate MayReplace(s: Fs, replace: bool)
    requires s.Readable()
  {
    Destination in s.At(PARENT) ==> replace && Judged(s.trees, s.At(PARENT)[Destination]).Ok?
  }

  /** `prior` is what was captured of the installation of s. */
  ghost predicate Was(s: Fs, prior: Option<Snapshot>)
    requires s.Readable()
  {
    if prior.Some? then
      && Names(s.At(PARENT), Destination, prior.value.identity)
      && Judged(s.trees, prior.value.identity) == Ok(prior.value)
    else Destination !in s.At(PARENT)
  }

  lemma FreshResumes(a: Fs, b: Fs, q: Id, plan: Plan, package: Package)
    requires a.Valid() && b.Valid() && Names(b.At(PARENT), Journal, q)
    requires q in b.records && b.records[q] == PlanRecord(plan)
    requires Matches(b, plan.after, package) && TreesStand(a, b)
    requires plan.after.identity !in a.trees && Was(a, plan.before)
    ensures Resumable(b)
  {
    SameTreesStand(b, b);
    hide Judge, Fs.Numbered, Resumable, Matches, TreesStand;
    JournalResumes(a, b, b, q, plan, package);
  }

  /** A fresh plan that was finished did what was asked. */
  lemma FreshFinished(a: Fs, b: Fs, s: Fs, q: Id, plan: Plan, package: Package, sound: bool)
    requires a.Valid() && b.Valid() && s.Valid() && Was(a, plan.before)
    requires Matches(b, plan.after, package) && Remembers(b, s)
    requires q in b.records && b.records[q] == PlanRecord(plan)
    requires plan.after.identity !in a.trees && plan.transaction !in a.directories
    requires Finished(s, plan)
    requires sound ==> Good(s) && Retired(plan, s.At(plan.transaction))
    ensures Installed(a, s, package)
    ensures sound ==> Superseded(a, s) && Complete(s)
  {
    RecordRemembered(b, s, q);
    hide Judge, Fs.Numbered, Good, Judged, Retired, Finished, Installed, Superseded, Complete, Matches, Remembers;
    FinishedIsInstalled(a, b, s, plan, package);
    if sound {
      FinishedHasTransaction(s, plan);
      PlanNamesTransaction(s, q);
      RetiredIsSuperseded(a, s, plan);
      RetiredIsComplete(s, q, plan);
    }
  }

  lemma FinishedHasTransaction(s: Fs, plan: Plan)
    requires Finished(s, plan)
    ensures plan.transaction in s.directories && s.Readable()
  {
  }

  lemma ShellNamesStay(a: Fs, b: Fs, c: Fs, q: Id)
    requires a.Readable() && b.Readable() && c.Readable()
    requires SameButTransactions(a.At(PARENT), b.At(PARENT))
    requires c.At(PARENT) == b.At(PARENT) || c.At(PARENT) == b.At(PARENT)[Journal := q]
    ensures SameName(a.At(PARENT), c.At(PARENT), Destination)
    ensures SameName(a.At(PARENT), c.At(PARENT), RestartIntent)
  {
    assert SameName(a.At(PARENT), b.At(PARENT), Destination);
    assert SameName(a.At(PARENT), b.At(PARENT), RestartIntent);
  }

  lemma FreshIsElsewhere(a: Fs, b: Fs, plan: Plan, package: Package)
    requires a.Readable() && b.Readable() && Was(a, plan.before) && plan.after.identity !in a.trees
    requires SameName(a.At(PARENT), b.At(PARENT), Destination)
    ensures !Names(b.At(PARENT), Destination, plan.after.identity)
  {
    hide Judge;
  }

  lemma RefusalKeepsDestination(a: Fs, b: Fs)
    requires a.Valid() && b.Valid() && (Undisturbed(a, b) || RefusedCleanly(a, b))
    ensures SameName(a.At(PARENT), b.At(PARENT), Destination)
  {
    hide Fs.Numbered;
    assert Undisturbed(a, b) ==> SameName(a.At(PARENT), b.At(PARENT), Destination);
    assert RefusedCleanly(a, b) ==> SameName(a.At(PARENT), b.At(PARENT), Destination);
  }

  /** Nothing stands in the way of an installation: what is half done can be finished, and then replaced. */
  ghost predicate Recovers(s: Fs, replace: bool)
    requires s.Readable()
  {
    if Journal in s.At(PARENT) then
      Resumable(s) && Judged(s.trees, s.records[s.At(PARENT)[Journal]].plan.after.identity).Ok?
    else MayReplace(s, replace)
  }

  lemma RecoveredMayReplace(a: Fs, b: Fs, replace: bool)
    requires a.Readable() && b.Readable() && Journal in a.At(PARENT)
    requires var q := a.At(PARENT)[Journal];
      q in a.records && a.records[q].PlanRecord? && Finished(b, a.records[q].plan)
    ensures Recovers(a, replace) && b.trees == a.trees ==> MayReplace(b, true)
  {
    hide Judge;
  }

  lemma MayReplaceNow(s: Fs, replace: bool)
    requires s.Readable() && Journal !in s.At(PARENT)
    ensures Recovers(s, replace) ==> MayReplace(s, replace)
  {
  }

  lemma RecoversAnyway(s: Fs, replace: bool)
    requires s.Readable() && Journal in s.At(PARENT)
    ensures Recovers(s, replace) ==> Recovers(s, true)
  {
  }

  lemma FinishedHasNoJournal(s: Fs, plan: Plan)
    requires Finished(s, plan)
    ensures Journal !in s.At(PARENT) && Names(s.At(PARENT), Destination, plan.after.identity)
  {
  }

  lemma InstalledSince(a: Fs, b: Fs, c: Fs, package: Package)
    requires a.trees.Keys <= b.trees.Keys && Installed(b, c, package)
    ensures Installed(a, c, package)
  {
  }

  /** What was durably installed when the invocation began is never lost to it. */
  lemma KeptSince(early: seq<Fs>, late: seq<Fs>, x: Id)
    requires IsRun(late) && early != [] && early <= late
    requires var s := early[|early| - 1]; s.Valid() && s.Synced(PARENT) && Names(s.At(PARENT), Destination, x)
    ensures Kept(late[|late| - 1], x)
  {
    hide IsRun, Kept;
    InstalledIsKept(early[|early| - 1]);
    KeptForever(late, |early| - 1, |late| - 1, x);
  }

  // Around the installation: the shell

  lemma IntentIsRecognized(s: Fs)
    requires Good(s) && RestartIntent in s.At(PARENT)
    ensures var x := s.At(PARENT)[RestartIntent]; x in s.records && s.records[x] == IntentRecord
  {
    assert ParentKept(s, s.At(PARENT));
  }

  lemma StoppedIsAnnounced(s: Fs)
    requires Good(s)
    ensures s.shell == Stopped ==> RestartIntent in s.At(PARENT)
  {
    assert ParentKept(s, s.At(PARENT));
  }

  lemma StillRecovers(a: Fs, b: Fs)
    requires a.Valid() && b.Valid() && Undisturbed(a, b)
    ensures Recovers(a, true) && b.trees == a.trees ==> Recovers(b, true)
  {
    hide Judge, Fs.Numbered;
    assert SameName(a.At(PARENT), b.At(PARENT), Journal);
    assert SameName(a.At(PARENT), b.At(PARENT), Destination);
  }

  lemma StillInstalled(a: Fs, b: Fs, c: Fs, package: Package)
    requires b.Valid() && c.Valid() && Installed(a, b, package) && Undisturbed(b, c) && c.Synced(PARENT)
    ensures Installed(a, c, package)
  {
    hide Judge, Carries, Fs.Numbered;
    assert SameName(b.At(PARENT), c.At(PARENT), Journal);
    assert SameName(b.At(PARENT), c.At(PARENT), Destination);
  }

  lemma StillComplete(a: Fs, b: Fs)
    requires Good(a) && b.Valid() && Undisturbed(a, b) && Complete(a)
    ensures Complete(b)
  {
    PlansHaveDirectories(a);
    hide Good, Judge, Fs.Numbered, Retired;
    assert SameName(a.At(PARENT), b.At(PARENT), Journal);
    assert SameName(a.At(PARENT), b.At(PARENT), Destination);
    var q :| IsPlan(a, q) && Names(a.At(PARENT), Destination, a.records[q].plan.after.identity)
        && a.records[q].plan.transaction in a.directories
        && Retired(a.records[q].plan, a.At(a.records[q].plan.transaction));
    assert IsPlan(b, q) && b.records[q] == a.records[q];
  }

  /** Nothing had been published, and the journal of a replacement is gone, with nothing else. */
  ghost predicate AbandonedFrom(a: Fs, b: Fs)
    requires a.Readable() && b.Readable()
  {
    && RefusedCleanly(a, b) && Journal !in b.At(PARENT)
    && Journal in a.At(PARENT)
    && var q := a.At(PARENT)[Journal];
    && IsPlan(a, q) && a.records[q].plan.before.Some?
    && !Names(a.At(PARENT), Destination, a.records[q].plan.after.identity)
  }

  /** An abandoned intent leaves the installation it would have replaced where it was. */
  lemma AbandonedKeepsOld(a: Fs, b: Fs)
    requires Good(a) && b.Valid() && AbandonedFrom(a, b)
    ensures var before := a.records[a.At(PARENT)[Journal]].plan.before.value;
      Names(b.At(PARENT), Destination, before.identity) && before.identity in b.trees
  {
    hide Judge, Fs.Numbered;
    JournalLegal(a);
    assert SameName(a.At(PARENT), b.At(PARENT), Destination);
  }

  /**
   After an intent was abandoned because the installation had been edited, putting the old
   contents back is all that a fresh replace needs.
   */
  lemma RestoredRecovers(a: Fs, b: Fs, tree: Tree)
    requires Good(a) && Good(b) && AbandonedFrom(a, b)
    requires var before := a.records[a.At(PARENT)[Journal]].plan.before.value;
      Judge(before.identity, tree) == Ok(before)
    ensures var g := a.records[a.At(PARENT)[Journal]].plan.before.value.identity;
      && Enabled(b, Edit(map[g := tree]))
      && Good(b.Touch(map[g := tree]))
      && Recovers(b.Touch(map[g := tree]), true)
  {
    GoodIsValid(b);
    hide Judge, Good, Enabled, Do, RefusedCleanly, Recovers;
    AbandonedKeepsOld(a, b);
    var g := a.records[a.At(PARENT)[Journal]].plan.before.value.identity;
    MayEdit(b, map[g := tree]);
    StepKeepsGood(b, Edit(map[g := tree]));
    MayReplaceTouched(b, g, tree);
  }

  lemma MayReplaceTouched(s: Fs, g: Id, tree: Tree)
    requires s.Readable() && Journal !in s.At(PARENT) && Names(s.At(PARENT), Destination, g)
    requires g in s.trees && Judge(g, tree).Ok?
    ensures Recovers(s.Touch(map[g := tree]), true)
  {
    hide Judge;
  }

  lemma MayEdit(s: Fs, edits: map<Id, Tree>)
    requires Good(s) && edits.Keys <= s.trees.Keys
    ensures Enabled(s, Edit(edits)) && Do(s, Edit(edits)) == s.Touch(edits)
  {
    hide Good;
  }

  /** x is durably `previous` in a named transaction directory. */
  ghost predicate PutAside(s: Fs, x: Id)
    requires s.Readable()
  {
    exists d, tag: nat ::
      && d in s.directories && d != PARENT && s.Synced(d)
      && Names(s.At(PARENT), Transaction(tag), d) && Names(s.At(d), Previous, x)
  }

  lemma StillAside(a: Fs, b: Fs, x: Id)
    requires a.Valid() && b.Valid() && Undisturbed(a, b) && PutAside(a, x)
    ensures PutAside(b, x)
  {
    hide Fs.Numbered;
    var d, tag: nat :|
      && d in a.directories && d != PARENT && a.Synced(d)
      && Names(a.At(PARENT), Transaction(tag), d) && Names(a.At(d), Previous, x);
    assert SameName(a.At(PARENT), b.At(PARENT), Transaction(tag));
    assert b.directories[d] == a.directories[d];
  }

  lemma StillToSupersede(a: Fs, b: Fs)
    requires Good(a) && b.Valid() && Undisturbed(a, b)
    ensures ToSupersede(b) == ToSupersede(a)
  {
    if Journal in a.At(PARENT) { JournalIsPlan(a); }
    hide Good, Fs.Numbered;
    assert SameName(a.At(PARENT), b.At(PARENT), Journal);
    assert SameName(a.At(PARENT), b.At(PARENT), Destination);
  }

  /** The generation this invocation has to put aside: the one its recovery installs, or the installed one. */
  function ToSupersede(s: Fs): Option<Id>
    requires s.Readable()
  {
    var v := s.At(PARENT);
    if Journal in v && v[Journal] in s.records && s.records[v[Journal]].PlanRecord? then
      Some(s.records[v[Journal]].plan.after.identity)
    else if Destination in v then Some(v[Destination]) else None
  }

  /** What is done about the shell first changes nothing for what follows. */
  lemma QuietBefore(a: Fs, b: Fs, c: Fs, calm: bool)
    requires a.Valid() && b.Valid() && Undisturbed(a, b) && (Remembers(b, c) || b == c)
    requires calm ==> b.trees == a.trees && b.edited == a.edited && (TreesStand(b, c) || b == c)
    ensures Remembers(a, c) && b.unguarded == a.unguarded && b.trees.Keys == a.trees.Keys
    ensures calm ==> TreesStand(a, c)
  {
    QuietFacts(a, b);
  }

  /** Nor what is done about it last. */
  lemma QuietAfter(a: Fs, b: Fs, c: Fs, calm: bool)
    requires b.Valid() && c.Valid() && Remembers(a, b) && Undisturbed(b, c)
    requires calm ==> TreesStand(a, b) && c.trees == b.trees && c.edited == b.edited
    ensures Remembers(a, c) && c.unguarded == b.unguarded
    ensures calm ==> TreesStand(a, c)
  {
    QuietFacts(b, c);
  }

  /** Bringing the shell back leaves what was achieved since `a`. */
  lemma StillDone(a: Fs, b: Fs, c: Fs, package: Package, sound: bool)
    requires a.Readable() && b.Valid() && c.Valid() && Undisturbed(b, c) && c.Synced(PARENT)
    requires Installed(a, b, package)
    requires sound ==> Good(b) && Complete(b) && (ToSupersede(a).Some? ==> PutAside(b, ToSupersede(a).value))
    ensures Installed(a, c, package)
    ensures sound ==> Complete(c) && (ToSupersede(a).Some? ==> PutAside(c, ToSupersede(a).value))
  {
    hide Good, Undisturbed, Installed, Complete, PutAside, ToSupersede, Fs.Numbered;
    StillInstalled(a, b, c, package);
    if sound {
      StillComplete(b, c);
      if ToSupersede(a).Some? { StillAside(b, c, ToSupersede(a).value); }
    }
  }

  /** Without a journal, it is the installed generation that is superseded. */
  lemma NothingToRecover(s: Fs)
    requires s.Readable() && Journal !in s.At(PARENT)
    ensures ToSupersede(s).Some? ==> Names(s.At(PARENT), Destination, ToSupersede(s).value)
  {
  }

  lemma SupersededIsAside(a: Fs, b: Fs, x: Option<Id>)
    requires a.Readable() && b.Readable() && Superseded(a, b)
    requires x.Some? ==> Names(a.At(PARENT), Destination, x.value)
    ensures x.Some? ==> PutAside(b, x.value)
  {
  }
}
