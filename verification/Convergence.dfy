/**
 Recovery convergence: after any number of process deaths and power losses, one undisturbed
 retry of scripts/install-panel.py ends with what it was asked for.
 */
module Convergence {
  import opened Wrappers
  import opened Ownership
  import opened Packaging
  import opened Disk
  import opened Recovery
  import opened Preservation
  import opened Safety
  import opened Conservation
  import opened Frames
  import opened Installer

  /** Nobody edits a generation; power may be lost if `lossy`. */
  predicate Allowed(a: Action, lossy: bool) {
    !a.Edit? && (a.LosePower? ==> lossy)
  }

  ghost predicate QuietStep(s: Fs, s': Fs, lossy: bool) {
    && Good(s)
    && exists a :: Enabled(s, a) && Allowed(a, lossy) && s' == Do(s, a)
  }

  /** A run of installers, process deaths and, if `lossy`, power losses, without editors. */
  ghost predicate QuietRun(run: seq<Fs>, lossy: bool) {
    && run != []
    && Good(run[0])
    && forall i :: 0 <= i < |run| - 1 ==> QuietStep(run[i], run[i + 1], lossy)
  }

  /** Tree g is an unmodified installation, and on disk if power may be lost. */
  ghost predicate Sound(s: Fs, g: Id, lossy: bool) {
    Judged(s.trees, g).Ok? && (lossy ==> g !in s.unsettled)
  }

  /** Whatever survives at the destination is sound. */
  ghost predicate DestinationsSound(s: Fs, lossy: bool)
    requires s.Valid()
  {
    forall i :: s.directories[PARENT].synced <= i < |s.directories[PARENT].revisions| ==>
      var v := s.directories[PARENT].revisions[i].view;
      Destination in v ==> Sound(s, v[Destination], lossy)
  }

  /** What plan q says it replaces is as it was captured. */
  ghost predicate BeforeSound(s: Fs, q: Id, lossy: bool)
    requires IsPlan(s, q)
  {
    var before := s.records[q].plan.before;
    before.Some? ==>
      || Judged(s.trees, before.value.identity) == Ok(before.value)
      || (lossy && before.value.identity in s.unsettled)
  }

  ghost predicate PlansSound(s: Fs, lossy: bool) {
    forall q: Id :: IsPlan(s, q) ==> BeforeSound(s, q, lossy)
  }

  /** What the plan of a journal that may survive replaces is on disk, if power may be lost. */
  ghost predicate JournalsSound(s: Fs, lossy: bool)
    requires s.Valid()
  {
    forall i :: s.directories[PARENT].synced <= i < |s.directories[PARENT].revisions| ==>
      JournalSound(s, s.directories[PARENT].revisions[i].view, lossy)
  }

  ghost predicate JournalSound(s: Fs, v: View, lossy: bool) {
    Journal in v && IsPlan(s, v[Journal]) && s.records[v[Journal]].plan.before.Some? && lossy ==>
      s.records[v[Journal]].plan.before.value.identity !in s.unsettled
  }

  /** The invariant of runs without editors. */
  ghost predicate Unedited(s: Fs, lossy: bool)
    requires s.Valid()
  {
    s.edited == {} && DestinationsSound(s, lossy) && PlansSound(s, lossy) && JournalsSound(s, lossy)
  }

  /** Nothing of the tool is there, and what is installed, if anything, is an unmodified installation. */
  ghost predicate OwnedStart(s: Fs, lossy: bool) {
    && s.Valid() && s.shell == Running && s.edited == {}
    && (forall r :: r in s.records ==> !s.records[r].PlanRecord?)
    && (forall i :: s.directories[PARENT].synced <= i < |s.directories[PARENT].revisions| ==>
          var v := s.directories[PARENT].revisions[i].view;
          && Journal !in v && RestartIntent !in v
          && (Destination in v ==> Sound(s, v[Destination], lossy)))
  }

  lemma OwnedStartIsUnedited(s: Fs, lossy: bool)
    requires OwnedStart(s, lossy)
    ensures Good(s) && Unedited(s, lossy)
  {
    StartIsGood(s);
    hide Good, Judge, Fs.Numbered;
    assert forall q: Id :: !IsPlan(s, q);
  }

  // What a step does to a generation that is out of the installer's hands

  lemma TreeStays(s: Fs, a: Action, g: Id, lossy: bool)
    requires Good(s) && Enabled(s, a) && Allowed(a, lossy)
    requires g in s.trees && !Private(s, g)
    ensures g in Do(s, a).trees && (g in Do(s, a).unsettled <==> g in s.unsettled)
    ensures !(lossy && g in s.unsettled) ==> Do(s, a).trees[g] == s.trees[g]
  {
    hide Private, Judge, Enabled, Do, Good;
    if a.LosePower? { OthersChange(s, a, g); } else { ContentsAreOthers(s, a, g); }
    DoubtStays(s, a, g);
  }

  /** What is not known to be on disk after a step. */
  ghost function DoubtsAfter(s: Fs, a: Action): set<Id> {
    match a
    case StageTree(_, _) => s.unsettled + {s.nextId}
    case WritePlan(_, _) => s.unsettled + {s.nextId}
    case WriteCompletion(_, _) => s.unsettled + {s.nextId}
    case WriteIntent(_) => s.unsettled + {s.nextId}
    case WriteStaged(g, _) => s.unsettled + {g}
    case SyncTree(g) => s.unsettled - {g}
    case SyncRecord(r) => s.unsettled - {r}
    case Edit(edits) => s.unsettled + edits.Keys
    case _ => s.unsettled
  }

  lemma DoubtsAre(s: Fs, a: Action)
    requires Good(s) && Enabled(s, a)
    ensures Do(s, a).unsettled == DoubtsAfter(s, a)
    ensures !a.Edit? ==> Do(s, a).edited == s.edited
  {
    hide Good, Judge, Faithful, Durable, Known, Legal, AtOld, Settled, Staging, Fs.Numbered, Surviving, Unplanned,
         Private, Swapped;
  }

  lemma DoubtStays(s: Fs, a: Action, g: Id)
    requires Good(s) && Enabled(s, a) && !a.Edit? && g in s.trees && !Private(s, g)
    ensures g in Do(s, a).unsettled <==> g in s.unsettled
    ensures Do(s, a).edited == s.edited
  {
    GoodIsValid(s);
    assert g < s.nextId && g !in s.records;
    DoubtsAre(s, a);
    SyncsItsOwn(s, a);
    hide Good, Enabled, Do, Private, Fs.Numbered;
  }

  /** Only a private tree, or a record, is written or synced by itself. */
  lemma SyncsItsOwn(s: Fs, a: Action)
    requires Good(s) && Enabled(s, a)
    ensures a.WriteStaged? || a.SyncTree? ==> Private(s, a.g)
    ensures a.SyncRecord? ==> a.r in s.records
  {
    hide Good, Private;
  }

  lemma SoundStays(s: Fs, a: Action, g: Id, lossy: bool)
    requires Good(s) && Enabled(s, a) && Allowed(a, lossy) && !Private(s, g) && Sound(s, g, lossy)
    ensures Sound(Do(s, a), g, lossy)
  {
    hide Private, Judge, Enabled, Do, Good;
    TreeStays(s, a, g, lossy);
  }

  lemma DestinationIsNotPrivate(s: Fs, i: nat)
    requires s.Valid() && s.directories[PARENT].synced <= i < |s.directories[PARENT].revisions|
    requires Destination in s.directories[PARENT].revisions[i].view
    ensures !Private(s, s.directories[PARENT].revisions[i].view[Destination])
  {
    assert Names(s.directories[PARENT].revisions[i].view, Destination,
           s.directories[PARENT].revisions[i].view[Destination]);
  }

  lemma PlannedIsNotPrivate(s: Fs, q: Id)
    requires s.Valid() && IsPlan(s, q)
    ensures !Private(s, s.records[q].plan.after.identity)
    ensures s.records[q].plan.before.Some? ==> !Private(s, s.records[q].plan.before.value.identity)
  {
  }

  /** A published generation is sound: its plan promised that it is on disk. */
  lemma AfterIsSound(s: Fs, q: Id, lossy: bool)
    requires Good(s) && IsPlan(s, q) && s.edited == {}
    ensures Sound(s, s.records[q].plan.after.identity, lossy)
    ensures Judged(s.trees, s.records[q].plan.after.identity) == Ok(s.records[q].plan.after)
  {
    hide Judge, Shapes, Fs.Numbered;
    assert PlanKept(s, q);
  }

  lemma StepKeepsDestinations(s: Fs, a: Action, lossy: bool)
    requires Good(s) && Enabled(s, a) && Allowed(a, lossy) && Unedited(s, lossy)
    ensures Do(s, a).Valid() && DestinationsSound(Do(s, a), lossy)
  {
    hide Enabled, Do, Good, Private, Judge, Sound, PlansSound, JournalsSound;
    StepKeepsGood(s, a);
    GoodIsValid(s);
    GoodIsValid(Do(s, a));
    DestinationComes(s, a);
    hide Fs.Numbered;
    var s' := Do(s, a);
    forall i | s'.directories[PARENT].synced <= i < |s'.directories[PARENT].revisions|
        && Destination in s'.directories[PARENT].revisions[i].view
      ensures Sound(s', s'.directories[PARENT].revisions[i].view[Destination], lossy)
    {
      DestinationSound(s, a, s'.directories[PARENT].revisions[i].view, lossy);
    }
  }

  lemma DestinationSound(s: Fs, a: Action, v: View, lossy: bool)
    requires Good(s) && Enabled(s, a) && Allowed(a, lossy) && Unedited(s, lossy)
    requires Destination in v && (FromStart(s, v) || FromPlan(s, v))
    ensures Sound(Do(s, a), v[Destination], lossy)
  {
    GoodIsValid(s);
    hide Enabled, Do, Good, Private, Judge, Sound, PlansSound, JournalsSound, Fs.Numbered;
    var g := v[Destination];
    if FromStart(s, v) {
      var i :| s.directories[PARENT].synced <= i < |s.directories[PARENT].revisions|
               && SameName(s.directories[PARENT].revisions[i].view, v, Destination);
      DestinationIsNotPrivate(s, i);
    } else {
      var q :| IsPlan(s, q) && q !in s.unsettled && Names(v, Destination, s.records[q].plan.after.identity);
      PlannedIsNotPrivate(s, q);
      AfterIsSound(s, q, lossy);
    }
    SoundStays(s, a, g, lossy);
  }

  lemma StepKeepsPlans(s: Fs, a: Action, lossy: bool)
    requires Good(s) && Enabled(s, a) && Allowed(a, lossy) && Unedited(s, lossy)
    ensures PlansSound(Do(s, a), lossy)
  {
    hide Enabled, Do, Good, Private, Judge, DestinationsSound, JournalsSound, BeforeSound;
    forall q: Id | IsPlan(Do(s, a), q) ensures BeforeSound(Do(s, a), q, lossy) {
      PlanComes(s, a, q);
      if IsPlan(s, q) { BeforeStays(s, a, q, lossy); } else { NewPlanSound(s, a, q, lossy); }
    }
  }

  /** A plan is an old one, unchanged, or the one just written. */
  lemma PlanComes(s: Fs, a: Action, q: Id)
    requires Good(s) && Enabled(s, a) && IsPlan(Do(s, a), q)
    ensures IsPlan(s, q) ==> Do(s, a).records[q] == s.records[q]
    ensures !IsPlan(s, q) ==> a.WritePlan? && q == s.nextId && Do(s, a).records[q] == PlanRecord(a.plan)
  {
    GoodIsValid(s);
    assert s.nextId !in s.records;
    if a.LosePower? {
      LossKeepsTrees(s, a.cut, a.left);
      hide Good, Surviving, TreesKept, Fs.Numbered;
    } else {
      RecordsAre(s, a);
      hide Good, Enabled, Do, Fs.Numbered;
    }
  }

  /** Which records a step writes. */
  ghost function RecordsAfter(s: Fs, a: Action): map<Id, Record> {
    match a
    case WritePlan(_, plan) => s.records[s.nextId := PlanRecord(plan)]
    case WriteCompletion(_, changed) => s.records[s.nextId := CompletionNote(changed)]
    case WriteIntent(_) => s.records[s.nextId := IntentRecord]
    case _ => s.records
  }

  lemma RecordsAre(s: Fs, a: Action)
    requires Good(s) && Enabled(s, a) && !a.LosePower?
    ensures Do(s, a).records == RecordsAfter(s, a)
  {
    hide Good, Judge, Faithful, Durable, Known, Legal, AtOld, Settled, Staging, Fs.Numbered, Surviving, Unplanned,
         Private, Swapped;
  }

  lemma BeforeStays(s: Fs, a: Action, q: Id, lossy: bool)
    requires Good(s) && Enabled(s, a) && Allowed(a, lossy) && IsPlan(s, q) && IsPlan(Do(s, a), q)
    requires Do(s, a).records[q] == s.records[q] && BeforeSound(s, q, lossy)
    ensures BeforeSound(Do(s, a), q, lossy)
  {
    hide Enabled, Do, Good, Private, Judge;
    var before := s.records[q].plan.before;
    if before.Some? {
      GoodIsValid(s);
      BeforeExists(s, q);
      PlannedIsNotPrivate(s, q);
      TreeStays(s, a, before.value.identity, lossy);
    }
  }

  lemma BeforeExists(s: Fs, q: Id)
    requires Good(s) && IsPlan(s, q) && s.records[q].plan.before.Some?
    ensures s.records[q].plan.before.value.identity in s.trees
  {
    hide Judge, Shapes;
    assert PlanKept(s, q);
  }

  lemma NewPlanSound(s: Fs, a: Action, q: Id, lossy: bool)
    requires Good(s) && Enabled(s, a) && a.WritePlan? && s.edited == {}
    requires q == s.nextId && IsPlan(Do(s, a), q) && Do(s, a).records[q] == PlanRecord(a.plan)
    ensures BeforeSound(Do(s, a), q, lossy)
  {
    hide Good, Judge, Private, Unplanned, Durable, Fs.Numbered;
  }

  lemma StepKeepsJournals(s: Fs, a: Action, lossy: bool)
    requires Good(s) && Enabled(s, a) && Allowed(a, lossy) && Unedited(s, lossy) && Do(s, a).Valid()
    ensures JournalsSound(Do(s, a), lossy)
  {
    hide Enabled, Do, Good, Private, Judge, JournalSound, DestinationsSound, PlansSound;
    GoodIsValid(s);
    JournalComes(s, a);
    hide Fs.Numbered;
    var s' := Do(s, a);
    forall i | s'.directories[PARENT].synced <= i < |s'.directories[PARENT].revisions|
      ensures JournalSound(s', s'.directories[PARENT].revisions[i].view, lossy)
    {
      var w := s'.directories[PARENT].revisions[i].view;
      if j :| s.directories[PARENT].synced <= j < |s.directories[PARENT].revisions|
              && SameName(s.directories[PARENT].revisions[j].view, w, Journal) {
        JournalStays(s, a, j, w, lossy);
      } else {
        NewJournalSound(s, a, w, lossy);
      }
    }
  }

  /** A journal that can survive could survive before, or was linked just now. */
  lemma JournalComes(s: Fs, a: Action)
    requires Good(s) && Enabled(s, a) && Do(s, a).Valid()
    ensures forall i :: Do(s, a).directories[PARENT].synced <= i < |Do(s, a).directories[PARENT].revisions| ==>
      var w := Do(s, a).directories[PARENT].revisions[i].view;
      || (exists j :: s.directories[PARENT].synced <= j < |s.directories[PARENT].revisions|
                      && SameName(s.directories[PARENT].revisions[j].view, w, Journal))
      || Journal !in w
      || (a.LinkJournal? && Names(w, Journal, a.q))
  {
    hide Enabled, Do, Judge, Faithful, Durable, Known, Legal, ParentKept, PlanKept, Fs.Numbered, ParentView;
    var p, p' := s.directories[PARENT], Do(s, a).directories[PARENT];
    assert p.revisions[p.Last()].view == s.At(PARENT);
    if WritesParent(a) {
      ParentAfterWrite(s, a);
      JournalAfterWrite(s, a);
    } else if a.Publish? {
      ParentAfterPublish(s, a.q);
    } else {
      OnlyWritersAppend(s, a);
    }
    forall i | p'.synced <= i < |p'.revisions| && i < |p.revisions|
      ensures SameName(p.revisions[i].view, p'.revisions[i].view, Journal)
    {
    }
  }

  lemma JournalAfterWrite(s: Fs, a: Action)
    requires Good(s) && Enabled(s, a) && WritesParent(a)
    ensures var w := ParentView(s, a);
      SameName(s.At(PARENT), w, Journal) || Journal !in w || (a.LinkJournal? && Names(w, Journal, a.q))
  {
    hide Good, Judge, Faithful, Durable, Known, Legal, AtOld, Settled;
  }

  lemma JournalStays(s: Fs, a: Action, j: nat, w: View, lossy: bool)
    requires Good(s) && Enabled(s, a) && Allowed(a, lossy)
    requires s.directories[PARENT].synced <= j < |s.directories[PARENT].revisions|
    requires SameName(s.directories[PARENT].revisions[j].view, w, Journal)
    requires JournalSound(s, s.directories[PARENT].revisions[j].view, lossy)
    ensures JournalSound(Do(s, a), w, lossy)
  {
    GoodIsValid(s);
    hide Enabled, Do, Good, Private, Judge, Fs.Numbered;
    if Journal in w {
      var q := w[Journal];
      JournalSurvives(s, j);
      if IsPlan(Do(s, a), q) && s.records[q].plan.before.Some? {
        PlanComes(s, a, q);
        BeforeExists(s, q);
        PlannedIsNotPrivate(s, q);
        TreeStays(s, a, s.records[q].plan.before.value.identity, lossy);
      } else if IsPlan(Do(s, a), q) {
        PlanComes(s, a, q);
      }
    }
  }

  lemma JournalSurvives(s: Fs, j: nat)
    requires Good(s) && s.directories[PARENT].synced <= j < |s.directories[PARENT].revisions|
    requires Journal in s.directories[PARENT].revisions[j].view
    ensures IsPlan(s, s.directories[PARENT].revisions[j].view[Journal])
  {
    assert ParentKept(s, s.directories[PARENT].revisions[j].view);
  }

  /** A plan is only made the journal while what it replaces is the installation. */
  lemma NewJournalSound(s: Fs, a: Action, w: View, lossy: bool)
    requires Good(s) && Enabled(s, a) && Allowed(a, lossy) && Unedited(s, lossy)
    requires Journal !in w || (a.LinkJournal? && Names(w, Journal, a.q))
    ensures JournalSound(Do(s, a), w, lossy)
  {
    if Journal in w {
      LinkReplaces(s, a.q);
      GoodIsValid(s);
      hide Good, Judge, Private, Durable, Faithful, Known, Fs.Numbered, Enabled, PlansSound, JournalsSound;
      assert s.directories[PARENT].revisions[s.directories[PARENT].Last()].view == s.At(PARENT);
    }
  }

  lemma LinkReplaces(s: Fs, q: Id)
    requires Good(s) && Enabled(s, LinkJournal(q))
    ensures IsPlan(s, q)
    ensures s.records[q].plan.before.Some? ==> Names(s.At(PARENT), Destination, s.records[q].plan.before.value.identity)
    ensures Do(s, LinkJournal(q)).records == s.records && Do(s, LinkJournal(q)).unsettled == s.unsettled
  {
    hide Good;
  }

  lemma StepKeepsUnedited(s: Fs, a: Action, lossy: bool)
    requires Good(s) && Enabled(s, a) && Allowed(a, lossy) && Unedited(s, lossy)
    ensures Do(s, a).Valid() && Unedited(Do(s, a), lossy)
  {
    StepKeepsDestinations(s, a, lossy);
    StepKeepsPlans(s, a, lossy);
    StepKeepsJournals(s, a, lossy);
    DoubtsAre(s, a);
    hide Enabled, Do, Good, DestinationsSound, PlansSound, JournalsSound, Fs.Numbered;
  }

  lemma {:induction false} RunsStayUnedited(run: seq<Fs>, lossy: bool, k: nat)
    requires QuietRun(run, lossy) && OwnedStart(run[0], lossy) && k < |run|
    ensures Good(run[k]) && Unedited(run[k], lossy)
  {
    hide Good, Unedited, Enabled, Do, OwnedStart;
    if k == 0 {
      OwnedStartIsUnedited(run[0], lossy);
    } else {
      RunsStayUnedited(run, lossy, k - 1);
      assert QuietStep(run[k - 1], run[k], lossy);
      var a :| Enabled(run[k - 1], a) && Allowed(a, lossy) && run[k] == Do(run[k - 1], a);
      StepKeepsGood(run[k - 1], a);
      StepKeepsUnedited(run[k - 1], a, lossy);
    }
  }

  // What can be recovered

  /** What such a state leaves behind can be finished and replaced. */
  lemma UneditedRecovers(s: Fs, lossy: bool)
    requires Good(s) && Unedited(s, lossy)
    ensures Recovers(s, true)
  {
    GoodIsValid(s);
    assert s.directories[PARENT].revisions[s.directories[PARENT].Last()].view == s.At(PARENT);
    if Journal in s.At(PARENT) {
      JournalIsPlan(s);
      var q := s.At(PARENT)[Journal];
      AfterIsSound(s, q, lossy);
      assert BeforeSound(s, q, lossy);
      assert JournalSound(s, s.At(PARENT), lossy);
      hide Judge, Good, Fs.Numbered, PlansSound, JournalsSound, DestinationsSound;
    } else {
      hide Judge, Good, Fs.Numbered, PlansSound, JournalsSound;
    }
  }

  /**
   Whatever process deaths, and power losses if what was installed is on disk, have done to
   any number of invocations: what they leave can be finished and replaced.
   */
  lemma RunsRecover(run: seq<Fs>, lossy: bool, k: nat)
    requires QuietRun(run, lossy) && OwnedStart(run[0], lossy) && k < |run|
    ensures Good(run[k]) && Recovers(run[k], true) && run[k].edited == {}
  {
    hide Good, QuietRun, OwnedStart, Recovers, DestinationsSound, PlansSound, JournalsSound;
    RunsStayUnedited(run, lossy, k);
    UneditedRecovers(run[k], lossy);
  }

  // The retry

  /**
   One retry, on whatever a run without editors left behind.  It installs the requested
   package, unless it is told not to replace and finds nothing to recover; and whatever it
   supersedes, even a generation that only its own recovery installs, is put aside.
   */
  method Retry(ghost history: seq<Fs>, ghost lossy: bool, left: Fs, replace: bool, package: Package)
    returns (m: Machine, r: Status<Error>)
    requires QuietRun(history, lossy) && OwnedStart(history[0], lossy) && left == history[|history| - 1]
    requires Stageable(package) && left.Readable()
    ensures m.Valid()
    ensures r.Pass? <==> (replace || Journal in left.At(PARENT) || Destination !in left.At(PARENT))
    ensures r.Pass? ==> Frames.Installed(left, m.fs, package) && Complete(m.fs)
    ensures r.Pass? ==> Carries(m.fs.trees[m.fs.At(PARENT)[Destination]], package)
    ensures r.Pass? && ToSupersede(left).Some? ==> PutAside(m.fs, ToSupersede(left).value)
    ensures r.Fail? ==> r.error == DestinationExists && m.fs == left
  {
    RunsRecover(history, lossy, |history| - 1);
    hide Good, QuietRun, OwnedStart, Stageable, Recovers, Complete, PutAside, Fs.Numbered, IsRun, Carries, Judge;
    GoodIsValid(left);
    if replace || Journal in left.At(PARENT) || Destination !in left.At(PARENT) { RecoversUnasked(left, replace); }
    m := new Machine(left, true, false, true);
    r := m.InstallLocked(replace, false, package);
  }

  lemma RecoversUnasked(s: Fs, replace: bool)
    requires s.Readable() && Recovers(s, true)
    requires replace || Journal in s.At(PARENT) || Destination !in s.At(PARENT)
    ensures Recovers(s, replace)
  {
  }

  /** The same around the shell: the panel is replaced, the shell runs, and no restart is owed. */
  method RetryEnabled(ghost history: seq<Fs>, ghost lossy: bool, left: Fs, package: Package)
    returns (m: Machine, r: Status<Error>)
    requires QuietRun(history, lossy) && OwnedStart(history[0], lossy) && left == history[|history| - 1]
    requires Stageable(package) && left.Readable()
    ensures m.Valid() && r.Pass?
    ensures Frames.Installed(left, m.fs, package) && Complete(m.fs)
    ensures Carries(m.fs.trees[m.fs.At(PARENT)[Destination]], package)
    ensures ToSupersede(left).Some? ==> PutAside(m.fs, ToSupersede(left).value)
    ensures m.fs.shell == Running && RestartIntent !in m.fs.At(PARENT)
    ensures m.fs.unguarded == left.unguarded && m.fs.kills <= left.kills + 1
  {
    RunsRecover(history, lossy, |history| - 1);
    hide Good, QuietRun, OwnedStart, Stageable, Recovers, Complete, PutAside, Fs.Numbered, IsRun, Carries, Judge;
    GoodIsValid(left);
    m := new Machine(left, true, false, true);
    r := m.ReplaceEnabled(package);
  }
}
