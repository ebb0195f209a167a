/** What holds in every run of installers, editors, process deaths and power losses. */
module Safety {
  import opened Wrappers
  import opened Ownership
  import opened Disk
  import opened Recovery
  import opened Preservation

  ghost predicate Step(s: Fs, s': Fs) {
    && Good(s)
    && exists a :: Enabled(s, a) && s' == Do(s, a)
  }

  /**
   A run: consecutive states are one step apart.  A process may die between any two
   steps, which changes nothing on the file system, so every prefix of a run is a run
   and a later invocation may start from any state of it.
   */
  ghost predicate IsRun(run: seq<Fs>) {
    && run != []
    && Good(run[0])
    && forall i :: 0 <= i < |run| - 1 ==> Step(run[i], run[i + 1])
  }

  lemma {:induction false} RunsStayGood(run: seq<Fs>, k: nat)
    requires IsRun(run) && k < |run|
    ensures Good(run[k])
  {
    if k > 0 {
      assert Step(run[k - 1], run[k]);
      var a :| Enabled(run[k - 1], a) && run[k] == Do(run[k - 1], a);
      StepKeepsGood(run[k - 1], a);
    }
  }

  lemma RunGrows(run: seq<Fs>, s': Fs)
    requires IsRun(run) && Step(run[|run| - 1], s')
    ensures IsRun(run + [s'])
  {
    hide Good, Step;
    var longer := run + [s'];
    forall i | 0 <= i < |longer| - 1 ensures Step(longer[i], longer[i + 1]) {
      if i < |run| - 1 { assert Step(run[i], run[i + 1]); }
    }
  }

  /** Any directory the tool has left nothing in is a start: whatever is installed there, or nothing. */
  lemma StartIsGood(s: Fs)
    requires s.Valid() && s.shell == Running
    requires forall r :: r in s.records ==> !s.records[r].PlanRecord?
    requires forall i :: s.directories[PARENT].synced <= i < |s.directories[PARENT].revisions| ==>
      var v := s.directories[PARENT].revisions[i].view;
      && Journal !in v && RestartIntent !in v
      && (Destination in v ==> v[Destination] in s.trees)
    ensures Good(s) && IsRun([s])
  {
    assert forall q :: !IsPlan(s, q);
    hide PlanKept, Fs.Numbered, Separate;
  }

  // Power loss

  /** No publication is in flight, and the destination is no generation some plan published. */
  ghost predicate Untouched(s: Fs)
    requires s.Valid()
  {
    && Journal !in s.At(PARENT)
    && forall q :: IsPlan(s, q) ==> !Names(s.At(PARENT), Destination, s.records[q].plan.after.identity)
  }

  /** The journal is whole, names its transaction, and the transaction has a legal shape. */
  ghost predicate Recoverable(s: Fs)
    requires s.Valid()
  {
    && Journal in s.At(PARENT)
    && var q := s.At(PARENT)[Journal];
    && IsPlan(s, q) && q !in s.unsettled
    && var plan := s.records[q].plan;
    && plan.transaction in s.directories
    && Names(s.At(PARENT), Transaction(plan.tag), plan.transaction)
    && Durable(s, plan.after)
    && Legal(q, plan, s.At(PARENT), s.At(plan.transaction))
  }

  /** A published generation is at the destination and the one it replaced is under `previous`. */
  ghost predicate Complete(s: Fs)
    requires s.Valid()
  {
    && Journal !in s.At(PARENT)
    && exists q :: IsPlan(s, q)
        && Names(s.At(PARENT), Destination, s.records[q].plan.after.identity)
        && s.records[q].plan.transaction in s.directories
        && Retired(s.records[q].plan, s.At(s.records[q].plan.transaction))
  }

  lemma GoodIsSettled(s: Fs)
    requires Good(s)
    ensures Untouched(s) || Recoverable(s) || Complete(s)
  {
    hide Judge, Faithful, Durable, Known;
    PlansHaveDirectories(s);
    var p := s.directories[PARENT];
    assert ParentKept(s, s.At(PARENT));
    if Journal in s.At(PARENT) {
      JournalIsPlan(s);
      var q := s.At(PARENT)[Journal];
      PairedLast(p, s.directories[s.records[q].plan.transaction]);
      assert Recoverable(s);
    } else if q :| IsPlan(s, q) && Names(s.At(PARENT), Destination, s.records[q].plan.after.identity) {
      assert PlanKept(s, q);
      var plan := s.records[q].plan;
      PairedLast(p, s.directories[plan.transaction]);
      assert Legal(q, plan, s.At(PARENT), s.At(plan.transaction));
    }
  }

  // Where the destination comes from

  /** The destination's entry, or its absence, is that of contents of the parent a power loss on `start` could leave. */
  ghost predicate FromStart(start: Fs, v: View)
    requires start.Valid()
  {
    exists i :: start.directories[PARENT].synced <= i < |start.directories[PARENT].revisions|
                && SameName(start.directories[PARENT].revisions[i].view, v, Destination)
  }

  /** The destination is what a plan that is on disk has published. */
  ghost predicate FromPlan(s: Fs, v: View) {
    exists q :: IsPlan(s, q) && q !in s.unsettled && Names(v, Destination, s.records[q].plan.after.identity)
  }

  /** Every destination a power loss could leave was there at the start, or is a plan's. */
  ghost predicate Traced(start: Fs, s: Fs)
    requires start.Valid() && s.Valid()
  {
    forall i :: s.directories[PARENT].synced <= i < |s.directories[PARENT].revisions| ==>
      var v := s.directories[PARENT].revisions[i].view;
      FromStart(start, v) || FromPlan(s, v)
  }

  lemma SettledPlansStay(s: Fs, a: Action)
    requires Good(s) && Enabled(s, a)
    ensures forall q: Id :: IsPlan(s, q) && q !in s.unsettled ==>
      IsPlan(Do(s, a), q) && q !in Do(s, a).unsettled && Do(s, a).records[q] == s.records[q]
  {
    PlansAreNoTrees(s);
    hide Good, Judge, Faithful, Durable, Known, Legal, AtOld, Settled, Fs.Numbered, Staging, Private, Swapped,
         Unplanned,
         Surviving;
  }

  lemma PlansAreNoTrees(s: Fs)
    requires Good(s)
    ensures s.Valid()
    ensures forall q: Id :: IsPlan(s, q) ==> q < s.nextId && q !in s.trees
  {
  }

  lemma DestinationAfterWrite(s: Fs, a: Action)
    requires Good(s) && Enabled(s, a) && (WritesParent(a) || a.Publish?)
    ensures PARENT in Do(s, a).directories
    ensures var p, p' := s.directories[PARENT], Do(s, a).directories[PARENT];
      && p'.synced == p.synced
      && (exists v :: p' == p.Append(s.clock, v) && (SameName(s.At(PARENT), v, Destination) || FromPlan(s, v)))
  {
    hide Judge, Faithful, Durable, Known, Legal, ParentKept, PlanKept, Swapped, Staged, Retired, AtOld, Settled;
    if a.Publish? {
      ParentAfterPublish(s, a.q);
      JournalIsPlan(s);
      var v := s.At(PARENT)[Destination := s.records[a.q].plan.after.identity];
      assert FromPlan(s, v);
    } else {
      ParentAfterWrite(s, a);
      ParentViewKeeps(s, a);
    }
  }

  /** One step: every destination that can survive it could survive before, or is a durable plan's. */
  lemma DestinationComes(s: Fs, a: Action)
    requires Good(s) && Enabled(s, a) && Do(s, a).Valid()
    ensures forall i :: Do(s, a).directories[PARENT].synced <= i < |Do(s, a).directories[PARENT].revisions| ==>
      var v := Do(s, a).directories[PARENT].revisions[i].view;
      FromStart(s, v) || FromPlan(s, v)
  {
    hide Enabled, Do, Judge, Faithful, Durable, Known, Legal, ParentKept, PlanKept, FromPlan, Fs.Numbered;
    var p, p' := s.directories[PARENT], Do(s, a).directories[PARENT];
    if WritesParent(a) || a.Publish? {
      DestinationAfterWrite(s, a);
      assert p.revisions[p.Last()].view == s.At(PARENT);
    } else {
      ParentHistory(s, a);
      OnlyWritersAppend(s, a);
    }
    forall i | p'.synced <= i < |p'.revisions|
      ensures FromStart(s, p'.revisions[i].view) || FromPlan(s, p'.revisions[i].view)
    {
      if i < |p.revisions| { assert SameName(p.revisions[i].view, p'.revisions[i].view, Destination); }
    }
  }

  lemma OnlyWritersAppend(s: Fs, a: Action)
    requires Good(s) && Enabled(s, a) && !WritesParent(a) && !a.Publish?
    ensures PARENT in Do(s, a).directories
    ensures var p, p' := s.directories[PARENT], Do(s, a).directories[PARENT];
      || (p'.revisions == p.revisions && p'.synced >= p.synced)
      || (exists i: nat :: p.synced <= i < |p.revisions| && p' == p.Cut(i))
  {
    if a.StageTree? || a.WritePlan? || a.WriteCompletion? || a.RetireOld? { OtherDirectory(s, a); }
    hide Judge, Faithful, Durable, Known, Legal, ParentKept, PlanKept, Swapped, Staged, Retired, AtOld, Settled,
         Private, Staging;
  }

  lemma StepKeepsTraced(start: Fs, s: Fs, a: Action)
    requires start.Valid() && Good(s) && Enabled(s, a) && Traced(start, s)
    ensures Do(s, a).Valid() && Traced(start, Do(s, a))
  {
    hide Enabled, Do, Good;
    StepKeepsGood(s, a);
    GoodIsValid(Do(s, a));
    GoodIsValid(s);
    DestinationComes(s, a);
    SettledPlansStay(s, a);
    hide Fs.Numbered;
    var s' := Do(s, a);
    forall i | s'.directories[PARENT].synced <= i < |s'.directories[PARENT].revisions|
      ensures FromStart(start, s'.directories[PARENT].revisions[i].view)
                || FromPlan(s', s'.directories[PARENT].revisions[i].view)
    {
      var v := s'.directories[PARENT].revisions[i].view;
      if FromPlan(s, v) {
        PlanStillPublished(s, s', v);
      } else {
        TracedFurther(start, s, s', v);
      }
    }
  }

  lemma PlanStillPublished(s: Fs, s': Fs, v: View)
    requires FromPlan(s, v)
    requires forall q :: IsPlan(s, q) && q !in s.unsettled ==>
      IsPlan(s', q) && q !in s'.unsettled && s'.records[q] == s.records[q]
    ensures FromPlan(s', v)
  {
    var q :| IsPlan(s, q) && q !in s.unsettled && Names(v, Destination, s.records[q].plan.after.identity);
    assert IsPlan(s', q) && Names(v, Destination, s'.records[q].plan.after.identity);
  }

  lemma TracedFurther(start: Fs, s: Fs, s': Fs, v: View)
    requires start.Valid() && s.Valid() && Traced(start, s) && FromStart(s, v)
    requires forall q :: IsPlan(s, q) && q !in s.unsettled ==>
      IsPlan(s', q) && q !in s'.unsettled && s'.records[q] == s.records[q]
    ensures FromStart(start, v) || FromPlan(s', v)
  {
    hide Fs.Numbered;
    var j :| s.directories[PARENT].synced <= j < |s.directories[PARENT].revisions|
             && SameName(s.directories[PARENT].revisions[j].view, v, Destination);
    var w := s.directories[PARENT].revisions[j].view;
    if FromStart(start, w) {
      var i :| start.directories[PARENT].synced <= i < |start.directories[PARENT].revisions|
               && SameName(start.directories[PARENT].revisions[i].view, w, Destination);
      assert SameName(start.directories[PARENT].revisions[i].view, v, Destination);
    } else {
      assert FromPlan(s, v);
      PlanStillPublished(s, s', v);
    }
  }

  lemma TracedToItself(s: Fs)
    requires s.Valid()
    ensures Traced(s, s)
  {
    forall i | s.directories[PARENT].synced <= i < |s.directories[PARENT].revisions|
      ensures FromStart(s, s.directories[PARENT].revisions[i].view)
    {
      assert SameName(s.directories[PARENT].revisions[i].view, s.directories[PARENT].revisions[i].view, Destination);
    }
  }

  /** In every run, what can survive at the destination was there at the start, or is a durable plan's generation. */
  lemma {:induction false} RunsStayTraced(run: seq<Fs>, k: nat)
    requires IsRun(run) && k < |run|
    ensures run[0].Valid() && run[k].Valid() && Traced(run[0], run[k])
  {
    hide Traced, Enabled, Do, Good;
    RunsStayGood(run, k);
    GoodIsValid(run[0]);
    GoodIsValid(run[k]);
    if k == 0 {
      TracedToItself(run[0]);
    } else {
      RunsStayTraced(run, k - 1);
      assert Step(run[k - 1], run[k]);
      var a :| Enabled(run[k - 1], a) && run[k] == Do(run[k - 1], a);
      StepKeepsTraced(run[0], run[k - 1], a);
    }
  }

  /** An untouched state has at the destination what was there when the run began. */
  lemma UntouchedIsOld(start: Fs, s: Fs)
    requires start.Valid() && s.Valid() && Traced(start, s) && Untouched(s)
    ensures FromStart(start, s.At(PARENT))
  {
    hide Fs.Numbered, FromStart;
    assert s.directories[PARENT].revisions[s.directories[PARENT].Last()].view == s.At(PARENT);
  }

  /**
   Power-loss safety: whatever a power loss at any point of any run leaves behind, it is the
   destination the run began with, a recoverable journal, or the completed new installation.
   */
  lemma PowerLossSafety(run: seq<Fs>, k: nat, cut: map<Id, nat>, left: Fs)
    requires IsRun(run) && k < |run|
    requires run[k].Valid() && run[k].Survives(cut) && run[k].PowerLoss(cut, left)
    ensures left.Valid()
    ensures (Untouched(left) && FromStart(run[0], left.At(PARENT))) || Recoverable(left) || Complete(left)
    ensures forall d :: d in left.directories ==> left.Synced(d)
  {
    hide Untouched, Recoverable, Complete, FromStart, Traced, Good, IsRun;
    RunsStayGood(run, k);
    RunsStayTraced(run, k);
    LossIsAStep(run[k], cut, left);
    StepKeepsTraced(run[0], run[k], LosePower(cut, left));
    StepKeepsGood(run[k], LosePower(cut, left));
    GoodIsSettled(left);
    if Untouched(left) { UntouchedIsOld(run[0], left); }
    AllSyncedAfterLoss(run[k], cut, left);
  }

  lemma LossIsAStep(s: Fs, cut: map<Id, nat>, left: Fs)
    requires Good(s) && s.Survives(cut) && s.PowerLoss(cut, left)
    ensures Enabled(s, LosePower(cut, left)) && Do(s, LosePower(cut, left)) == left
  {
    hide Good;
  }

  lemma AllSyncedAfterLoss(s: Fs, cut: map<Id, nat>, left: Fs)
    requires s.Valid() && left.Valid() && s.Survives(cut) && s.PowerLoss(cut, left)
    ensures forall d :: d in left.directories ==> left.Synced(d)
  {
    hide Fs.Numbered;
  }

  /** The journal invariant: exactly one of the five legal shapes, in every state a power loss can leave. */
  lemma JournalShape(run: seq<Fs>, k: nat, q: Id, i: nat, j: nat)
    requires IsRun(run) && k < |run| && Good(run[k]) && IsPlan(run[k], q)
    requires run[k].records[q].plan.transaction in run[k].directories
    requires Paired(run[k].directories[PARENT], run[k].directories[run[k].records[q].plan.transaction], i, j)
    requires Names(run[k].directories[PARENT].revisions[i].view, Journal, q)
    ensures var plan := run[k].records[q].plan;
      var p := run[k].directories[PARENT].revisions[i].view;
      var t := run[k].directories[plan.transaction].revisions[j].view;
      var first := plan.before.None?;
      var shapes := multiset{
        !first && AtOld(plan, p) && Staged(plan, p, t),
        !first && Swapped(plan, p, t),
        !first && Retired(plan, t) && Names(p, Destination, plan.after.identity),
        first && AtOld(plan, p) && Staged(plan, p, t),
        first && Retired(plan, t) && Names(p, Destination, plan.after.identity)};
      shapes[true] == 1
  {
    hide Judge, Faithful, Durable, Known;
    assert PlanKept(run[k], q);
  }

  // Continuous presence

  /** Whatever happens to the machine now, the destination is there, and is one whole generation. */
  ghost predicate Present(s: Fs)
    requires s.Valid()
  {
    forall i :: s.directories[PARENT].synced <= i < |s.directories[PARENT].revisions| ==>
      Destination in s.directories[PARENT].revisions[i].view
  }

  predicate WritesParent(a: Action) {
    || a.MakeTransaction? || a.LinkJournal? || a.UnlinkJournal? || a.WriteIntent? || a.PublishIntent?
    || a.DropTemporary? || a.RemoveIntent?
  }

  /** What any step does to the contents of the parent directory. */
  lemma ParentHistory(s: Fs, a: Action)
    requires Good(s) && Enabled(s, a)
    ensures PARENT in Do(s, a).directories
    ensures var p, p' := s.directories[PARENT], Do(s, a).directories[PARENT];
      || (p'.revisions == p.revisions && p'.synced >= p.synced)
      || (p'.synced == p.synced
          && exists v :: p' == p.Append(s.clock, v) && (Destination in s.At(PARENT) ==> Destination in v))
      || (exists i: nat :: p.synced <= i < |p.revisions| && p' == p.Cut(i))
  {
    hide Judge, Faithful, Durable, Known, Legal, ParentKept, PlanKept, Swapped, Staged, Retired, AtOld, Settled,
         Private, Staging;
    if a.Publish? {
      ParentAfterPublish(s, a.q);
    } else if WritesParent(a) {
      ParentAfterWrite(s, a);
      ParentViewKeeps(s, a);
    } else if a.StageTree? || a.WritePlan? || a.WriteCompletion? || a.RetireOld? {
      OtherDirectory(s, a);
    }
  }

  lemma ParentAfterPublish(s: Fs, q: Id)
    requires Good(s) && Enabled(s, Publish(q))
    ensures IsPlan(s, q)
    ensures Do(s, Publish(q)).directories[PARENT] ==
            s.directories[PARENT].Append(s.clock, s.At(PARENT)[Destination := s.records[q].plan.after.identity])
  {
    hide Judge, Faithful, Durable, Known, Legal, ParentKept, PlanKept, Swapped, Staged, Retired, AtOld;
    PublishResult(s, q, Do(s, Publish(q)));
  }

  ghost function ParentView(s: Fs, a: Action): View
    requires Good(s) && Enabled(s, a) && WritesParent(a)
  {
    var v := s.At(PARENT);
    match a
    case MakeTransaction(tag) => v[Transaction(tag) := s.nextId]
    case LinkJournal(q) => v[Journal := q]
    case UnlinkJournal(q) => v - {Journal}
    case WriteIntent(tag) => v[Temporary(tag) := s.nextId]
    case PublishIntent(tag) => (v - {Temporary(tag)})[RestartIntent := v[Temporary(tag)]]
    case DropTemporary(tag) => v - {Temporary(tag)}
    case RemoveIntent => v - {RestartIntent}
  }

  lemma ParentAfterMkdir(s: Fs, tag: nat)
    requires s.Valid()
    ensures PARENT in s.MakeDirectory(Transaction(tag)).directories
    ensures s.MakeDirectory(Transaction(tag)).directories[PARENT] ==
            s.directories[PARENT].Append(s.clock, s.At(PARENT)[Transaction(tag) := s.nextId])
  {
    assert PARENT < s.nextId;
    hide Fs.Numbered;
  }

  lemma ParentAfterWrite(s: Fs, a: Action)
    requires Good(s) && Enabled(s, a) && WritesParent(a)
    ensures PARENT in Do(s, a).directories
    ensures Do(s, a).directories[PARENT] == s.directories[PARENT].Append(s.clock, ParentView(s, a))
  {
    if a.MakeTransaction? { ParentAfterMkdir(s, a.tag); }
    hide Good, Judge, Faithful, Durable, Known, Legal, AtOld, Settled, Fs.MakeDirectory, Fs.Numbered;
  }

  /** Writes to the parent other than a publication keep the destination and every transaction's name. */
  lemma ParentViewKeeps(s: Fs, a: Action)
    requires Good(s) && Enabled(s, a) && WritesParent(a)
    ensures SameName(s.At(PARENT), ParentView(s, a), Destination)
    ensures forall tag: nat :: Transaction(tag) in s.At(PARENT) ==>
      Names(ParentView(s, a), Transaction(tag), s.At(PARENT)[Transaction(tag)])
  {
    hide Good, Judge, Faithful, Durable, Known, Legal, AtOld, Settled;
  }

  lemma OtherDirectory(s: Fs, a: Action)
    requires Good(s) && Enabled(s, a) && (a.StageTree? || a.WritePlan? || a.WriteCompletion? || a.RetireOld?)
    ensures Do(s, a).directories[PARENT] == s.directories[PARENT]
  {
    hide Judge, Faithful, Durable, Known, Legal, ParentKept, PlanKept, Swapped, Staged, Retired, AtOld, Private;
    PlansHaveDirectories(s);
    if a.RetireOld? { JournalIsPlan(s); }
  }

  lemma StepKeepsPresent(s: Fs, a: Action)
    requires Good(s) && Enabled(s, a) && Present(s)
    ensures Do(s, a).Valid() && Present(Do(s, a))
  {
    hide Enabled, Do, Judge, Faithful, Durable, Known, Legal, ParentKept, PlanKept, Swapped, Staged, Retired, AtOld,
         Settled, Private, Staging;
    StepKeepsGood(s, a);
    ParentHistory(s, a);
    PresentNow(s);
  }

  lemma {:induction false} PresentForever(run: seq<Fs>, i: nat, k: nat)
    requires IsRun(run) && i <= k < |run|
    requires run[i].Valid() && Present(run[i])
    ensures run[k].Valid() && Present(run[k])
    ensures Destination in run[k].At(PARENT) && run[k].At(PARENT)[Destination] in run[k].trees
  {
    hide Present, Judge, Enabled, Do;
    RunsStayGood(run, k);
    if k > i {
      PresentForever(run, i, k - 1);
      assert Step(run[k - 1], run[k]);
      var a :| Enabled(run[k - 1], a) && run[k] == Do(run[k - 1], a);
      StepKeepsPresent(run[k - 1], a);
    }
    assert ParentKept(run[k], run[k].At(PARENT));
    PresentNow(run[k]);
  }

  lemma PresentNow(s: Fs)
    requires s.Valid() && Present(s)
    ensures Destination in s.At(PARENT)
  {
  }

  ghost predicate PoweredStep(s: Fs, s': Fs) {
    && Good(s)
    && exists a :: Enabled(s, a) && !a.LosePower? && s' == Do(s, a)
  }

  /** A run in which processes may die at any moment, but power is not lost. */
  ghost predicate PoweredRun(run: seq<Fs>) {
    && run != []
    && Good(run[0])
    && forall i :: 0 <= i < |run| - 1 ==> PoweredStep(run[i], run[i + 1])
  }

  /** No step of anybody takes the destination away, synced or not. */
  lemma StepKeepsHere(s: Fs, a: Action)
    requires Good(s) && Enabled(s, a) && !a.LosePower? && Destination in s.At(PARENT)
    ensures Do(s, a).Valid() && Destination in Do(s, a).At(PARENT)
  {
    hide Enabled, Do, Judge, Faithful, Durable, Known, Legal, ParentKept, PlanKept, Fs.Numbered;
    StepKeepsGood(s, a);
    if WritesParent(a) {
      ParentAfterWrite(s, a);
      ParentViewKeeps(s, a);
    } else if a.Publish? {
      ParentAfterPublish(s, a.q);
    } else {
      ParentOnlySynced(s, a);
    }
  }

  lemma ParentOnlySynced(s: Fs, a: Action)
    requires Good(s) && Enabled(s, a) && !WritesParent(a) && !a.Publish? && !a.LosePower?
    ensures PARENT in Do(s, a).directories
    ensures Do(s, a).directories[PARENT].revisions == s.directories[PARENT].revisions
  {
    if a.StageTree? || a.WritePlan? || a.WriteCompletion? || a.RetireOld? { OtherDirectory(s, a); }
    hide Judge, Faithful, Durable, Known, Legal, ParentKept, PlanKept, Swapped, Staged, Retired, AtOld, Settled,
         Private, Staging;
  }

  /**
   Continuous presence while the power is on: from the moment a generation is published, before
   anything of that is on disk, the destination names one whole generation in every state.
   */
  lemma {:induction false} HereForever(run: seq<Fs>, i: nat, k: nat)
    requires PoweredRun(run) && i <= k < |run|
    requires run[i].Valid() && Destination in run[i].At(PARENT)
    ensures Good(run[k]) && Destination in run[k].At(PARENT) && run[k].At(PARENT)[Destination] in run[k].trees
  {
    hide Judge, Enabled, Do, Good;
    if k == 0 {
    } else if k == i {
      PoweredIsGood(run, k);
    } else {
      HereForever(run, i, k - 1);
      assert PoweredStep(run[k - 1], run[k]);
      var a :| Enabled(run[k - 1], a) && !a.LosePower? && run[k] == Do(run[k - 1], a);
      StepKeepsGood(run[k - 1], a);
      StepKeepsHere(run[k - 1], a);
    }
    GoodIsValid(run[k]);
    DestinationIsTree(run[k]);
  }

  lemma {:induction false} PoweredIsGood(run: seq<Fs>, k: nat)
    requires PoweredRun(run) && k < |run|
    ensures Good(run[k])
  {
    hide Enabled, Do, Good;
    if k > 0 {
      assert PoweredStep(run[k - 1], run[k]);
      var a :| Enabled(run[k - 1], a) && !a.LosePower? && run[k] == Do(run[k - 1], a);
      StepKeepsGood(run[k - 1], a);
    }
  }

  lemma DestinationIsTree(s: Fs)
    requires Good(s) && Destination in s.At(PARENT)
    ensures s.At(PARENT)[Destination] in s.trees
  {
    assert ParentKept(s, s.At(PARENT));
  }

  /**
   Leftovers are never adopted: once staged, nothing is moved into or out of a transaction
   directory unless the journal names it, by the identity it had when the plan was made.
   */
  lemma LeftoversStay(s: Fs, a: Action, d: Id)
    requires Good(s) && Enabled(s, a) && d in s.directories && d != PARENT && !a.LosePower?
    requires !(a.StageTree? && a.t == d) && !(a.WritePlan? && a.t == d) && !(a.WriteCompletion? && a.t == d)
    ensures d in Do(s, a).directories
    ensures Do(s, a).directories[d].revisions != s.directories[d].revisions ==>
      && (a.Publish? || a.RetireOld?)
      && Names(s.At(PARENT), Journal, a.q) && IsPlan(s, a.q) && s.records[a.q].plan.transaction == d
      && Names(s.At(PARENT), Transaction(s.records[a.q].plan.tag), d)
  {
    if a.Publish? || a.RetireOld? {
      JournalIsPlan(s);
      PlansHaveDirectories(s);
      TransactionsNamed(s);
    }
    assert d != s.nextId;
    hide Judge, Faithful, Durable, Known, Legal, ParentKept, PlanKept, Swapped, Staged, Retired, AtOld, Settled,
         Private, Staging, Good;
  }

  // Shell

  /** A shell the tool stopped is announced by a restart intent that survives any crash. */
  lemma StoppedMeansIntent(run: seq<Fs>, k: nat, cut: map<Id, nat>)
    requires IsRun(run) && k < |run| && run[k].Valid()
    requires run[k].shell == Stopped && run[k].Survives(cut)
    ensures var v := run[k].directories[PARENT].revisions[cut[PARENT]].view;
      && RestartIntent in v && v[RestartIntent] in run[k].records
      && run[k].records[v[RestartIntent]] == IntentRecord && v[RestartIntent] !in run[k].unsettled
  {
    RunsStayGood(run, k);
    assert ParentKept(run[k], run[k].directories[PARENT].revisions[cut[PARENT]].view);
  }
}
