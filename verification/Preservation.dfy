/** Every step of every installer, editor or crash keeps `Good`. */
module Preservation {
  import opened Wrappers
  import opened Ownership
  import opened Disk
  import opened Recovery

  /** Contents that were known to be on disk are still there, and still known to be. */
  ghost predicate TreesKept(s: Fs, s': Fs)
    requires s.Valid()
  {
    forall g :: g in s.trees ==>
      && g in s'.trees
      && (g !in s'.edited && !Private(s, g) ==>
            && g !in s.edited
            && (g in s.unsettled <==> g in s'.unsettled)
            && (g !in s.unsettled ==> s'.trees[g] == s.trees[g]))
  }

  ghost predicate PlansKept(s: Fs, s': Fs) {
    forall q :: IsPlan(s', q) ==> IsPlan(s, q) && s'.records[q] == s.records[q]
  }

  lemma GoodIsValid(s: Fs)
    requires Good(s)
    ensures s.Valid()
  {
  }

  lemma FaithfulKept(s: Fs, s': Fs, snap: Snapshot)
    requires s.Valid() && Faithful(s, snap) && TreesKept(s, s') && !Private(s, snap.identity)
    ensures Faithful(s', snap)
  {
    hide Judge;
  }

  lemma DurableKept(s: Fs, s': Fs, snap: Snapshot)
    requires s.Valid() && Durable(s, snap) && TreesKept(s, s') && !Private(s, snap.identity)
    ensures Durable(s', snap)
  {
    hide Judge;
  }

  lemma SameTrees(s: Fs, s': Fs)
    requires s.Valid() && s'.trees == s.trees && s'.unsettled == s.unsettled && s'.edited == s.edited
    requires s'.records == s.records
    ensures TreesKept(s, s') && PlansKept(s, s')
  {
  }

  lemma RecordMade(s: Fs, d: Id, name: Name, record: Record)
    requires s.Valid() && d in s.directories
    ensures TreesKept(s, s.MakeRecord(d, name, record))
    ensures !record.PlanRecord? ==> PlansKept(s, s.MakeRecord(d, name, record))
    ensures s.nextId !in s.records && s.nextId !in s.unsettled
  {
    hide Private;
  }

  lemma TreeMade(s: Fs, t: Id, tree: Tree)
    requires s.Valid() && t in s.directories
    ensures TreesKept(s, s.MakeTree(t, New, tree)) && PlansKept(s, s.MakeTree(t, New, tree))
    ensures s.nextId !in s.trees && s.nextId !in s.records
  {
    hide Private;
  }

  lemma LossKeepsTrees(s: Fs, cut: map<Id, nat>, left: Fs)
    requires s.Valid() && s.Survives(cut) && s.PowerLoss(cut, left)
    ensures TreesKept(s, left) && PlansKept(s, left)
  {
    hide Private;
  }

  lemma PlansHaveDirectories(s: Fs)
    requires Good(s)
    ensures forall q :: IsPlan(s, q) ==>
      s.records[q].plan.transaction in s.directories && s.records[q].plan.transaction != PARENT
  {
    hide Faithful, Durable, Known, Shapes;
    forall q | IsPlan(s, q)
      ensures s.records[q].plan.transaction in s.directories && s.records[q].plan.transaction != PARENT
    {
      assert PlanKept(s, q);
    }
  }

  /** Assembling `Good` again when no plan is new. */
  lemma Reassemble(s: Fs, s': Fs)
    requires Good(s) && s'.Valid() && TreesKept(s, s') && PlansKept(s, s')
    requires s.directories.Keys <= s'.directories.Keys
    requires forall q :: IsPlan(s', q) ==>
      var plan := s.records[q].plan;
      Shapes(q, plan, s'.directories[PARENT], s'.directories[plan.transaction])
    requires forall i :: s'.directories[PARENT].synced <= i < |s'.directories[PARENT].revisions| ==>
      var v := s'.directories[PARENT].revisions[i].view;
      && ParentKept(s', v)
      && forall q :: IsPlan(s', q) ==> Names(v, Transaction(s.records[q].plan.tag), s.records[q].plan.transaction)
    ensures Good(s')
  {
    hide Legal, Shapes, ParentKept, Judge;
    forall q | IsPlan(s', q) ensures PlanKept(s', q) {
      assert PlanKept(s, q);
      var plan := s.records[q].plan;
      DurableKept(s, s', plan.after);
      if plan.before.Some? { FaithfulKept(s, s', plan.before.value); }
    }
    forall q, r | IsPlan(s', q) && IsPlan(s', r) && q != r
      ensures Separate(s'.records[q].plan, s'.records[r].plan)
    {
      assert Separate(s.records[q].plan, s.records[r].plan);
    }
  }

  /**
   A write to the parent: for every plan, the new contents must be legal together with
   each version of the transaction directory that can survive with the newest ones.
   */
  lemma ParentWrite(s: Fs, s': Fs, view: View)
    requires Good(s) && s'.Valid() && TreesKept(s, s') && PlansKept(s, s')
    requires s'.directories == s.Write(PARENT, view).directories
    requires forall i :: s.directories[PARENT].synced <= i < |s.directories[PARENT].revisions| ==>
      ParentKept(s', s.directories[PARENT].revisions[i].view)
    requires ParentKept(s', view)
    requires forall n: nat :: Transaction(n) in s.At(PARENT) ==>
      Names(view, Transaction(n), s.At(PARENT)[Transaction(n)])
    requires forall q, j: nat :: IsPlan(s', q) ==>
      var t := s.directories[s.records[q].plan.transaction];
      Paired(s.directories[PARENT], t, s.directories[PARENT].Last(), j) ==>
        Legal(q, s.records[q].plan, view, t.revisions[j].view)
    ensures Good(s')
  {
    hide Legal, ParentKept, Judge, Faithful, Durable, Known;
    var p, p' := s.directories[PARENT], s'.directories[PARENT];
    forall q | IsPlan(s', q)
      ensures Shapes(q, s.records[q].plan, p', s'.directories[s.records[q].plan.transaction])
    {
      var plan := s.records[q].plan;
      assert PlanKept(s, q);
      var t := s.directories[plan.transaction];
      assert s'.directories[plan.transaction] == t;
      forall i: nat, j: nat | Paired(p', t, i, j) ensures Legal(q, plan, p'.revisions[i].view, t.revisions[j].view) {
        PairedParentGrew(p, t, s.clock, view, i, j);
      }
    }
    forall i | p'.synced <= i < |p'.revisions|
      ensures ParentKept(s', p'.revisions[i].view)
      ensures forall q :: IsPlan(s', q) ==>
        Names(p'.revisions[i].view, Transaction(s.records[q].plan.tag), s.records[q].plan.transaction)
    {
      forall q | IsPlan(s', q)
        ensures Names(p'.revisions[i].view, Transaction(s.records[q].plan.tag), s.records[q].plan.transaction)
      {
        assert PlanKept(s, q);
        assert Names(s.At(PARENT), Transaction(s.records[q].plan.tag), s.records[q].plan.transaction);
      }
    }
    Reassemble(s, s');
  }

  /** A write to another directory: legal with every version of the parent that can survive with it. */
  lemma OtherWrite(s: Fs, s': Fs, d: Id, view: View)
    requires Good(s) && s'.Valid() && TreesKept(s, s') && PlansKept(s, s')
    requires d in s.directories && d != PARENT
    requires s'.directories == s.Write(d, view).directories
    requires forall i :: s.directories[PARENT].synced <= i < |s.directories[PARENT].revisions| ==>
      ParentKept(s', s.directories[PARENT].revisions[i].view)
    requires forall q, i: nat :: IsPlan(s', q) && s.records[q].plan.transaction == d ==>
      Paired(s.directories[PARENT], s.directories[d], i, s.directories[d].Last()) ==>
        Legal(q, s.records[q].plan, s.directories[PARENT].revisions[i].view, view)
    ensures Good(s')
  {
    hide Legal, ParentKept, Judge, Faithful, Durable, Known;
    var p := s.directories[PARENT];
    forall q | IsPlan(s', q)
      ensures Shapes(q, s.records[q].plan, p, s'.directories[s.records[q].plan.transaction])
    {
      var plan := s.records[q].plan;
      assert PlanKept(s, q);
      if plan.transaction == d {
        var t, t' := s.directories[d], s'.directories[d];
        forall i: nat, j: nat | Paired(p, t', i, j) ensures Legal(q, plan, p.revisions[i].view, t'.revisions[j].view) {
          PairedOtherGrew(p, t, s.clock, view, i, j);
        }
      }
    }
    forall i, q | p.synced <= i < |p.revisions| && IsPlan(s', q)
      ensures Names(p.revisions[i].view, Transaction(s.records[q].plan.tag), s.records[q].plan.transaction)
    {
      assert PlanKept(s, q);
    }
    Reassemble(s, s');
  }

  /** Nothing changed in any directory. */
  lemma NoWrite(s: Fs, s': Fs)
    requires Good(s) && s'.Valid() && TreesKept(s, s') && PlansKept(s, s')
    requires s'.directories == s.directories
    requires forall i :: s.directories[PARENT].synced <= i < |s.directories[PARENT].revisions| ==>
      ParentKept(s', s.directories[PARENT].revisions[i].view)
    ensures Good(s')
  {
    hide Legal, ParentKept, Judge, Faithful, Durable, Known, Shapes;
    forall q | IsPlan(s', q)
      ensures Shapes(q, s.records[q].plan, s'.directories[PARENT], s'.directories[s.records[q].plan.transaction])
    {
      assert PlanKept(s, q);
    }
    forall i, q | s.directories[PARENT].synced <= i < |s.directories[PARENT].revisions| && IsPlan(s', q)
      ensures Names(s.directories[PARENT].revisions[i].view, Transaction(s.records[q].plan.tag),
              s.records[q].plan.transaction)
    {
      assert PlanKept(s, q);
    }
    Reassemble(s, s');
  }

  lemma SyncShapes(s: Fs, d: Id, q: Id)
    requires Good(s) && d in s.directories && IsPlan(s, q) && s.records[q].plan.transaction in s.directories
    ensures Shapes(q, s.records[q].plan, s.Sync(d).directories[PARENT],
                   s.Sync(d).directories[s.records[q].plan.transaction])
  {
    hide Legal, ParentKept, Judge, Faithful, Durable, Known, Fs.Numbered;
    assert PlanKept(s, q);
    var plan, s' := s.records[q].plan, s.Sync(d);
    var p, p' := s.directories[PARENT], s'.directories[PARENT];
    var t, t' := s.directories[plan.transaction], s'.directories[plan.transaction];
    forall i: nat, j: nat | Paired(p', t', i, j) ensures Legal(q, plan, p'.revisions[i].view, t'.revisions[j].view) {
      assert Paired(p, t, i, j);
    }
  }

  lemma KeepsSyncDirectory(s: Fs, d: Id)
    requires Good(s) && Enabled(s, SyncDirectory(d))
    ensures Good(Do(s, SyncDirectory(d)))
  {
    hide Legal, ParentKept, Judge, Faithful, Durable, Known, TreesKept, Shapes, PlanKept;
    PlansHaveDirectories(s);
    TransactionsNamed(s);
    var s' := s.Sync(d);
    SyncValid(s, d);
    SameTrees(s, s');
    hide Fs.Numbered;
    ParentsStay(s, s');
    forall q | IsPlan(s', q)
      ensures Shapes(q, s.records[q].plan, s'.directories[PARENT], s'.directories[s.records[q].plan.transaction])
    {
      SyncShapes(s, d, q);
    }
    Reassemble(s, s');
  }

  /** ParentKept looks at trees, records and the shell only. */
  lemma SameParent(s: Fs, s': Fs, v: View)
    requires ParentKept(s, v)
    requires s.trees.Keys <= s'.trees.Keys
    requires forall r :: r in s.records && r !in s.unsettled ==>
      r in s'.records && s'.records[r] == s.records[r] && r !in s'.unsettled
    requires s'.shell == Stopped ==> s.shell == Stopped
    ensures ParentKept(s', v)
  {
  }

  ghost predicate SameName(v: View, w: View, n: Name) {
    (n in v <==> n in w) && (n in v ==> v[n] == w[n])
  }

  lemma LegalDependsOn(q: Id, plan: Plan, v: View, w: View, t: View)
    requires Legal(q, plan, v, t) && SameName(v, w, Destination) && SameName(v, w, Journal)
    ensures Legal(q, plan, w, t)
  {
  }

  lemma SameEntries(s: Fs, v: View, w: View)
    requires ParentKept(s, v)
    requires SameName(v, w, Destination) && SameName(v, w, Journal) && SameName(v, w, RestartIntent)
    ensures ParentKept(s, w)
  {
  }

  /** A parent write that leaves the destination and the journal alone. */
  lemma QuietParentWrite(s: Fs, s': Fs, view: View)
    requires Good(s) && s'.Valid() && TreesKept(s, s') && PlansKept(s, s')
    requires s'.directories == s.Write(PARENT, view).directories
    requires SameName(s.At(PARENT), view, Destination) && SameName(s.At(PARENT), view, Journal)
    requires forall n: nat :: Transaction(n) in s.At(PARENT) ==>
      Names(view, Transaction(n), s.At(PARENT)[Transaction(n)])
    requires forall i :: s.directories[PARENT].synced <= i < |s.directories[PARENT].revisions| ==>
      ParentKept(s', s.directories[PARENT].revisions[i].view)
    requires ParentKept(s', view)
    ensures Good(s')
  {
    hide Legal, ParentKept, Judge, Faithful, Durable, Known;
    forall q, j: nat | IsPlan(s', q) &&
        Paired(s.directories[PARENT], s.directories[s.records[q].plan.transaction], s.directories[PARENT].Last(), j)
      ensures Legal(q, s.records[q].plan, view, s.directories[s.records[q].plan.transaction].revisions[j].view)
    {
      assert PlanKept(s, q);
      LegalDependsOn(q, s.records[q].plan, s.At(PARENT), view,
                     s.directories[s.records[q].plan.transaction].revisions[j].view);
    }
    ParentWrite(s, s', view);
  }

  /** A write to another directory that leaves `new` and `previous` alone, or belongs to no plan. */
  lemma QuietOtherWrite(s: Fs, s': Fs, d: Id, view: View)
    requires Good(s) && s'.Valid() && TreesKept(s, s') && PlansKept(s, s')
    requires d in s.directories && d != PARENT
    requires s'.directories == s.Write(d, view).directories
    requires Unplanned(s, d) || (SameName(s.At(d), view, New) && SameName(s.At(d), view, Previous))
    requires forall i :: s.directories[PARENT].synced <= i < |s.directories[PARENT].revisions| ==>
      ParentKept(s', s.directories[PARENT].revisions[i].view)
    ensures Good(s')
  {
    hide ParentKept, Judge, Faithful, Durable, Known;
    forall q, i: nat | IsPlan(s', q) && s.records[q].plan.transaction == d &&
        Paired(s.directories[PARENT], s.directories[d], i, s.directories[d].Last())
      ensures Legal(q, s.records[q].plan, s.directories[PARENT].revisions[i].view, view)
    {
      assert PlanKept(s, q);
      assert Legal(q, s.records[q].plan, s.directories[PARENT].revisions[i].view, s.At(d));
    }
    OtherWrite(s, s', d, view);
  }

  /** A directory nobody speaks of appears. */
  lemma NewDirectory(s: Fs, s': Fs, d: Id, directory: Directory)
    requires Good(s) && s'.Valid() && d !in s.directories
    requires s' == s.(directories := s.directories[d := directory], clock := s'.clock, nextId := s'.nextId)
    ensures Good(s')
  {
    hide Legal, ParentKept, Judge, Faithful, Durable, Known, Shapes;
    PlansHaveDirectories(s);
    ParentsStay(s, s');
    forall q | IsPlan(s', q)
      ensures Shapes(q, s.records[q].plan, s'.directories[PARENT], s'.directories[s.records[q].plan.transaction])
    {
      assert PlanKept(s, q);
    }
    forall i, q | s.directories[PARENT].synced <= i < |s.directories[PARENT].revisions| && IsPlan(s', q)
      ensures Names(s.directories[PARENT].revisions[i].view, Transaction(s.records[q].plan.tag),
              s.records[q].plan.transaction)
    {
      assert PlanKept(s, q);
    }
    Reassemble(s, s');
  }

  lemma KeepsMakeTransaction(s: Fs, tag: nat)
    requires Good(s) && Enabled(s, MakeTransaction(tag))
    ensures Good(Do(s, MakeTransaction(tag)))
  {
    hide Legal, Judge, Faithful, Durable, Known, PlanKept;
    var view := s.At(PARENT)[Transaction(tag) := s.nextId];
    var s1 := s.Write(PARENT, view).(nextId := s.nextId + 1);
    MakeDirectoryValid(s, Transaction(tag));
    WriteValid(s, PARENT, view, s.nextId + 1);
    hide Fs.Numbered;
    ParentsStay(s, s1);
    ParentHolds(s, s1);
    QuietParentWrite(s, s1, view);
    var s' := Do(s, MakeTransaction(tag));
    NewDirectory(s1, s', s.nextId, Directory([Revision(s.clock + 1, map[])], 0));
  }

  lemma ParentsStay(s: Fs, s': Fs)
    requires Good(s)
    requires s.trees.Keys <= s'.trees.Keys
    requires forall r :: r in s.records && r !in s.unsettled ==>
      r in s'.records && s'.records[r] == s.records[r] && r !in s'.unsettled
    requires s'.shell == Stopped ==> s.shell == Stopped
    ensures forall i :: s.directories[PARENT].synced <= i < |s.directories[PARENT].revisions| ==>
      ParentKept(s', s.directories[PARENT].revisions[i].view)
  {
    hide ParentKept;
    forall i | s.directories[PARENT].synced <= i < |s.directories[PARENT].revisions|
      ensures ParentKept(s', s.directories[PARENT].revisions[i].view)
    {
      SameParent(s, s', s.directories[PARENT].revisions[i].view);
    }
  }

  lemma KeepsStageTree(s: Fs, t: Id, tree: Tree)
    requires Good(s) && Enabled(s, StageTree(t, tree))
    ensures Good(Do(s, StageTree(t, tree)))
  {
    hide Legal, ParentKept, Judge, Faithful, Durable, Known, PlanKept, TreesKept;
    var s' := Do(s, StageTree(t, tree));
    MakeTreeValid(s, t, New, tree);
    TreeMade(s, t, tree);
    hide Fs.Numbered;
    ParentsStay(s, s');
    QuietOtherWrite(s, s', t, s.At(t)[New := s.nextId]);
  }

  lemma KeepsStagedContents(s: Fs, a: Action)
    requires Good(s) && Enabled(s, a) && (a.WriteStaged? || a.SyncTree? || a.SyncRecord? || a.Edit?)
    ensures Good(Do(s, a))
  {
    StagedContentsStay(s, a);
    hide Legal, ParentKept, Judge, Faithful, Durable, Known, PlanKept, TreesKept, PlansKept,
         Fs.Numbered, Private, Enabled, Do;
    var s' := Do(s, a);
    ParentsStay(s, s');
    NoWrite(s, s');
  }

  lemma StagedContentsStay(s: Fs, a: Action)
    requires Good(s) && Enabled(s, a) && (a.WriteStaged? || a.SyncTree? || a.SyncRecord? || a.Edit?)
    ensures Do(s, a).Valid() && TreesKept(s, Do(s, a)) && PlansKept(s, Do(s, a))
    ensures forall r :: r in s.records && r !in s.unsettled ==> r !in Do(s, a).unsettled
    ensures Do(s, a).directories == s.directories && Do(s, a).records == s.records
    ensures s.trees.Keys <= Do(s, a).trees.Keys && Do(s, a).shell == s.shell
  {
    GoodIsValid(s);
    match a
    case WriteStaged(g, tree) => PrivateRewritten(s, g, tree);
    case SyncTree(g) => PrivateSettled(s, g);
    case SyncRecord(r) => RecordIsOnDisk(s, r);
    case Edit(edits) => TreesEdited(s, edits);
  }

  lemma PrivateRewritten(s: Fs, g: Id, tree: Tree)
    requires s.Valid() && Private(s, g)
    ensures s.Rewrite(g, tree).Valid() && TreesKept(s, s.Rewrite(g, tree)) && PlansKept(s, s.Rewrite(g, tree))
    ensures forall r :: r in s.records && r !in s.unsettled ==> r !in s.Rewrite(g, tree).unsettled
  {
    assert g in s.trees;
    hide Private;
  }

  lemma PrivateSettled(s: Fs, g: Id)
    requires s.Valid() && Private(s, g)
    ensures s.Settle(g).Valid() && TreesKept(s, s.Settle(g)) && PlansKept(s, s.Settle(g))
  {
    hide Private;
  }

  lemma RecordIsOnDisk(s: Fs, r: Id)
    requires s.Valid() && r in s.records
    ensures s.Settle(r).Valid() && TreesKept(s, s.Settle(r)) && PlansKept(s, s.Settle(r))
  {
    hide Private;
  }

  lemma TreesEdited(s: Fs, edits: map<Id, Tree>)
    requires s.Valid() && edits.Keys <= s.trees.Keys
    ensures s.Touch(edits).Valid() && TreesKept(s, s.Touch(edits)) && PlansKept(s, s.Touch(edits))
    ensures forall r :: r in s.records && r !in s.unsettled ==> r !in s.Touch(edits).unsettled
  {
    hide Private;
  }

  lemma KeepsWriteCompletion(s: Fs, t: Id, changed: bool)
    requires Good(s) && Enabled(s, WriteCompletion(t, changed))
    ensures Good(Do(s, WriteCompletion(t, changed)))
  {
    hide Legal, ParentKept, Judge, Faithful, Durable, Known, PlanKept, TreesKept;
    var s' := Do(s, WriteCompletion(t, changed));
    MakeRecordValid(s, t, CompletedFile, CompletionNote(changed));
    RecordMade(s, t, CompletedFile, CompletionNote(changed));
    hide Fs.Numbered;
    ParentsStay(s, s');
    QuietOtherWrite(s, s', t, s.At(t)[CompletedFile := s.nextId]);
  }

  lemma ParentHolds(s: Fs, s': Fs)
    requires Good(s)
    requires s.trees.Keys <= s'.trees.Keys
    requires forall r :: r in s.records && r !in s.unsettled ==>
      r in s'.records && s'.records[r] == s.records[r] && r !in s'.unsettled
    requires s'.shell == Stopped ==> s.shell == Stopped
    ensures ParentKept(s', s.At(PARENT))
  {
    SameParent(s, s', s.At(PARENT));
  }

  lemma KeepsWriteIntent(s: Fs, tag: nat)
    requires Good(s) && Enabled(s, WriteIntent(tag))
    ensures Good(Do(s, WriteIntent(tag)))
  {
    hide Legal, Judge, Faithful, Durable, Known, PlanKept, TreesKept, ParentKept;
    var s' := Do(s, WriteIntent(tag));
    MakeRecordValid(s, PARENT, Temporary(tag), IntentRecord);
    RecordMade(s, PARENT, Temporary(tag), IntentRecord);
    hide Fs.Numbered;
    ParentsStay(s, s');
    ParentHolds(s, s');
    SameEntries(s', s.At(PARENT), s.At(PARENT)[Temporary(tag) := s.nextId]);
    QuietParentWrite(s, s', s.At(PARENT)[Temporary(tag) := s.nextId]);
  }

  lemma KeepsPublishIntent(s: Fs, tag: nat)
    requires Good(s) && Enabled(s, PublishIntent(tag))
    ensures Good(Do(s, PublishIntent(tag)))
  {
    hide Legal, Judge, Faithful, Durable, Known, PlanKept, TreesKept;
    var s' := Do(s, PublishIntent(tag));
    RenameWithinValid(s, PARENT, Temporary(tag), RestartIntent);
    SameTrees(s, s');
    hide Fs.Numbered;
    ParentsStay(s, s');
    ParentHolds(s, s');
    QuietParentWrite(s, s', (s.At(PARENT) - {Temporary(tag)})[RestartIntent := s.At(PARENT)[Temporary(tag)]]);
  }

  lemma KeepsDropTemporary(s: Fs, tag: nat)
    requires Good(s) && Enabled(s, DropTemporary(tag))
    ensures Good(Do(s, DropTemporary(tag)))
  {
    hide Legal, Judge, Faithful, Durable, Known, PlanKept, TreesKept;
    var s' := Do(s, DropTemporary(tag));
    UnlinkValid(s, PARENT, Temporary(tag));
    SameTrees(s, s');
    hide Fs.Numbered;
    ParentsStay(s, s');
    ParentHolds(s, s');
    QuietParentWrite(s, s', s.At(PARENT) - {Temporary(tag)});
  }

  lemma KeepsRemoveIntent(s: Fs)
    requires Good(s) && Enabled(s, RemoveIntent)
    ensures Good(Do(s, RemoveIntent))
  {
    hide Legal, Judge, Faithful, Durable, Known, PlanKept, TreesKept;
    var s' := Do(s, RemoveIntent);
    UnlinkValid(s, PARENT, RestartIntent);
    SameTrees(s, s');
    hide Fs.Numbered;
    ParentsStay(s, s');
    ParentHolds(s, s');
    QuietParentWrite(s, s', s.At(PARENT) - {RestartIntent});
  }

  lemma KeepsShell(s: Fs, a: Action)
    requires Good(s) && Enabled(s, a) && (a.StopShell? || a.StartShell?)
    ensures Good(Do(s, a))
  {
    hide Legal, Judge, Faithful, Durable, Known, PlanKept;
    NoWrite(s, Do(s, a));
  }

  lemma LinkJournalLegal(s: Fs, q: Id, r: Id, j: nat)
    requires Good(s) && Enabled(s, LinkJournal(q)) && IsPlan(s, r) && s.records[r].plan.transaction in s.directories
    requires Paired(s.directories[PARENT], s.directories[s.records[r].plan.transaction],
             s.directories[PARENT].Last(), j)
    ensures Legal(r, s.records[r].plan, s.At(PARENT)[Journal := q],
                  s.directories[s.records[r].plan.transaction].revisions[j].view)
  {
    hide Judge, Faithful, Durable, Known, ParentKept;
    PlansHaveDirectories(s);
    assert PlanKept(s, r);
    assert Legal(r, s.records[r].plan, s.At(PARENT), s.directories[s.records[r].plan.transaction].revisions[j].view);
  }

  lemma KeepsLinkJournal(s: Fs, q: Id)
    requires Good(s) && Enabled(s, LinkJournal(q))
    ensures Good(Do(s, LinkJournal(q)))
  {
    PlansHaveDirectories(s);
    hide Judge, Faithful, Durable, Known, TreesKept, PlanKept, Legal, Paired, AtOld, Settled;
    var s' := Do(s, LinkJournal(q));
    var view := s.At(PARENT)[Journal := q];
    LinkValid(s, PARENT, Journal, q);
    SameTrees(s, s');
    hide Fs.Numbered;
    ParentsStay(s, s');
    ParentHolds(s, s');
    var p := s.directories[PARENT];
    forall r, j: nat | IsPlan(s', r) && Paired(p, s.directories[s.records[r].plan.transaction], p.Last(), j)
      ensures Legal(r, s.records[r].plan, view, s.directories[s.records[r].plan.transaction].revisions[j].view)
    {
      LinkJournalLegal(s, q, r, j);
    }
    ParentWrite(s, s', view);
  }

  lemma UnlinkJournalLegal(s: Fs, q: Id, r: Id, j: nat)
    requires Good(s) && Enabled(s, UnlinkJournal(q)) && IsPlan(s, r) && s.records[r].plan.transaction in s.directories
    requires Paired(s.directories[PARENT], s.directories[s.records[r].plan.transaction],
             s.directories[PARENT].Last(), j)
    ensures Legal(r, s.records[r].plan, s.At(PARENT) - {Journal},
                  s.directories[s.records[r].plan.transaction].revisions[j].view)
  {
    hide Judge, Faithful, Durable, Known, ParentKept;
    PlansHaveDirectories(s);
    assert PlanKept(s, r);
    assert Legal(r, s.records[r].plan, s.At(PARENT), s.directories[s.records[r].plan.transaction].revisions[j].view);
  }

  lemma KeepsUnlinkJournal(s: Fs, q: Id)
    requires Good(s) && Enabled(s, UnlinkJournal(q))
    ensures Good(Do(s, UnlinkJournal(q)))
  {
    PlansHaveDirectories(s);
    hide Judge, Faithful, Durable, Known, TreesKept, PlanKept, Legal, Paired, AtOld, Settled;
    var s' := Do(s, UnlinkJournal(q));
    var view := s.At(PARENT) - {Journal};
    UnlinkValid(s, PARENT, Journal);
    SameTrees(s, s');
    hide Fs.Numbered;
    ParentsStay(s, s');
    ParentHolds(s, s');
    var p := s.directories[PARENT];
    forall r, j: nat | IsPlan(s', r) && Paired(p, s.directories[s.records[r].plan.transaction], p.Last(), j)
      ensures Legal(r, s.records[r].plan, view, s.directories[s.records[r].plan.transaction].revisions[j].view)
    {
      UnlinkJournalLegal(s, q, r, j);
    }
    ParentWrite(s, s', view);
  }

  lemma RetireLegal(s: Fs, q: Id, r: Id, i: nat)
    requires Good(s) && Enabled(s, RetireOld(q)) && IsPlan(s, q) && IsPlan(s, r)
    requires s.records[q].plan.transaction in s.directories
    requires s.records[r].plan.transaction == s.records[q].plan.transaction
    requires var t := s.directories[s.records[q].plan.transaction];
      Paired(s.directories[PARENT], t, i, t.Last())
    ensures var v := s.At(s.records[q].plan.transaction);
      Legal(r, s.records[r].plan, s.directories[PARENT].revisions[i].view, (v - {New})[Previous := v[New]])
  {
    OnePlanPerTransaction(s, q, r);
    assert i == s.directories[PARENT].Last();
    hide Good, Judge, Faithful, Durable, Known, Fs.Numbered;
  }

  lemma OnePlanPerTransaction(s: Fs, q: Id, r: Id)
    requires Good(s) && IsPlan(s, q) && IsPlan(s, r)
    requires s.records[r].plan.transaction == s.records[q].plan.transaction
    ensures r == q
  {
    assert r != q ==> Separate(s.records[q].plan, s.records[r].plan);
    hide PlanKept, ParentKept, Fs.Numbered;
  }

  lemma KeepsRetireOld(s: Fs, q: Id)
    requires Good(s) && Enabled(s, RetireOld(q))
    ensures Good(Do(s, RetireOld(q)))
  {
    JournalIsPlan(s);
    PlansHaveDirectories(s);
    var t := s.records[q].plan.transaction;
    var s' := Do(s, RetireOld(q));
    RenameWithinValid(s, t, New, Previous);
    SameTrees(s, s');
    ParentsStay(s, s');
    hide Judge, Faithful, Durable, Known, ParentKept, PlanKept, Legal, TreesKept, Swapped, Fs.Numbered, Paired,
         Separate;
    var p := s.directories[PARENT];
    forall r, i: nat | IsPlan(s', r) && s.records[r].plan.transaction == t &&
        Paired(p, s.directories[t], i, s.directories[t].Last())
      ensures Legal(r, s.records[r].plan, p.revisions[i].view, s'.At(t))
    {
      RetireLegal(s, q, r, i);
    }
    OtherWrite(s, s', t, s'.At(t));
  }

  lemma JournalIsPlan(s: Fs)
    requires Good(s) && Journal in s.At(PARENT)
    ensures IsPlan(s, s.At(PARENT)[Journal])
    ensures s.At(PARENT)[Journal] !in s.unsettled
    ensures PlanKept(s, s.At(PARENT)[Journal])
  {
    assert ParentKept(s, s.At(PARENT));
  }

  lemma NewTreeExists(s: Fs, q: Id)
    requires Good(s) && IsPlan(s, q)
    ensures s.records[q].plan.after.identity in s.trees
  {
    hide Judge, Shapes;
    assert PlanKept(s, q);
  }

  /** Counting publications does not disturb anything. */
  lemma Counted(s: Fs, s': Fs)
    requires s.Valid() && s' == s.(unguarded := s'.unguarded)
    ensures s'.Valid()
  {
  }

  lemma ValidAfterPublish(s: Fs, q: Id)
    requires Good(s) && Enabled(s, Publish(q))
    ensures Do(s, Publish(q)).Valid()
    ensures TreesKept(s, Do(s, Publish(q))) && PlansKept(s, Do(s, Publish(q)))
  {
    PlansHaveDirectories(s);
    JournalIsPlan(s);
    var plan, s' := s.records[q].plan, Do(s, Publish(q));
    RenameUpValid(s, plan.transaction, New, Destination, plan.before.Some?);
    Counted(s.RenameUp(plan.transaction, New, Destination, plan.before.Some?), s');
    hide Good, Judge, Faithful, Durable, Known, ParentKept, Legal, PlanKept, Fs.Numbered, TreesKept;
    SameTrees(s, s');
  }

  lemma PublishResult(s: Fs, q: Id, s': Fs)
    requires Good(s) && Enabled(s, Publish(q)) && s' == Do(s, Publish(q))
    ensures IsPlan(s, q)
    ensures var plan := s.records[q].plan;
      && plan.transaction in s.directories && plan.transaction != PARENT
      && s'.directories == s.WriteBoth(PARENT, s.At(PARENT)[Destination := plan.after.identity],
                                       plan.transaction, s'.At(plan.transaction)).directories
      && (Swapped(plan, s'.At(PARENT), s'.At(plan.transaction)) || Retired(plan, s'.At(plan.transaction)))
      && s'.At(PARENT) == s.At(PARENT)[Destination := plan.after.identity]
  {
    hide Judge, Faithful, Durable, Known;
    PlansHaveDirectories(s);
    JournalIsPlan(s);
    var plan := s.records[q].plan;
    PairedLast(s.directories[PARENT], s.directories[plan.transaction]);
    assert Legal(q, plan, s.At(PARENT), s.At(plan.transaction));
  }

  lemma PublishParents(s: Fs, q: Id, s': Fs)
    requires Good(s) && Enabled(s, Publish(q)) && s' == Do(s, Publish(q))
    requires IsPlan(s, q) && s.records[q].plan.after.identity in s.trees
    requires s'.directories[PARENT] ==
             s.directories[PARENT].Append(s.clock, s.At(PARENT)[Destination := s.records[q].plan.after.identity])
    ensures forall i :: s'.directories[PARENT].synced <= i < |s'.directories[PARENT].revisions| ==>
      && ParentKept(s', s'.directories[PARENT].revisions[i].view)
      && forall r :: IsPlan(s', r) ==>
           Names(s'.directories[PARENT].revisions[i].view, Transaction(s.records[r].plan.tag),
                 s.records[r].plan.transaction)
  {
    hide Judge, Faithful, Durable, Known, Legal, PlanKept, Swapped, Staged, Retired;
    TransactionsNamed(s);
    ParentsStay(s, s');
    ParentHolds(s, s');
    var p, p' := s.directories[PARENT], s'.directories[PARENT];
    forall i | p'.synced <= i < |p'.revisions|
      ensures ParentKept(s', p'.revisions[i].view)
      ensures forall r :: IsPlan(s', r) ==>
        Names(p'.revisions[i].view, Transaction(s.records[r].plan.tag), s.records[r].plan.transaction)
    {
      if i < |p.revisions| {
        assert p'.revisions[i] == p.revisions[i];
      } else {
        assert p.revisions[p.Last()].view == s.At(PARENT);
      }
    }
  }

  lemma TransactionsNamed(s: Fs)
    requires Good(s)
    ensures forall q, i :: IsPlan(s, q) && s.directories[PARENT].synced <= i < |s.directories[PARENT].revisions| ==>
      Names(s.directories[PARENT].revisions[i].view, Transaction(s.records[q].plan.tag), s.records[q].plan.transaction)
  {
    hide Judge, Faithful, Durable, Known, Shapes;
    forall q, i | IsPlan(s, q) && s.directories[PARENT].synced <= i < |s.directories[PARENT].revisions|
      ensures Names(s.directories[PARENT].revisions[i].view, Transaction(s.records[q].plan.tag),
              s.records[q].plan.transaction)
    {
      assert PlanKept(s, q);
    }
  }

  lemma KeepsPublish(s: Fs, q: Id)
    requires Good(s) && Enabled(s, Publish(q))
    ensures Good(Do(s, Publish(q)))
  {
    hide Judge, Faithful, Durable, Known, Legal, ParentKept, PlanKept, Swapped, Retired, Staged, AtOld, Shapes;
    var s' := Do(s, Publish(q));
    PlansHaveDirectories(s);
    PublishResult(s, q, s');
    NewTreeExists(s, q);
    ValidAfterPublish(s, q);
    PublishParents(s, q, s');
    forall r | IsPlan(s', r)
      ensures Shapes(r, s.records[r].plan, s'.directories[PARENT], s'.directories[s.records[r].plan.transaction])
    {
      PublishShapes(s, q, s', r, s'.At(PARENT), s'.At(s.records[q].plan.transaction));
    }
    Reassemble(s, s');
  }

  lemma PublishShapes(s: Fs, q: Id, s': Fs, r: Id, view: View, other: View)
    requires Good(s) && Names(s.At(PARENT), Journal, q) && IsPlan(s, q) && IsPlan(s, r)
    requires var plan := s.records[q].plan;
      && s'.directories == s.WriteBoth(PARENT, view, plan.transaction, other).directories
      && (Swapped(plan, view, other) || Retired(plan, other))
      && Names(view, Destination, plan.after.identity)
      && SameName(s.At(PARENT), view, Journal)
    ensures Shapes(r, s.records[r].plan, s'.directories[PARENT], s'.directories[s.records[r].plan.transaction])
  {
    hide Judge, Faithful, Durable, Known, ParentKept;
    assert PlanKept(s, q);
    assert PlanKept(s, r);
    var plan, d := s.records[r].plan, s.records[r].plan.transaction;
    var p, p', t, t' := s.directories[PARENT], s'.directories[PARENT], s.directories[d], s'.directories[d];
    forall i: nat, j: nat | Paired(p', t', i, j) ensures Legal(r, plan, p'.revisions[i].view, t'.revisions[j].view) {
      if r == q {
        PairedBothGrew(p, t, s.clock, view, other, i, j);
      } else {
        assert Separate(s.records[q].plan, plan);
        PairedParentGrew(p, t, s.clock, view, i, j);
        assert Legal(r, plan, p.revisions[if i < |p.revisions| then i else p.Last()].view, t.revisions[j].view);
      }
    }
  }

  lemma NewPlanShapes(s: Fs, t: Id, plan: Plan, s': Fs)
    requires Good(s) && Staging(s, t, plan) && PlanFile !in s.At(t)
    requires s'.directories == s.Write(t, s.At(t)[PlanFile := s.nextId]).directories
    ensures Shapes(s.nextId, plan, s'.directories[PARENT], s'.directories[t])
  {
    hide Judge, Faithful, Durable, Known, ParentKept, PlanKept;
    var p, t0, t1 := s.directories[PARENT], s.directories[t], s'.directories[t];
    forall i: nat, j: nat | Paired(p, t1, i, j)
      ensures Legal(s.nextId, plan, p.revisions[i].view, t1.revisions[j].view)
    {
      assert s.directories[PARENT].Valid(s.clock, s.nextId);
      assert !Names(p.revisions[i].view, Journal, s.nextId);
      assert j == t0.Last() || j == |t0.revisions|;
    }
  }

  lemma KnownIsFaithful(s: Fs, snap: Snapshot)
    requires Known(s, snap)
    ensures Faithful(s, snap)
  {
  }

  lemma NewPlanKept(s: Fs, t: Id, plan: Plan, s': Fs)
    requires Good(s) && Enabled(s, WritePlan(t, plan)) && s' == Do(s, WritePlan(t, plan)) && s'.Valid()
    ensures PlanKept(s', s.nextId)
  {
    hide Judge, Faithful, Durable, Known, ParentKept, Legal, Shapes;
    NewPlanShapes(s, t, plan, s');
    StillDurable(s, s', plan.after);
    if plan.before.Some? { KnownIsFaithful(s, plan.before.value); StillFaithful(s, s', plan.before.value); }
  }

  lemma ValidWithPlan(s: Fs, t: Id, plan: Plan)
    requires Good(s) && Enabled(s, WritePlan(t, plan))
    ensures Do(s, WritePlan(t, plan)).Valid()
  {
    MakeRecordValid(s, t, PlanFile, PlanRecord(plan));
    hide Good, Judge, Faithful, Durable, Known, Private, Fs.Numbered;
  }

  lemma OldPlansKept(s: Fs, t: Id, plan: Plan, r: Id)
    requires Good(s) && Enabled(s, WritePlan(t, plan)) && IsPlan(s, r)
    requires Do(s, WritePlan(t, plan)).Valid()
    ensures PlanKept(Do(s, WritePlan(t, plan)), r)
    ensures Separate(s.records[r].plan, plan)
  {
    hide Judge, Faithful, Durable, Known, ParentKept, Shapes, PlanKept;
    PlansHaveDirectories(s);
    PlanUndisturbed(s, Do(s, WritePlan(t, plan)), r);
  }

  lemma ParentsAfterPlan(s: Fs, t: Id, plan: Plan, s': Fs)
    requires Good(s) && Enabled(s, WritePlan(t, plan)) && s' == Do(s, WritePlan(t, plan))
    ensures PARENT in s'.directories && s'.directories[PARENT] == s.directories[PARENT]
    ensures s.nextId !in s.records
    ensures forall i :: s.directories[PARENT].synced <= i < |s.directories[PARENT].revisions| ==>
      ParentKept(s', s.directories[PARENT].revisions[i].view)
  {
    assert t != PARENT;
    RecordMade(s, t, PlanFile, PlanRecord(plan));
    hide Judge, Faithful, Durable, Known, ParentKept, Shapes, PlanKept, Private, Staging, TreesKept, PlansKept,
         Fs.Numbered;
    ParentsStay(s, s');
  }

  lemma KeepsWritePlan(s: Fs, t: Id, plan: Plan)
    requires Good(s) && Enabled(s, WritePlan(t, plan))
    ensures Good(Do(s, WritePlan(t, plan)))
  {
    assert t in s.directories && t != PARENT;
    hide Judge, Faithful, Durable, Known, ParentKept, Shapes, PlanKept, Private, Staging, TreesKept, PlansKept;
    var s' := Do(s, WritePlan(t, plan));
    var q := s.nextId;
    ValidWithPlan(s, t, plan);
    hide Fs.Numbered;
    ParentsAfterPlan(s, t, plan, s');
    NewPlanKept(s, t, plan, s');
    forall r | IsPlan(s', r) ensures PlanKept(s', r) && (r != q ==> Separate(s.records[r].plan, plan)) {
      if r != q { OldPlansKept(s, t, plan, r); }
    }
    hide Separate;
    forall r, u | IsPlan(s', r) && IsPlan(s', u) && r != u
      ensures Separate(s'.records[r].plan, s'.records[u].plan)
    {
      assert r != q && u != q ==> Separate(s.records[r].plan, s.records[u].plan);
      if r == q { SeparateBothWays(s.records[u].plan, plan); }
    }
  }

  lemma SeparateBothWays(a: Plan, b: Plan)
    requires Separate(a, b)
    ensures Separate(b, a)
  {
  }

  ghost predicate SameDoubts(s: Fs, s': Fs) {
    forall g :: g in s.trees ==> (g in s.unsettled <==> g in s'.unsettled) && (g in s.edited <==> g in s'.edited)
  }

  lemma StillFaithful(s: Fs, s': Fs, snap: Snapshot)
    requires Faithful(s, snap)
    requires s'.trees == s.trees && SameDoubts(s, s')
    ensures Faithful(s', snap)
  {
    hide Judge;
  }

  lemma StillDurable(s: Fs, s': Fs, snap: Snapshot)
    requires Durable(s, snap)
    requires s'.trees == s.trees && SameDoubts(s, s')
    ensures Durable(s', snap)
  {
    hide Judge;
  }

  lemma PlanUndisturbed(s: Fs, s': Fs, r: Id)
    requires Good(s) && IsPlan(s, r) && IsPlan(s', r) && s'.records[r] == s.records[r] && s'.Valid()
    requires s'.directories.Keys == s.directories.Keys
    requires s'.directories[PARENT] == s.directories[PARENT]
    requires s'.directories[s.records[r].plan.transaction] == s.directories[s.records[r].plan.transaction]
    requires s'.trees == s.trees && SameDoubts(s, s')
    ensures PlanKept(s', r)
  {
    hide Judge, ParentKept, Legal, Shapes, Faithful, Durable, Known;
    assert PlanKept(s, r);
    var plan := s.records[r].plan;
    StillDurable(s, s', plan.after);
    if plan.before.Some? { StillFaithful(s, s', plan.before.value); }
  }

  lemma ValidAfterCut(s: Fs, cut: map<Id, nat>, left: Fs)
    requires s.Valid() && s.Survives(cut) && s.PowerLoss(cut, left)
    ensures left.Valid()
  {
    forall d | d in left.directories ensures left.directories[d].Valid(left.clock, left.nextId) {
      assert s.directories[d].Valid(s.clock, s.nextId);
      var r, r' := s.directories[d].revisions, left.directories[d].revisions;
      assert forall i :: 0 <= i < |r'| ==> r'[i] == r[i];
    }
  }

  lemma CutShapes(s: Fs, cut: map<Id, nat>, left: Fs, q: Id)
    requires Good(s) && s.Survives(cut) && s.PowerLoss(cut, left) && IsPlan(s, q)
    ensures s.records[q].plan.transaction in left.directories
    ensures Shapes(q, s.records[q].plan, left.directories[PARENT], left.directories[s.records[q].plan.transaction])
  {
    hide Judge, Faithful, Durable, Known, ParentKept, Legal;
    assert PlanKept(s, q);
    var plan, d := s.records[q].plan, s.records[q].plan.transaction;
    var p, t := s.directories[PARENT], s.directories[d];
    var p', t' := left.directories[PARENT], left.directories[d];
    assert p' == p.Cut(cut[PARENT]) && t' == t.Cut(cut[d]);
    assert Paired(p, t, cut[PARENT], cut[d]);
    forall i: nat, j: nat | Paired(p', t', i, j) ensures Legal(q, plan, p'.revisions[i].view, t'.revisions[j].view) {
      PairedCut(p, t, cut[PARENT], cut[d], i, j);
    }
  }

  lemma CutParents(s: Fs, cut: map<Id, nat>, left: Fs)
    requires Good(s) && s.Survives(cut) && s.PowerLoss(cut, left)
    ensures forall i :: left.directories[PARENT].synced <= i < |left.directories[PARENT].revisions| ==>
      && s.directories[PARENT].synced <= i < |s.directories[PARENT].revisions|
      && left.directories[PARENT].revisions[i] == s.directories[PARENT].revisions[i]
      && ParentKept(left, left.directories[PARENT].revisions[i].view)
  {
    hide Judge, Faithful, Durable, Known, ParentKept, Legal, PlanKept;
    ParentsStay(s, left);
    assert left.directories[PARENT] == s.directories[PARENT].Cut(cut[PARENT]);
  }

  lemma KeepsLosePower(s: Fs, cut: map<Id, nat>, left: Fs)
    requires Good(s) && Enabled(s, LosePower(cut, left))
    ensures Good(Do(s, LosePower(cut, left)))
  {
    hide Judge, Faithful, Durable, Known, ParentKept, Legal, PlanKept, Shapes, Paired, TreesKept;
    PlansHaveDirectories(s);
    LossKeepsTrees(s, cut, left);
    ValidAfterCut(s, cut, left);
    CutParents(s, cut, left);
    forall q | IsPlan(left, q)
      ensures Shapes(q, s.records[q].plan, left.directories[PARENT], left.directories[s.records[q].plan.transaction])
    {
      CutShapes(s, cut, left, q);
    }
    TransactionsNamed(s);
    Reassemble(s, left);
  }

  /** No step breaks the promise. */
  lemma StepKeepsGood(s: Fs, a: Action)
    requires Good(s) && Enabled(s, a)
    ensures Good(Do(s, a))
  {
    hide Good, Enabled, Do;
    match a
    case SyncDirectory(d) => KeepsSyncDirectory(s, d);
    case MakeTransaction(tag) => KeepsMakeTransaction(s, tag);
    case StageTree(t, tree) => KeepsStageTree(s, t, tree);
    case WriteStaged(_, _) => KeepsStagedContents(s, a);
    case SyncTree(_) => KeepsStagedContents(s, a);
    case WritePlan(t, plan) => KeepsWritePlan(s, t, plan);
    case WriteCompletion(t, changed) => KeepsWriteCompletion(s, t, changed);
    case SyncRecord(_) => KeepsStagedContents(s, a);
    case LinkJournal(q) => KeepsLinkJournal(s, q);
    case Publish(q) => KeepsPublish(s, q);
    case RetireOld(q) => KeepsRetireOld(s, q);
    case UnlinkJournal(q) => KeepsUnlinkJournal(s, q);
    case WriteIntent(tag) => KeepsWriteIntent(s, tag);
    case PublishIntent(tag) => KeepsPublishIntent(s, tag);
    case DropTemporary(tag) => KeepsDropTemporary(s, tag);
    case RemoveIntent => KeepsRemoveIntent(s);
    case StopShell => KeepsShell(s, a);
    case StartShell => KeepsShell(s, a);
    case Edit(_) => KeepsStagedContents(s, a);
    case LosePower(cut, left) => KeepsLosePower(s, cut, left);
  }
}
