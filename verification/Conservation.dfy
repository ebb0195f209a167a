/** No generation, and no edit to one, is ever lost to the installer. */
module Conservation {
  import opened Wrappers
  import opened Ownership
  import opened Disk
  import opened Recovery
  import opened Preservation
  import opened Safety

  /** Transaction directory d, itself reachable from the parent, holds x. */
  ghost predicate Shelved(p: View, d: Id, t: View, x: Id) {
    && (Names(t, New, x) || Names(t, Previous, x))
    && exists tag: nat :: Names(p, Transaction(tag), d)
  }

  /** The contents of every directory in one state a power loss can leave. */
  ghost function Picture(ds: map<Id, Directory>, cut: map<Id, nat>): map<Id, View>
    requires Versions(ds, cut)
  {
    map d | d in ds :: ds[d].revisions[cut[d]].view
  }

  /** x is the installation, or sits in a reachable transaction directory. */
  ghost predicate Held(picture: map<Id, View>, x: Id) {
    && PARENT in picture
    && (|| Names(picture[PARENT], Destination, x)
        || exists d :: d in picture && d != PARENT && Shelved(picture[PARENT], d, picture[d], x))
  }

  ghost predicate KeptIn(ds: map<Id, Directory>, x: Id) {
    forall cut :: Surviving(ds, cut) ==> Held(Picture(ds, cut), x)
  }

  /** No power loss now could lose x. */
  ghost predicate Kept(s: Fs, x: Id) {
    KeptIn(s.directories, x)
  }

  ghost predicate Stamped(d: Directory, clock: nat) {
    && d.synced < |d.revisions|
    && forall i :: 0 <= i < |d.revisions| ==> d.revisions[i].stamp < clock
  }

  ghost predicate AllStamped(ds: map<Id, Directory>, clock: nat) {
    forall d :: d in ds ==> Stamped(ds[d], clock)
  }

  lemma ValidIsStamped(s: Fs)
    requires s.Valid()
    ensures AllStamped(s.directories, s.clock)
  {
  }

  /** Undoing the newest version of d, if `cut` has it, gives a cut of the state before the write. */
  lemma CutBeforeWrite(ds: map<Id, Directory>, clock: nat, d: Id, view: View, cut: map<Id, nat>)
    returns (c: map<Id, nat>)
    requires AllStamped(ds, clock) && d in ds
    requires Surviving(ds[d := ds[d].Append(clock, view)], cut)
    ensures Surviving(ds, c)
    ensures var after := Picture(ds[d := ds[d].Append(clock, view)], cut);
      || after == Picture(ds, c)
      || (Picture(ds, c)[d] == ds[d].Current() && after == Picture(ds, c)[d := view])
  {
    hide RenamesWhole;
    c := if cut[d] <= ds[d].Last() then cut else cut[d := ds[d].Last()];
    assert Stamped(ds[d], clock);
    VersionUndone(ds, clock, d, view, cut, c);
    PairsAfterWrite(ds, clock, d, view, cut, c);
  }

  lemma VersionUndone(ds: map<Id, Directory>, clock: nat, d: Id, view: View, cut: map<Id, nat>, c: map<Id, nat>)
    requires d in ds && ds[d].synced < |ds[d].revisions|
    requires Versions(ds[d := ds[d].Append(clock, view)], cut)
    requires c == if cut[d] <= ds[d].Last() then cut else cut[d := ds[d].Last()]
    ensures Versions(ds, c)
    ensures var after := Picture(ds[d := ds[d].Append(clock, view)], cut);
      || after == Picture(ds, c)
      || (Picture(ds, c)[d] == ds[d].Current() && after == Picture(ds, c)[d := view])
  {
    if cut[d] <= ds[d].Last() {
      OldVersion(ds, d, clock, view, cut);
    } else {
      NewVersion(ds, d, clock, view, cut);
    }
  }

  lemma OldVersion(ds: map<Id, Directory>, d: Id, clock: nat, view: View, cut: map<Id, nat>)
    requires d in ds && ds[d].synced < |ds[d].revisions|
    requires Versions(ds[d := ds[d].Append(clock, view)], cut) && cut[d] <= ds[d].Last()
    ensures Versions(ds, cut) && Picture(ds[d := ds[d].Append(clock, view)], cut) == Picture(ds, cut)
  {
    var ds' := ds[d := ds[d].Append(clock, view)];
    forall k | k in ds ensures cut[k] < |ds[k].revisions| && ds'[k].revisions[cut[k]] == ds[k].revisions[cut[k]] {
    }
  }

  lemma NewVersion(ds: map<Id, Directory>, d: Id, clock: nat, view: View, cut: map<Id, nat>)
    requires d in ds && ds[d].synced < |ds[d].revisions|
    requires Versions(ds[d := ds[d].Append(clock, view)], cut) && cut[d] > ds[d].Last()
    ensures var c := cut[d := ds[d].Last()];
      && Versions(ds, c) && Picture(ds, c)[d] == ds[d].Current()
      && Picture(ds[d := ds[d].Append(clock, view)], cut) == Picture(ds, c)[d := view]
  {
    var ds' := ds[d := ds[d].Append(clock, view)];
    assert cut[d] == |ds[d].revisions|;
    assert ds'[d].revisions[cut[d]].view == view;
    forall k | k in ds && k != d ensures cut[k] < |ds[k].revisions| && ds'[k] == ds[k] {
    }
  }

  lemma PairsAfterWrite(ds: map<Id, Directory>, clock: nat, d: Id, view: View, cut: map<Id, nat>, c: map<Id, nat>)
    requires AllStamped(ds, clock) && d in ds
    requires Surviving(ds[d := ds[d].Append(clock, view)], cut) && Versions(ds, c)
    requires c == if cut[d] <= ds[d].Last() then cut else cut[d := ds[d].Last()]
    ensures RenamesWhole(ds, c)
  {
    hide Paired;
    var ds' := ds[d := ds[d].Append(clock, view)];
    forall e, f | e in ds && f in ds && e != f ensures Paired(ds[e], ds[f], c[e], c[f]) {
      assert Paired(ds'[e], ds'[f], cut[e], cut[f]);
      assert Stamped(ds[e], clock) && Stamped(ds[f], clock);
      if e == d { PairedParentGrew(ds[e], ds[f], clock, view, cut[e], cut[f]); }
      else if f == d { PairedOtherGrew(ds[e], ds[f], clock, view, cut[e], cut[f]); }
    }
  }

  function Renamed(ds: map<Id, Directory>, clock: nat, view: View, e: Id, other: View): map<Id, Directory>
    requires PARENT in ds && e in ds
  {
    ds[PARENT := ds[PARENT].Append(clock, view)][e := ds[e].Append(clock, other)]
  }

  /** The same for a rename: both halves are undone, or neither. */
  lemma CutBeforeRename(ds: map<Id, Directory>, clock: nat, view: View, e: Id, other: View, cut: map<Id, nat>)
    returns (c: map<Id, nat>)
    requires AllStamped(ds, clock) && PARENT in ds && e in ds && e != PARENT
    requires Surviving(Renamed(ds, clock, view, e, other), cut)
    ensures Surviving(ds, c)
    ensures var after := Picture(Renamed(ds, clock, view, e, other), cut);
      || after == Picture(ds, c)
      || (Picture(ds, c)[PARENT] == ds[PARENT].Current() && Picture(ds, c)[e] == ds[e].Current()
          && after == Picture(ds, c)[PARENT := view][e := other])
  {
    hide RenamesWhole;
    var d: Id := PARENT;
    var ds' := Renamed(ds, clock, view, e, other);
    BothUndone(ds, clock, view, e, other, cut);
    c := if cut[d] <= ds[d].Last() then cut else cut[d := ds[d].Last()][e := ds[e].Last()];
    assert Stamped(ds[d], clock) && Stamped(ds[e], clock);
    VersionsUndone(ds, clock, view, e, other, cut, c);
    PairsAfterRename(ds, clock, view, e, other, cut, c);
  }

  lemma VersionsUndone(ds: map<Id, Directory>, clock: nat, view: View, e: Id, other: View, cut: map<Id, nat>,
                       c: map<Id, nat>)
    requires PARENT in ds && e in ds && e != PARENT
    requires ds[PARENT].synced < |ds[PARENT].revisions| && ds[e].synced < |ds[e].revisions|
    requires Versions(Renamed(ds, clock, view, e, other), cut)
    requires cut[PARENT] <= ds[PARENT].Last() <==> cut[e] <= ds[e].Last()
    requires c == if cut[PARENT] <= ds[PARENT].Last() then cut
                  else cut[PARENT := ds[PARENT].Last()][e := ds[e].Last()]
    ensures Versions(ds, c)
    ensures var after := Picture(Renamed(ds, clock, view, e, other), cut);
      || after == Picture(ds, c)
      || (Picture(ds, c)[PARENT] == ds[PARENT].Current() && Picture(ds, c)[e] == ds[e].Current()
          && after == Picture(ds, c)[PARENT := view][e := other])
  {
    hide Picture;
    var half := ds[PARENT := ds[PARENT].Append(clock, view)];
    assert half[e := half[e].Append(clock, other)] == Renamed(ds, clock, view, e, other);
    if cut[PARENT] <= ds[PARENT].Last() {
      OldVersion(half, e, clock, other, cut);
      OldVersion(ds, PARENT, clock, view, cut);
    } else {
      var d := cut[e := ds[e].Last()];
      NewVersion(half, e, clock, other, cut);
      NewVersion(ds, PARENT, clock, view, d);
      assert c == d[PARENT := ds[PARENT].Last()];
      PictureAt(ds, c, PARENT);
      PictureAt(ds, c, e);
    }
  }

  lemma PictureAt(ds: map<Id, Directory>, c: map<Id, nat>, d: Id)
    requires Versions(ds, c) && d in ds
    ensures d in Picture(ds, c) && Picture(ds, c)[d] == ds[d].revisions[c[d]].view
  {
  }

  lemma BothUndone(ds: map<Id, Directory>, clock: nat, view: View, e: Id, other: View, cut: map<Id, nat>)
    requires AllStamped(ds, clock) && PARENT in ds && e in ds && e != PARENT
    requires Surviving(Renamed(ds, clock, view, e, other), cut)
    ensures cut[PARENT] <= ds[PARENT].Last() <==> cut[e] <= ds[e].Last()
  {
    hide Paired;
    var ds' := Renamed(ds, clock, view, e, other);
    assert Paired(ds'[PARENT], ds'[e], cut[PARENT], cut[e]);
    assert Stamped(ds[PARENT], clock) && Stamped(ds[e], clock);
    PairedBothGrew(ds[PARENT], ds[e], clock, view, other, cut[PARENT], cut[e]);
  }

  lemma PairsAfterRename(ds: map<Id, Directory>, clock: nat, view: View, e: Id, other: View, cut: map<Id, nat>,
                         c: map<Id, nat>)
    requires AllStamped(ds, clock) && PARENT in ds && e in ds && e != PARENT
    requires Surviving(Renamed(ds, clock, view, e, other), cut) && Versions(ds, c)
    requires cut[PARENT] <= ds[PARENT].Last() <==> cut[e] <= ds[e].Last()
    requires c == if cut[PARENT] <= ds[PARENT].Last() then cut
                  else cut[PARENT := ds[PARENT].Last()][e := ds[e].Last()]
    ensures RenamesWhole(ds, c)
  {
    hide Paired;
    forall f, g | f in ds && g in ds && f != g ensures Paired(ds[f], ds[g], c[f], c[g]) {
      PairUndone(ds, clock, view, e, other, cut, f, g);
    }
  }

  lemma PairUndone(ds: map<Id, Directory>, clock: nat, view: View, e: Id, other: View, cut: map<Id, nat>, f: Id, g: Id)
    requires AllStamped(ds, clock) && PARENT in ds && e in ds && e != PARENT
    requires Surviving(Renamed(ds, clock, view, e, other), cut)
    requires cut[PARENT] <= ds[PARENT].Last() <==> cut[e] <= ds[e].Last()
    requires f in ds && g in ds && f != g
    ensures var c := if cut[PARENT] <= ds[PARENT].Last() then cut
                     else cut[PARENT := ds[PARENT].Last()][e := ds[e].Last()];
      Paired(ds[f], ds[g], c[f], c[g])
  {
    hide Paired;
    var ds' := Renamed(ds, clock, view, e, other);
    assert Paired(ds'[f], ds'[g], cut[f], cut[g]);
    assert Stamped(ds[f], clock) && Stamped(ds[g], clock);
    var v, w := if f == PARENT then view else other, if g == PARENT then view else other;
    if f in {PARENT, e} && g in {PARENT, e} {
      PairedBothGrew(ds[f], ds[g], clock, v, w, cut[f], cut[g]);
      PairedLast(ds[f], ds[g]);
    } else if f in {PARENT, e} {
      PairedParentGrew(ds[f], ds[g], clock, v, cut[f], cut[g]);
    } else if g in {PARENT, e} {
      PairedOtherGrew(ds[f], ds[g], clock, w, cut[f], cut[g]);
    }
  }

  /** A write that moves nothing out of reach. */
  ghost predicate Gentle(d: Id, v: View, w: View) {
    if d == PARENT then
      && (Destination in v ==> Names(w, Destination, v[Destination]))
      && forall tag: nat :: Transaction(tag) in v ==> Names(w, Transaction(tag), v[Transaction(tag)])
    else
      forall x :: Names(v, New, x) || Names(v, Previous, x) ==> Names(w, New, x) || Names(w, Previous, x)
  }

  lemma HeldAfterWrite(picture: map<Id, View>, d: Id, view: View, x: Id)
    requires Held(picture, x) && d in picture && Gentle(d, picture[d], view)
    ensures Held(picture[d := view], x)
  {
    var p, p' := picture[PARENT], picture[d := view][PARENT];
    if !Names(p, Destination, x) {
      var e :| e in picture && e != PARENT && Shelved(p, e, picture[e], x);
      var tag: nat :| Names(p, Transaction(tag), e);
      assert Names(p', Transaction(tag), e);
      assert Shelved(p', e, picture[d := view][e], x);
    }
  }

  lemma KeptAfterWrite(s: Fs, s': Fs, d: Id, view: View, x: Id)
    requires s.Valid() && Kept(s, x) && d in s.directories
    requires s'.directories == s.Write(d, view).directories
    requires Gentle(d, s.At(d), view)
    ensures Kept(s', x)
  {
    hide Held, Gentle, Versions, RenamesWhole;
    ValidIsStamped(s);
    var ds, ds' := s.directories, s'.directories;
    forall cut | Surviving(ds', cut) ensures Held(Picture(ds', cut), x) {
      var c := CutBeforeWrite(ds, s.clock, d, view, cut);
      assert Held(Picture(ds, c), x);
      if Picture(ds', cut) != Picture(ds, c) {
        PictureHas(ds, c, d);
        HeldAfterWrite(Picture(ds, c), d, view, x);
      }
    }
  }

  lemma PictureHas(ds: map<Id, Directory>, c: map<Id, nat>, d: Id)
    requires Surviving(ds, c) && d in ds
    ensures d in Picture(ds, c)
  {
  }

  lemma KeptAfterSync(s: Fs, d: Id, x: Id)
    requires d in s.directories && s.directories[d].synced < |s.directories[d].revisions| && Kept(s, x)
    ensures Kept(s.Sync(d), x)
  {
    hide Held, Paired, RenamesWhole, Versions;
    var ds, ds' := s.directories, s.Sync(d).directories;
    forall cut | Surviving(ds', cut) ensures Held(Picture(ds', cut), x) {
      SurvivedUnsynced(ds, d, cut);
      assert Picture(ds', cut) == Picture(ds, cut);
    }
  }

  lemma SurvivedUnsynced(ds: map<Id, Directory>, d: Id, cut: map<Id, nat>)
    requires d in ds && ds[d].synced < |ds[d].revisions|
    requires Surviving(ds[d := ds[d].Flush()], cut)
    ensures Surviving(ds, cut)
    ensures Versions(ds[d := ds[d].Flush()], cut)
  {
    var ds' := ds[d := ds[d].Flush()];
    forall e, f | e in ds && f in ds && e != f ensures Paired(ds[e], ds[f], cut[e], cut[f]) {
      assert Paired(ds'[e], ds'[f], cut[e], cut[f]);
    }
  }

  lemma KeptAfterNewDirectory(ds: map<Id, Directory>, d: Id, directory: Directory, x: Id)
    requires KeptIn(ds, x) && d !in ds
    ensures KeptIn(ds[d := directory], x)
  {
    hide Held, RenamesWhole;
    var ds' := ds[d := directory];
    forall cut | Surviving(ds', cut) ensures Held(Picture(ds', cut), x) {
      var c := SurvivedWithout(ds, d, directory, cut);
      HeldInMore(Picture(ds, c), Picture(ds', cut), x);
    }
  }

  lemma SurvivedWithout(ds: map<Id, Directory>, d: Id, directory: Directory, cut: map<Id, nat>)
    returns (c: map<Id, nat>)
    requires d !in ds && Surviving(ds[d := directory], cut)
    ensures Surviving(ds, c)
    ensures forall e :: e in ds ==> c[e] == cut[e]
  {
    hide Paired;
    var ds' := ds[d := directory];
    c := map e | e in ds :: cut[e];
    assert Versions(ds, c);
    forall e, f | e in ds && f in ds && e != f ensures Paired(ds[e], ds[f], c[e], c[f]) {
      assert Paired(ds'[e], ds'[f], cut[e], cut[f]);
    }
  }

  lemma HeldInMore(small: map<Id, View>, large: map<Id, View>, x: Id)
    requires Held(small, x)
    requires forall e :: e in small ==> e in large && large[e] == small[e]
    ensures Held(large, x)
  {
    if !Names(small[PARENT], Destination, x) {
      var e :| e in small && e != PARENT && Shelved(small[PARENT], e, small[e], x);
      assert Shelved(large[PARENT], e, large[e], x);
    }
  }

  lemma KeptAfterLoss(s: Fs, cut: map<Id, nat>, left: Fs, x: Id)
    requires s.Survives(cut) && s.PowerLoss(cut, left) && Kept(s, x)
    ensures Kept(left, x)
  {
    hide Held, RenamesWhole, Versions;
    var ds, ds' := s.directories, left.directories;
    assert Held(Picture(ds, cut), x);
    forall c | Surviving(ds', c) ensures Held(Picture(ds', c), x) {
      PictureLeft(ds, cut, ds', c);
    }
  }

  lemma PictureLeft(ds: map<Id, Directory>, cut: map<Id, nat>, ds': map<Id, Directory>, c: map<Id, nat>)
    requires Versions(ds, cut) && Versions(ds', c) && ds'.Keys == ds.Keys
    requires forall d :: d in ds ==> ds'[d] == ds[d].Cut(cut[d])
    ensures Picture(ds', c) == Picture(ds, cut)
  {
    forall d | d in ds ensures c[d] == cut[d] && Picture(ds', c)[d] == Picture(ds, cut)[d] {
      CutLeavesVersion(ds[d], cut[d], ds'[d], c[d]);
      PictureAt(ds, cut, d);
      PictureAt(ds', c, d);
    }
    hide Versions;
  }

  lemma CutLeavesVersion(d: Directory, i: nat, d': Directory, j: nat)
    requires i < |d.revisions| && d' == d.Cut(i) && d'.synced <= j < |d'.revisions|
    ensures j == i && d'.revisions[j] == d.revisions[i]
  {
  }

  lemma KeptAfterPublish(s: Fs, q: Id, x: Id)
    requires Good(s) && Enabled(s, Publish(q)) && Kept(s, x)
    ensures Do(s, Publish(q)).Valid() && Kept(Do(s, Publish(q)), x)
  {
    hide Judge, Faithful, Durable, Known, ParentKept, PlanKept, Kept;
    var s' := Do(s, Publish(q));
    PublishResult(s, q, s');
    JournalIsPlan(s);
    ValidAfterPublish(s, q);
    TransactionsNamed(s);
    var plan := s.records[q].plan;
    PublishMoves(s, q);
    KeptAfterMove(s, s', plan, s'.At(PARENT), s'.At(plan.transaction), x);
  }

  /** The exchange puts each of the two generations where the other was. */
  lemma PublishMoves(s: Fs, q: Id)
    requires Good(s) && Enabled(s, Publish(q))
    ensures IsPlan(s, q)
    ensures var plan := s.records[q].plan;
      && plan.transaction in s.directories && plan.transaction != PARENT
      && Names(s.At(PARENT), Transaction(plan.tag), plan.transaction)
      && var t, t' := s.At(plan.transaction), Do(s, Publish(q)).At(plan.transaction);
      && Names(t, New, plan.after.identity) && Previous !in t
      && (Destination in s.At(PARENT) ==> Names(t', New, s.At(PARENT)[Destination]))
  {
    hide Judge, Faithful, Durable, Known, ParentKept;
    JournalIsPlan(s);
    PlansHaveDirectories(s);
    var plan := s.records[q].plan;
    PairedLast(s.directories[PARENT], s.directories[plan.transaction]);
    assert Legal(q, plan, s.At(PARENT), s.At(plan.transaction));
  }

  lemma KeptAfterMove(s: Fs, s': Fs, plan: Plan, view: View, other: View, x: Id)
    requires s.Valid() && Kept(s, x)
    requires plan.transaction in s.directories && plan.transaction != PARENT
    requires s'.directories == s.WriteBoth(PARENT, view, plan.transaction, other).directories
    requires view == s.At(PARENT)[Destination := plan.after.identity]
    requires Names(s.At(PARENT), Transaction(plan.tag), plan.transaction)
    requires Names(s.At(plan.transaction), New, plan.after.identity) && Previous !in s.At(plan.transaction)
    requires Destination in s.At(PARENT) ==> Names(other, New, s.At(PARENT)[Destination])
    ensures Kept(s', x)
  {
    hide Held, Versions, RenamesWhole;
    ValidIsStamped(s);
    var d := plan.transaction;
    var ds, ds' := s.directories, s'.directories;
    assert ds' == Renamed(ds, s.clock, view, d, other);
    forall cut | Surviving(ds', cut) ensures Held(Picture(ds', cut), x) {
      var c := CutBeforeRename(ds, s.clock, view, d, other, cut);
      assert Held(Picture(ds, c), x);
      if Picture(ds', cut) != Picture(ds, c) {
        PictureHas(ds, c, d);
        HeldAfterMove(Picture(ds, c), plan, view, other, x);
      }
    }
  }

  lemma HeldAfterMove(picture: map<Id, View>, plan: Plan, view: View, other: View, x: Id)
    requires Held(picture, x)
    requires plan.transaction in picture && plan.transaction != PARENT
    requires view == picture[PARENT][Destination := plan.after.identity]
    requires Names(picture[PARENT], Transaction(plan.tag), plan.transaction)
    requires Names(picture[plan.transaction], New, plan.after.identity) && Previous !in picture[plan.transaction]
    requires Destination in picture[PARENT] ==> Names(other, New, picture[PARENT][Destination])
    ensures Held(picture[PARENT := view][plan.transaction := other], x)
  {
    var d, p := plan.transaction, picture[PARENT];
    var after := picture[PARENT := view][d := other];
    assert Names(view, Transaction(plan.tag), d);
    if Names(p, Destination, x) {
      assert Shelved(view, d, after[d], x);
    } else {
      var e :| e in picture && e != PARENT && Shelved(p, e, picture[e], x);
      if e != d {
        var tag: nat :| Names(p, Transaction(tag), e);
        assert Names(view, Transaction(tag), e);
        assert Shelved(view, e, after[e], x);
      }
    }
  }

  /** No step, of anybody, makes a kept generation losable. */
  lemma StepKeepsKept(s: Fs, a: Action, x: Id)
    requires Good(s) && Enabled(s, a) && Kept(s, x)
    ensures Do(s, a).Valid() && Kept(Do(s, a), x)
  {
    hide Judge, Faithful, Durable, Known, Legal, ParentKept, PlanKept, Swapped, Staged, Retired, AtOld, Settled,
         Private, Staging, KeptIn;
    StepKeepsGood(s, a);
    if a.SyncDirectory? { KeptAfterSync(s, a.d, x); }
    else if a.LosePower? { KeptAfterLoss(s, a.cut, a.left, x); }
    else if a.Publish? { KeptAfterPublish(s, a.q, x); }
    else if a.MakeTransaction? { KeptAfterMkdir(s, a.tag, x); }
    else if WritesParent(a) {
      ParentAfterWrite(s, a);
      ParentViewKeeps(s, a);
      OnlyParent(s, a);
      KeptAfterWrite(s, Do(s, a), PARENT, ParentView(s, a), x);
    } else if a.StageTree? || a.WritePlan? || a.WriteCompletion? || a.RetireOld? {
      var d, v := OtherWriteOf(s, a);
      KeptAfterWrite(s, Do(s, a), d, v, x);
    } else {
      assert Do(s, a).directories == s.directories;
    }
  }

  lemma KeptAfterMkdir(s: Fs, tag: nat, x: Id)
    requires Good(s) && Enabled(s, MakeTransaction(tag)) && Kept(s, x)
    ensures Kept(Do(s, MakeTransaction(tag)), x)
  {
    hide Judge, Faithful, Durable, Known, Legal, ParentKept, PlanKept, KeptIn;
    var view := s.At(PARENT)[Transaction(tag) := s.nextId];
    var s1 := s.Write(PARENT, view);
    KeptAfterWrite(s, s1, PARENT, view, x);
    KeptAfterNewDirectory(s1.directories, s.nextId, Directory([Revision(s.clock + 1, map[])], 0), x);
  }

  lemma OnlyParent(s: Fs, a: Action)
    requires Good(s) && Enabled(s, a) && WritesParent(a) && !a.MakeTransaction?
    ensures Do(s, a).directories == s.Write(PARENT, ParentView(s, a)).directories
  {
    hide Good, Judge, Faithful, Durable, Known, Legal, AtOld, Settled;
  }

  lemma OtherWriteOf(s: Fs, a: Action) returns (d: Id, v: View)
    requires Good(s) && Enabled(s, a)
    requires a.StageTree? || a.WritePlan? || a.WriteCompletion? || a.RetireOld?
    ensures d in s.directories && d != PARENT
    ensures Do(s, a).directories == s.Write(d, v).directories
    ensures Gentle(d, s.At(d), v)
  {
    if a.RetireOld? {
      d, v := RetirementOf(s, a.q);
    } else {
      GoodIsValid(s);
      hide Good, Judge, Faithful, Durable, Known, Private, Fs.Numbered;
      match a
      case StageTree(t, _) => d, v := t, s.At(t)[New := s.nextId];
      case WritePlan(t, _) => d, v := t, s.At(t)[PlanFile := s.nextId];
      case WriteCompletion(t, _) => d, v := t, s.At(t)[CompletedFile := s.nextId];
    }
  }

  lemma RetirementOf(s: Fs, q: Id) returns (d: Id, v: View)
    requires Good(s) && Enabled(s, RetireOld(q))
    ensures d in s.directories && d != PARENT
    ensures Do(s, RetireOld(q)).directories == s.Write(d, v).directories
    ensures Gentle(d, s.At(d), v)
  {
    PlansHaveDirectories(s);
    JournalIsPlan(s);
    GoodIsValid(s);
    hide Good, Judge, Faithful, Durable, Known, Legal, PlanKept, Fs.Numbered;
    d := s.records[q].plan.transaction;
    v := (s.At(d) - {New})[Previous := s.At(d)[New]];
  }

  /** Conservation over runs: what no power loss could lose once, no power loss can lose ever after. */
  lemma {:induction false} KeptForever(run: seq<Fs>, i: nat, k: nat, x: Id)
    requires IsRun(run) && i <= k < |run|
    requires run[i].Valid() && Kept(run[i], x)
    ensures run[k].Valid() && Kept(run[k], x)
  {
    hide Kept, Enabled, Do, Good;
    RunsStayGood(run, k);
    if k > i {
      KeptForever(run, i, k - 1, x);
      assert Step(run[k - 1], run[k]);
      var a :| Enabled(run[k - 1], a) && run[k] == Do(run[k - 1], a);
      StepKeepsKept(run[k - 1], a, x);
    }
    GoodIsValid(run[k]);
  }

  /** A durably staged generation is kept from the moment its plan is written. */
  lemma StagedIsKept(s: Fs, t: Id, plan: Plan)
    requires Good(s) && Enabled(s, WritePlan(t, plan))
    ensures Kept(s, plan.after.identity)
  {
    GoodIsValid(s);
    hide Good, Judge, Faithful, Durable, Known, Private, Fs.Numbered, Held, Versions, RenamesWhole;
    forall cut | Surviving(s.directories, cut) ensures Held(Picture(s.directories, cut), plan.after.identity) {
      ShelvedWhenSynced(s.directories, cut, t, plan.tag, plan.after.identity);
    }
  }

  /** A durable entry of a durably named directory is held in every cut. */
  lemma ShelvedWhenSynced(ds: map<Id, Directory>, cut: map<Id, nat>, t: Id, tag: nat, x: Id)
    requires Surviving(ds, cut) && PARENT in ds && t in ds && t != PARENT
    requires ds[t].revisions != [] && ds[t].synced == ds[t].Last() && Names(ds[t].Current(), New, x)
    requires forall i :: ds[PARENT].synced <= i < |ds[PARENT].revisions| ==>
      Names(ds[PARENT].revisions[i].view, Transaction(tag), t)
    ensures Held(Picture(ds, cut), x)
  {
    hide RenamesWhole;
    var picture := Picture(ds, cut);
    assert Names(picture[PARENT], Transaction(tag), t);
    assert picture[t] == ds[t].Current();
    assert Shelved(picture[PARENT], t, picture[t], x);
  }

  /** An installation whose directory entry is on disk is kept. */
  lemma InstalledIsKept(s: Fs)
    requires s.Valid() && s.Synced(PARENT) && Destination in s.At(PARENT)
    ensures Kept(s, s.At(PARENT)[Destination])
  {
    hide Held, Versions, RenamesWhole, Fs.Numbered;
    forall cut | Surviving(s.directories, cut) ensures Held(Picture(s.directories, cut), s.At(PARENT)[Destination]) {
      HeldWhenSynced(s.directories, cut, s.At(PARENT)[Destination]);
    }
  }

  lemma HeldWhenSynced(ds: map<Id, Directory>, cut: map<Id, nat>, x: Id)
    requires Versions(ds, cut) && PARENT in ds
    requires ds[PARENT].revisions != [] && ds[PARENT].synced == ds[PARENT].Last()
    requires Names(ds[PARENT].Current(), Destination, x)
    ensures Held(Picture(ds, cut), x)
  {
    PictureAt(ds, cut, PARENT);
    hide Picture;
  }

  /** The contents of a tree the installer is not itself staging are never changed by the installer. */
  lemma ContentsAreOthers(s: Fs, a: Action, g: Id)
    requires Good(s) && Enabled(s, a) && !a.Edit? && !a.LosePower?
    requires g in s.trees && !Private(s, g)
    ensures g in Do(s, a).trees && Do(s, a).trees[g] == s.trees[g]
  {
    hide Good, Judge, Faithful, Durable, Known, Legal, AtOld, Settled, Staging;
    assert g < s.nextId by { GoodIsValid(s); }
  }

  // Contents

  predicate Concerns(plan: Plan, g: Id) {
    plan.after.identity == g || (plan.before.Some? && plan.before.value.identity == g)
  }

  /**
   A generation the installer has let out of its hands: a durable plan speaks of it, or it is installed whatever
   survives.
   */
  ghost predicate Public(s: Fs, g: Id)
    requires s.Valid()
  {
    || (exists q: Id :: IsPlan(s, q) && q !in s.unsettled && Concerns(s.records[q].plan, g))
    || InPlace(s, g)
  }

  ghost predicate InPlace(s: Fs, g: Id)
    requires s.Valid()
  {
    forall i :: s.directories[PARENT].synced <= i < |s.directories[PARENT].revisions| ==>
      Names(s.directories[PARENT].revisions[i].view, Destination, g)
  }

  lemma PublicIsNotPrivate(s: Fs, g: Id)
    requires s.Valid() && Public(s, g)
    ensures !Private(s, g)
  {
    hide Fs.Numbered;
    if InPlace(s, g) {
      assert Names(s.directories[PARENT].revisions[s.directories[PARENT].Last()].view, Destination, g);
    }
  }

  lemma PublicExists(s: Fs, g: Id)
    requires Good(s) && Public(s, g)
    ensures g in s.trees
  {
    hide Judge, Shapes, Fs.Numbered;
    if InPlace(s, g) {
      assert ParentKept(s, s.directories[PARENT].revisions[s.directories[PARENT].Last()].view);
    } else {
      var q: Id :| IsPlan(s, q) && q !in s.unsettled && Concerns(s.records[q].plan, g);
      assert PlanKept(s, q);
    }
  }

  /** What is replaced is what the durable journal calls `before`. */
  lemma PublishReplacesPlanned(s: Fs, q: Id, g: Id)
    requires Good(s) && Enabled(s, Publish(q)) && Names(s.At(PARENT), Destination, g)
    ensures IsPlan(s, q) && q !in s.unsettled && Concerns(s.records[q].plan, g)
  {
    JournalIsPlan(s);
    hide Good, Judge, Faithful, Durable, Known, Legal;
  }

  lemma StaysInPlace(s: Fs, a: Action, g: Id)
    requires Good(s) && Enabled(s, a) && !a.Publish? && InPlace(s, g)
    ensures Do(s, a).Valid() && InPlace(Do(s, a), g)
  {
    hide Enabled, Do, Judge, Faithful, Durable, Known, Legal, ParentKept, PlanKept, Fs.Numbered;
    StepKeepsGood(s, a);
    var p, p' := s.directories[PARENT], Do(s, a).directories[PARENT];
    assert p.revisions[p.Last()].view == s.At(PARENT);
    if WritesParent(a) {
      ParentAfterWrite(s, a);
      ParentViewKeeps(s, a);
    } else {
      OnlyWritersAppend(s, a);
    }
  }

  lemma StepKeepsPublic(s: Fs, a: Action, g: Id)
    requires Good(s) && Enabled(s, a) && Public(s, g)
    ensures Do(s, a).Valid() && Public(Do(s, a), g)
  {
    hide Enabled, Do, Good, InPlace, Fs.Numbered;
    GoodIsValid(s);
    StepKeepsGood(s, a);
    GoodIsValid(Do(s, a));
    SettledPlansStay(s, a);
    var s' := Do(s, a);
    if a.Publish? && InPlace(s, g) {
      InPlaceNow(s, g);
      PublishReplacesPlanned(s, a.q, g);
    }
    if q: Id :| IsPlan(s, q) && q !in s.unsettled && Concerns(s.records[q].plan, g) {
      assert IsPlan(s', q) && q !in s'.unsettled && Concerns(s'.records[q].plan, g);
    } else {
      StaysInPlace(s, a, g);
    }
  }

  lemma InPlaceNow(s: Fs, g: Id)
    requires s.Valid() && InPlace(s, g)
    ensures Names(s.At(PARENT), Destination, g)
  {
  }

  /** A public generation stays public, whatever happens. */
  lemma {:induction false} PublicForever(run: seq<Fs>, i: nat, k: nat, g: Id)
    requires IsRun(run) && i <= k < |run|
    requires run[i].Valid() && Public(run[i], g)
    ensures run[k].Valid() && Public(run[k], g)
  {
    hide Public, Enabled, Do, Good;
    RunsStayGood(run, k);
    if k > i {
      PublicForever(run, i, k - 1, g);
      assert Step(run[k - 1], run[k]);
      var a :| Enabled(run[k - 1], a) && run[k] == Do(run[k - 1], a);
      StepKeepsPublic(run[k - 1], a, g);
    }
    GoodIsValid(run[k]);
  }

  /**
   No edit is ever overwritten: over any run, from the moment a generation is installed or
   planned, only its editors change it, or a power loss what was not yet on disk.
   */
  lemma OnlyOthersChangeIt(run: seq<Fs>, i: nat, k: nat, g: Id, a: Action)
    requires IsRun(run) && i <= k < |run| - 1
    requires run[i].Valid() && Public(run[i], g)
    requires Good(run[k]) && Enabled(run[k], a) && run[k + 1] == Do(run[k], a)
    ensures g in run[k].trees && g in run[k + 1].trees
    ensures run[k + 1].trees[g] != run[k].trees[g] ==>
      (a.Edit? && g in a.edits) || (a.LosePower? && g in run[k].unsettled)
  {
    hide Public, Private, Enabled, Do, Good, IsRun, Judge;
    PublicForever(run, i, k, g);
    PublicIsNotPrivate(run[k], g);
    PublicExists(run[k], g);
    if a.Edit? || a.LosePower? {
      OthersChange(run[k], a, g);
    } else {
      ContentsAreOthers(run[k], a, g);
    }
  }

  lemma OthersChange(s: Fs, a: Action, g: Id)
    requires Good(s) && Enabled(s, a) && (a.Edit? || a.LosePower?) && g in s.trees
    ensures g in Do(s, a).trees
    ensures Do(s, a).trees[g] != s.trees[g] ==> (a.Edit? && g in a.edits) || (a.LosePower? && g in s.unsettled)
  {
    hide Good, Judge, Surviving;
  }
}
