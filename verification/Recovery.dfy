/**
 The write-ahead protocol of scripts/install-panel.py: what a journal promises in every
 state a power loss could leave, and the steps installers, editors and crashes may take.
 */
module Recovery {
  import opened Wrappers
  import opened Ownership
  import opened Disk

  ghost predicate IsPlan(s: Fs, q: Id) {
    q in s.records && s.records[q].PlanRecord?
  }

  ghost predicate Names(v: View, n: Name, x: Id) {
    n in v && v[n] == x
  }

  // The shapes of a transaction; p and t are the contents of the parent and of the
  // transaction directory that survive together.

  ghost predicate Staged(plan: Plan, p: View, t: View) {
    && Names(t, New, plan.after.identity) && Previous !in t
    && !Names(p, Destination, plan.after.identity)
  }

  ghost predicate Swapped(plan: Plan, p: View, t: View) {
    && plan.before.Some?
    && Names(t, New, plan.before.value.identity) && Previous !in t
    && Names(p, Destination, plan.after.identity)
  }

  ghost predicate Retired(plan: Plan, t: View) {
    && New !in t
    && (if plan.before.Some? then Names(t, Previous, plan.before.value.identity) else Previous !in t)
  }

  ghost predicate AtOld(plan: Plan, p: View) {
    if plan.before.Some? then Names(p, Destination, plan.before.value.identity) else Destination !in p
  }

  ghost predicate Legal(q: Id, plan: Plan, p: View, t: View) {
    if Names(p, Journal, q) then
      || (Staged(plan, p, t) && AtOld(plan, p))
      || Swapped(plan, p, t)
      || (Retired(plan, t) && Names(p, Destination, plan.after.identity))
    else
      Staged(plan, p, t) || Retired(plan, t)
  }

  ghost predicate Faithful(s: Fs, snap: Snapshot) {
    && snap.identity in s.trees
    && (snap.identity !in s.unsettled + s.edited ==> Judge(snap.identity, s.trees[snap.identity]) == Ok(snap))
  }

  /** What was captured of a tree still describes it; only an editor can have changed that. */
  ghost predicate Known(s: Fs, snap: Snapshot) {
    && snap.identity in s.trees
    && (snap.identity !in s.edited ==> Judge(snap.identity, s.trees[snap.identity]) == Ok(snap))
  }

  /** What the plan says is staged is on disk; only an editor can have changed that. */
  ghost predicate Durable(s: Fs, snap: Snapshot) {
    && snap.identity in s.trees
    && (snap.identity !in s.edited ==>
          snap.identity !in s.unsettled && Judge(snap.identity, s.trees[snap.identity]) == Ok(snap))
  }

  ghost predicate Shapes(q: Id, plan: Plan, p: Directory, t: Directory) {
    forall i: nat, j: nat :: Paired(p, t, i, j) ==> Legal(q, plan, p.revisions[i].view, t.revisions[j].view)
  }

  ghost predicate PlanKept(s: Fs, q: Id)
    requires s.Valid() && IsPlan(s, q)
  {
    var plan := s.records[q].plan;
    var p := s.directories[PARENT];
    && plan.transaction in s.directories && plan.transaction != PARENT
    && Durable(s, plan.after)
    && (plan.before.Some? ==> Faithful(s, plan.before.value) && plan.before.value.identity != plan.after.identity)
    && (forall i :: p.synced <= i < |p.revisions| ==>
          Names(p.revisions[i].view, Transaction(plan.tag), plan.transaction))
    && Shapes(q, plan, p, s.directories[plan.transaction])
  }

  ghost predicate Separate(a: Plan, b: Plan) {
    a.transaction != b.transaction && a.after.identity != b.after.identity
  }

  ghost predicate ParentKept(s: Fs, v: View) {
    && (Destination in v ==> v[Destination] in s.trees)
    && (Journal in v ==> IsPlan(s, v[Journal]) && v[Journal] !in s.unsettled)
    && (RestartIntent in v ==> v[RestartIntent] in s.records && v[RestartIntent] !in s.unsettled
                               && s.records[v[RestartIntent]] == IntentRecord)
    && (s.shell == Stopped ==> RestartIntent in v)
  }

  /** The invariant of every run: it speaks of all states a power loss could leave now. */
  ghost predicate Good(s: Fs) {
    && s.Valid()
    && (forall q :: IsPlan(s, q) ==> PlanKept(s, q))
    && (forall q, r :: IsPlan(s, q) && IsPlan(s, r) && q != r ==> Separate(s.records[q].plan, s.records[r].plan))
    && (forall i :: s.directories[PARENT].synced <= i < |s.directories[PARENT].revisions| ==>
          ParentKept(s, s.directories[PARENT].revisions[i].view))
  }

  datatype Action =
    // the installer
    | SyncDirectory(d: Id)
    | MakeTransaction(tag: nat)
    | StageTree(t: Id, tree: Tree)
    | WriteStaged(g: Id, tree: Tree)
    | SyncTree(g: Id)
    | WritePlan(t: Id, plan: Plan)
    | WriteCompletion(t: Id, changed: bool)
    | SyncRecord(r: Id)
    | LinkJournal(q: Id)
    | Publish(q: Id)
    | RetireOld(q: Id)
    | UnlinkJournal(q: Id)
    | WriteIntent(tag: nat)
    | PublishIntent(tag: nat)
    | DropTemporary(tag: nat)
    | RemoveIntent
    | StopShell
    | StartShell
    // everybody else
    | Edit(edits: map<Id, Tree>)
    | LosePower(cut: map<Id, nat>, left: Fs)

  /** A tree nobody but the installer that is staging it knows about. */
  ghost predicate Private(s: Fs, g: Id)
    requires s.Valid()
  {
    && g in s.trees
    && (forall q :: IsPlan(s, q) ==>
          && s.records[q].plan.after.identity != g
          && (s.records[q].plan.before.Some? ==> s.records[q].plan.before.value.identity != g))
    && (forall i :: s.directories[PARENT].synced <= i < |s.directories[PARENT].revisions| ==>
          !Names(s.directories[PARENT].revisions[i].view, Destination, g))
  }

  /** A transaction directory no plan speaks of yet. */
  ghost predicate Unplanned(s: Fs, t: Id) {
    && t in s.directories && t != PARENT
    && forall q :: IsPlan(s, q) ==> s.records[q].plan.transaction != t
  }

  /** The plan describes what is durably staged. */
  ghost predicate Staging(s: Fs, t: Id, plan: Plan)
    requires s.Valid()
  {
    var p := s.directories[PARENT];
    && Unplanned(s, t) && plan.transaction == t
    && s.Synced(t)
    && Names(s.At(t), New, plan.after.identity) && Previous !in s.At(t)
    && Private(s, plan.after.identity)
    && Durable(s, plan.after)
    && (plan.before.Some? ==> Known(s, plan.before.value) && plan.before.value.identity != plan.after.identity)
    && (forall i :: p.synced <= i < |p.revisions| ==> Names(p.revisions[i].view, Transaction(plan.tag), t))
  }

  /** Nothing of plan q is half done in any state that has the newest parent contents. */
  ghost predicate Settled(s: Fs, q: Id)
    requires Good(s) && IsPlan(s, q)
  {
    var plan := s.records[q].plan;
    var p, t := s.directories[PARENT], s.directories[plan.transaction];
    || AtOld(plan, s.At(PARENT))
    || (s.Synced(plan.transaction) && Retired(plan, s.At(plan.transaction)))
  }

  /** When an action may be taken. */
  ghost predicate Enabled(s: Fs, a: Action)
    requires Good(s)
  {
    match a
    case SyncDirectory(d) => d in s.directories
    case MakeTransaction(tag) => Transaction(tag) !in s.At(PARENT)
    case StageTree(t, tree) => Unplanned(s, t) && New !in s.At(t)
    case WriteStaged(g, tree) => Private(s, g)
    case SyncTree(g) => Private(s, g)
    case WritePlan(t, plan) => Staging(s, t, plan) && PlanFile !in s.At(t)
    case WriteCompletion(t, changed) => t in s.directories && t != PARENT && CompletedFile !in s.At(t)
    case SyncRecord(r) => r in s.records
    case LinkJournal(q) =>
      && IsPlan(s, q) && q !in s.unsettled
      && Journal !in s.At(PARENT)
      && AtOld(s.records[q].plan, s.At(PARENT))
      && s.Synced(s.records[q].plan.transaction)
      && Names(s.At(s.records[q].plan.transaction), New, s.records[q].plan.after.identity)
    case Publish(q) =>
      && Names(s.At(PARENT), Journal, q)
      && AtOld(s.records[q].plan, s.At(PARENT))
      && Names(s.At(s.records[q].plan.transaction), New, s.records[q].plan.after.identity)
    case RetireOld(q) =>
      && Names(s.At(PARENT), Journal, q)
      && s.Synced(PARENT)
      && s.records[q].plan.before.Some?
      && Swapped(s.records[q].plan, s.At(PARENT), s.At(s.records[q].plan.transaction))
    case UnlinkJournal(q) => Names(s.At(PARENT), Journal, q) && Settled(s, q)
    case WriteIntent(tag) => Temporary(tag) !in s.At(PARENT)
    case PublishIntent(tag) =>
      && Temporary(tag) in s.At(PARENT) && RestartIntent !in s.At(PARENT)
      && var r := s.At(PARENT)[Temporary(tag)];
         r in s.records && r !in s.unsettled && s.records[r] == IntentRecord
    case DropTemporary(tag) => Temporary(tag) in s.At(PARENT)
    case RemoveIntent => RestartIntent in s.At(PARENT) && s.shell == Running
    case StopShell => RestartIntent in s.At(PARENT) && s.Synced(PARENT)
    case StartShell => true
    case Edit(edits) => edits.Keys <= s.trees.Keys
    case LosePower(cut, left) => s.Survives(cut) && s.PowerLoss(cut, left)
  }

  /** What an action does. */
  ghost function Do(s: Fs, a: Action): Fs
    requires Good(s) && Enabled(s, a)
  {
    match a
    case SyncDirectory(d) => s.Sync(d)
    case MakeTransaction(tag) => s.MakeDirectory(Transaction(tag))
    case StageTree(t, tree) => s.MakeTree(t, New, tree)
    case WriteStaged(g, tree) => s.Rewrite(g, tree)
    case SyncTree(g) => s.Settle(g)
    case WritePlan(t, plan) => s.MakeRecord(t, PlanFile, PlanRecord(plan))
    case WriteCompletion(t, changed) => s.MakeRecord(t, CompletedFile, CompletionNote(changed))
    case SyncRecord(r) => s.Settle(r)
    case LinkJournal(q) => s.Link(PARENT, Journal, q)
    case Publish(q) =>
      s.RenameUp(s.records[q].plan.transaction, New, Destination, s.records[q].plan.before.Some?)
      .(unguarded := s.unguarded + if s.shell == Running then 1 else 0)
    case RetireOld(q) => s.RenameWithin(s.records[q].plan.transaction, New, Previous)
    case UnlinkJournal(q) => s.Unlink(PARENT, Journal)
    case WriteIntent(tag) => s.MakeRecord(PARENT, Temporary(tag), IntentRecord)
    case PublishIntent(tag) => s.RenameWithin(PARENT, Temporary(tag), RestartIntent)
    case DropTemporary(tag) => s.Unlink(PARENT, Temporary(tag))
    case RemoveIntent => s.Unlink(PARENT, RestartIntent)
    case StopShell => s.(shell := Stopped, kills := s.kills + 1)
    case StartShell => s.(shell := Running)
    case Edit(edits) => s.Touch(edits)
    case LosePower(cut, left) => left
  }

  // How the pairs of surviving versions change when a directory grows, is synced or is cut.

  lemma PairedParentGrew(p: Directory, t: Directory, clock: nat, view: View, i: nat, j: nat)
    requires p.revisions != [] && p.synced < |p.revisions|
    requires forall b :: 0 <= b < |t.revisions| ==> t.revisions[b].stamp < clock
    requires Paired(p.Append(clock, view), t, i, j)
    ensures i < |p.revisions| ==> Paired(p, t, i, j)
    ensures i == |p.revisions| ==> Paired(p, t, p.Last(), j)
  {
    var p' := p.Append(clock, view);
    assert forall a :: 0 <= a < |p.revisions| ==> p'.revisions[a] == p.revisions[a];
  }

  lemma PairedOtherGrew(p: Directory, t: Directory, clock: nat, view: View, i: nat, j: nat)
    requires t.revisions != [] && t.synced < |t.revisions|
    requires forall a :: 0 <= a < |p.revisions| ==> p.revisions[a].stamp < clock
    requires Paired(p, t.Append(clock, view), i, j)
    ensures j < |t.revisions| ==> Paired(p, t, i, j)
    ensures j == |t.revisions| ==> Paired(p, t, i, t.Last())
  {
    var t' := t.Append(clock, view);
    assert forall b :: 0 <= b < |t.revisions| ==> t'.revisions[b] == t.revisions[b];
  }

  lemma PairedBothGrew(p: Directory, t: Directory, clock: nat, view: View, other: View, i: nat, j: nat)
    requires p.revisions != [] && p.synced < |p.revisions|
    requires t.revisions != [] && t.synced < |t.revisions|
    requires Paired(p.Append(clock, view), t.Append(clock, other), i, j)
    ensures i == |p.revisions| <==> j == |t.revisions|
    ensures i < |p.revisions| ==> Paired(p, t, i, j)
  {
    var p', t' := p.Append(clock, view), t.Append(clock, other);
    assert forall a :: 0 <= a < |p.revisions| ==> p'.revisions[a] == p.revisions[a];
    assert forall b :: 0 <= b < |t.revisions| ==> t'.revisions[b] == t.revisions[b];
    assert p'.revisions[|p.revisions|].stamp == t'.revisions[|t.revisions|].stamp;
  }

  lemma PairedLast(p: Directory, t: Directory)
    requires p.synced < |p.revisions| && t.synced < |t.revisions|
    ensures Paired(p, t, p.Last(), t.Last())
  {
  }

  lemma PairedCut(p: Directory, t: Directory, i: nat, j: nat, k: nat, l: nat)
    requires Paired(p, t, i, j)
    requires Paired(p.Cut(i), t.Cut(j), k, l)
    ensures k == i && l == j
  {
  }
}
