/**
 The file system as scripts/install-panel.py sees it: directories, whole
 generations (plugin trees) and small journal records, with what a power loss may
 undo.

 A directory keeps every version of its contents, in order.  Versions up to
 `synced` are on disk.  A power loss keeps a prefix of each directory's versions;
 the two halves of a rename between directories carry the same stamp, and survive
 together or not at all.  A process death keeps everything.
 */
module Disk {
  import opened Wrappers
  import opened Ownership

  datatype Name =
    | Destination | Journal | RestartIntent
    | Transaction(tag: nat) | Temporary(tag: nat)
    | New | Previous | PlanFile | CompletedFile

  type View = map<Name, Id>

  datatype Revision = Revision(stamp: nat, view: View)

  datatype Directory = Directory(revisions: seq<Revision>, synced: nat) {

    ghost predicate Valid(clock: nat, nextId: Id) {
      && synced < |revisions|
      && (forall i :: 0 <= i < |revisions| ==> revisions[i].stamp < clock)
      && (forall i, n :: 0 <= i < |revisions| && n in revisions[i].view ==> revisions[i].view[n] < nextId)
    }

    function Last(): (i: nat)
      requires revisions != []
    {
      |revisions| - 1
    }

    /** The contents a running process sees. */
    function Current(): (v: View)
      requires revisions != []
    {
      revisions[Last()].view
    }

    function Append(stamp: nat, view: View): Directory {
      this.(revisions := revisions + [Revision(stamp, view)])
    }

    function Flush(): Directory
      requires revisions != []
    {
      this.(synced := Last())
    }

    /** What is left after a power loss that kept versions 0..i. */
    function Cut(i: nat): Directory
      requires i < |revisions|
    {
      Directory(revisions[..i + 1], i)
    }
  }

  /** The journal: everything recovery is allowed to rely on. */
  datatype Plan = Plan(tag: nat, transaction: Id, before: Option<Snapshot>, after: Snapshot)

  datatype Record = PlanRecord(plan: Plan) | CompletionNote(changed: bool) | IntentRecord | Torn

  datatype Shell = Running | Stopped

  /** The parent directory of the destination. */
  const PARENT: Id := 0

  /**
   `unsettled` holds the trees and records whose contents are not known to be on
   disk; `edited` the trees somebody who is not the installer has changed.
   `kills` and `unguarded` only count: shell stops, and publications made while
   the shell was running.
   */
  datatype Fs = Fs(
    directories: map<Id, Directory>,
    trees: map<Id, Tree>,
    records: map<Id, Record>,
    unsettled: set<Id>,
    edited: set<Id>,
    clock: nat,
    nextId: Id,
    shell: Shell,
    kills: nat,
    unguarded: nat)
  {
    ghost predicate Valid() {
      Readable() && Numbered()
    }

    /** Every directory has contents. */
    ghost predicate Readable() {
      && PARENT in directories
      && forall d :: d in directories ==> directories[d].synced < |directories[d].revisions|
    }

    /** Identities and stamps in use are below the next ones, and identities of different things differ. */
    ghost predicate Numbered() {
      && (forall d :: d in directories ==> d < nextId && directories[d].Valid(clock, nextId))
      && (forall t :: t in trees ==> t < nextId && t !in directories && t !in records)
      && (forall r :: r in records ==> r < nextId && r !in directories)
      && unsettled <= trees.Keys + records.Keys
      && edited <= trees.Keys
    }

    function At(d: Id): (v: View)
      requires d in directories && directories[d].revisions != []
    {
      directories[d].Current()
    }

    /** Directory d is wholly on disk. */
    predicate Synced(d: Id)
      requires d in directories && directories[d].revisions != []
    {
      directories[d].synced == directories[d].Last()
    }

    /** One atomic change to the entries of directory d. */
    function Write(d: Id, view: View): Fs
      requires d in directories
    {
      this.(directories := directories[d := directories[d].Append(clock, view)], clock := clock + 1)
    }

    /** One atomic change to the entries of two directories. */
    function WriteBoth(d: Id, view: View, e: Id, other: View): Fs
      requires d in directories && e in directories && d != e
    {
      this.(directories := directories[d := directories[d].Append(clock, view)]
                                      [e := directories[e].Append(clock, other)],
            clock := clock + 1)
    }

    /** fsync of a directory. */
    function Sync(d: Id): Fs
      requires d in directories && directories[d].revisions != []
    {
      this.(directories := directories[d := directories[d].Flush()])
    }

    /** link(2): a second name for x. */
    function Link(d: Id, name: Name, x: Id): Fs
      requires d in directories && directories[d].revisions != []
    {
      Write(d, At(d)[name := x])
    }

    function Unlink(d: Id, name: Name): Fs
      requires d in directories && directories[d].revisions != []
    {
      Write(d, At(d) - {name})
    }

    /** renameat2 with RENAME_NOREPLACE, inside one directory. */
    function RenameWithin(d: Id, from: Name, to: Name): Fs
      requires d in directories && directories[d].revisions != []
      requires from in At(d) && to !in At(d)
    {
      Write(d, (At(d) - {from})[to := At(d)[from]])
    }

    /** renameat2 of `from` in directory d onto `to` in the parent: RENAME_EXCHANGE or RENAME_NOREPLACE. */
    function RenameUp(d: Id, from: Name, to: Name, exchange: bool): Fs
      requires PARENT in directories && directories[PARENT].revisions != []
      requires d in directories && directories[d].revisions != [] && d != PARENT
      requires from in At(d) && (exchange <==> to in At(PARENT))
    {
      WriteBoth(PARENT, At(PARENT)[to := At(d)[from]],
                d, if exchange then At(d)[from := At(PARENT)[to]] else At(d) - {from})
    }

    /** mkdir: a new empty directory, entered under `name` in the parent. */
    function MakeDirectory(name: Name): Fs
      requires PARENT in directories && directories[PARENT].revisions != []
    {
      Write(PARENT, At(PARENT)[name := nextId])
      .(directories := Write(PARENT, At(PARENT)[name := nextId])
                       .directories[nextId := Directory([Revision(clock + 1, map[])], 0)],
        clock := clock + 2, nextId := nextId + 1)
    }

    /** A new, empty tree under `name` in directory d; nothing of it is on disk. */
    function MakeTree(d: Id, name: Name, tree: Tree): Fs
      requires d in directories && directories[d].revisions != []
    {
      Write(d, At(d)[name := nextId])
      .(trees := trees[nextId := tree], unsettled := unsettled + {nextId}, nextId := nextId + 1)
    }

    /** A new record under `name` in directory d; its contents are not on disk. */
    function MakeRecord(d: Id, name: Name, record: Record): Fs
      requires d in directories && directories[d].revisions != []
    {
      Write(d, At(d)[name := nextId])
      .(records := records[nextId := record], unsettled := unsettled + {nextId}, nextId := nextId + 1)
    }

    /** Somebody changes trees in place, without telling anybody. */
    function Touch(edits: map<Id, Tree>): Fs {
      this.(trees := trees + edits, unsettled := unsettled + edits.Keys, edited := edited + edits.Keys)
    }

    /** Writes by the installer into a tree it is staging. */
    function Rewrite(t: Id, tree: Tree): Fs {
      this.(trees := trees[t := tree], unsettled := unsettled + {t})
    }

    /** fsync of the contents of a tree or a record. */
    function Settle(x: Id): Fs {
      this.(unsettled := unsettled - {x})
    }

    ghost predicate Survives(cut: map<Id, nat>) {
      Surviving(directories, cut)
    }

    /** The state after a power loss; unsettled contents may be anything, or torn. */
    ghost predicate PowerLoss(cut: map<Id, nat>, left: Fs)
      requires Survives(cut)
    {
      && left == this.(directories := left.directories, trees := left.trees,
                       records := left.records, shell := Running)
      && left.directories == (map d | d in directories :: directories[d].Cut(cut[d]))
      && left.trees.Keys == trees.Keys
      && (forall t :: t in trees && t !in unsettled ==> left.trees[t] == trees[t])
      && left.records.Keys == records.Keys
      && (forall r :: r in records ==>
            left.records[r] == records[r] || (r in unsettled && left.records[r] == Torn))
    }
  }

  /** Versions i of p and j of t can survive the same power loss. */
  ghost predicate Paired(p: Directory, t: Directory, i: nat, j: nat) {
    && p.synced <= i < |p.revisions|
    && t.synced <= j < |t.revisions|
    && (forall a, b :: 0 <= a < |p.revisions| && 0 <= b < |t.revisions| ==>
          p.revisions[a].stamp == t.revisions[b].stamp ==> (a <= i <==> b <= j))
  }

  /** Some version of every directory, none older than what is on disk. */
  ghost predicate Versions(directories: map<Id, Directory>, cut: map<Id, nat>) {
    && cut.Keys == directories.Keys
    && (forall d :: d in directories ==> directories[d].synced <= cut[d] < |directories[d].revisions|)
  }

  /** No rename between directories is half undone. */
  ghost predicate RenamesWhole(directories: map<Id, Directory>, cut: map<Id, nat>)
    requires Versions(directories, cut)
  {
    forall d, e :: d in directories && e in directories && d != e ==>
      Paired(directories[d], directories[e], cut[d], cut[e])
  }

  /** One version per directory that a power loss can leave behind. */
  ghost predicate Surviving(directories: map<Id, Directory>, cut: map<Id, nat>) {
    Versions(directories, cut) && RenamesWhole(directories, cut)
  }

  // Every operation keeps identities and stamps in order.

  lemma WriteValid(s: Fs, d: Id, view: View, nextId: Id)
    requires s.Valid() && d in s.directories && nextId >= s.nextId
    requires forall n :: n in view ==> view[n] < nextId
    ensures s.Write(d, view).(nextId := nextId).Valid()
  {
  }

  lemma MakeRecordValid(s: Fs, d: Id, name: Name, record: Record)
    requires s.Valid() && d in s.directories
    ensures s.MakeRecord(d, name, record).Valid()
  {
    WriteValid(s, d, s.At(d)[name := s.nextId], s.nextId + 1);
  }

  lemma MakeTreeValid(s: Fs, d: Id, name: Name, tree: Tree)
    requires s.Valid() && d in s.directories
    ensures s.MakeTree(d, name, tree).Valid()
  {
    WriteValid(s, d, s.At(d)[name := s.nextId], s.nextId + 1);
  }

  lemma MakeDirectoryValid(s: Fs, name: Name)
    requires s.Valid()
    ensures s.MakeDirectory(name).Valid()
  {
    WriteValid(s, PARENT, s.At(PARENT)[name := s.nextId], s.nextId + 1);
  }

  lemma UnlinkValid(s: Fs, d: Id, name: Name)
    requires s.Valid() && d in s.directories
    ensures s.Unlink(d, name).Valid()
  {
    WriteValid(s, d, s.At(d) - {name}, s.nextId);
  }

  lemma RenameWithinValid(s: Fs, d: Id, from: Name, to: Name)
    requires s.Valid() && d in s.directories && from in s.At(d) && to !in s.At(d)
    ensures s.RenameWithin(d, from, to).Valid()
  {
    WriteValid(s, d, (s.At(d) - {from})[to := s.At(d)[from]], s.nextId);
  }

  lemma LinkValid(s: Fs, d: Id, name: Name, x: Id)
    requires s.Valid() && d in s.directories && x in s.records
    ensures s.Link(d, name, x).Valid()
  {
    WriteValid(s, d, s.At(d)[name := x], s.nextId);
  }

  lemma RenameUpValid(s: Fs, d: Id, from: Name, to: Name, exchange: bool)
    requires s.Valid() && d in s.directories && d != PARENT
    requires from in s.At(d) && (exchange <==> to in s.At(PARENT))
    ensures s.RenameUp(d, from, to, exchange).Valid()
  {
  }

  lemma SyncValid(s: Fs, d: Id)
    requires s.Valid() && d in s.directories
    ensures s.Sync(d).Valid()
  {
  }
}
