/**
 `finish_transaction`, `install_locked` and `replace_enabled` of scripts/install-panel.py.

 Every system call is one atomic change of `Machine.fs`, may fail, and may be followed by
 any edits by others.  The states passed through are recorded in `run`; the methods are
 proved to take only the steps of `Recovery`, so that what is proved of runs holds of them
 at every system call, and a process death is a run that stops there.
 */
module Installer {
  import opened Wrappers
  import opened Ownership
  import opened Packaging
  import opened Disk
  import opened Recovery
  import opened Preservation
  import opened Safety
  import opened Conservation
  import opened Frames

  class Machine {
    var fs: Fs
    /** The invocation owes the desktop a shell restart. */
    var restart: bool
    ghost var run: seq<Fs>
    /** Nobody else touches anything, the desktop is unlocked, and no system call or command fails. */
    const calm: bool
    /** What the desktop answers when it is asked whether it is locked. */
    const locked: bool
    /** The entries recovery relies on have only ever been changed by installers. */
    ghost const sound: bool

    ghost predicate Valid()
      reads this
    {
      && fs.Valid()
      && run != [] && run[|run| - 1] == fs
      && (sound ==> IsRun(run) && Good(fs))
      && (calm ==> !locked)
    }

    constructor (start: Fs, calm: bool, locked: bool, ghost sound: bool)
      requires start.Valid() && (sound ==> Good(start)) && (calm ==> !locked)
      ensures Valid() && fs == start && run == [start] && !restart
      ensures this.calm == calm && this.locked == locked && this.sound == sound
    {
      fs, restart, run := start, false, [start];
      this.calm, this.locked, this.sound := calm, locked, sound;
    }

    ghost method Note(before: Fs, a: Action)
      requires run != [] && run[|run| - 1] == before && fs.Valid() && (calm ==> !locked)
      requires sound ==> IsRun(run) && Good(before) && Enabled(before, a) && fs == Do(before, a)
      modifies this`run
      ensures Valid() && run == old(run) + [fs]
    {
      hide Good, Enabled, Do, IsRun, Fs.Numbered;
      if sound {
        StepKeepsGood(before, a);
        assert Step(before, fs);
        RunGrows(run, fs);
      }
      run := run + [fs];
    }

    /** Editors are not fenced by the lock. */
    method Interfere()
      requires Valid()
      modifies this`fs, this`run
      ensures Valid() && old(run) <= run && Drift(old(fs), fs, calm)
    {
      hide Good;
      if !calm {
        var edits: map<Id, Tree> := *;
        if edits.Keys <= fs.trees.Keys {
          ghost var before := fs;
          fs := fs.Touch(edits);
          Note(before, Edit(edits));
        }
      }
    }

    /** One system call: it takes effect whole, or fails without effect. */
    method Call(target: Fs, ghost a: Action) returns (r: Status<Error>)
      requires Valid() && target.Valid()
      requires sound ==> Enabled(fs, a) && target == Do(fs, a)
      modifies this`fs, this`run
      ensures Valid() && old(run) <= run
      ensures calm ==> r.Pass?
      ensures r.Pass? ==> Drift(target, fs, calm) && |old(run)| < |run| && run[|old(run)|] == target
      ensures r.Fail? ==> r.error == OsError && Drift(old(fs), fs, calm)
    {
      hide Good, Enabled, Do, IsRun, Fs.Numbered;
      var broken: bool := *;
      if broken && !calm {
        Interfere();
        return Fail(OsError);
      }
      ghost var before := fs;
      fs := target;
      Note(before, a);
      Interfere();
      r := Pass;
    }

    method Capture(id: Id) returns (r: Result<Snapshot, Error>)
      requires Valid()
      modifies this`fs, this`run
      ensures Valid() && old(run) <= run && Drift(old(fs), fs, calm)
      ensures r.Ok? || calm ==> r == Judged(old(fs).trees, id)
      ensures r.Err? ==> r.error.Refused?
    {
      hide Good, Judge, Fs.Numbered;
      if id !in fs.trees {
        r := Err(Refused(NotADirectory));
      } else {
        // An editor may be writing to a file while it is read.
        var moving: set<string> := *;
        var judged := TakeSnapshot(id, fs.trees[id], if calm then {} else moving);
        r := match judged case Ok(snap) => Ok(snap) case Err(why) => Err(Refused(why));
      }
      Interfere();
    }

    // The desktop shell

    /** `stop_shell` may be used now: it has either stopped the shell, or left no intent yet. */
    ghost predicate HookReady()
      requires Valid()
      reads this
    {
      if restart then fs.shell == Stopped && RestartIntent in fs.At(PARENT) else RestartIntent !in fs.At(PARENT)
    }

    /** The shell runs, and nothing on disk says that it is owed a restart. */
    ghost predicate ShellBack()
      requires Valid()
      reads this
    {
      fs.shell == Running && RestartIntent !in fs.At(PARENT) && fs.Synced(PARENT)
    }

    /** A restart that is owed is announced. */
    ghost predicate Announced()
      requires Valid()
      reads this
    {
      restart ==> RestartIntent in fs.At(PARENT)
    }

    /** A system call that leaves everything recovery looks at alone. */
    method QuietCall(target: Fs, ghost a: Action) returns (r: Status<Error>)
      requires Valid() && target.Valid() && Undisturbed(fs, target)
      requires sound ==> Enabled(fs, a) && target == Do(fs, a)
      modifies this`fs, this`run
      ensures Valid() && old(run) <= run && Undisturbed(old(fs), fs)
      ensures calm ==> r.Pass?
      ensures r.Pass? ==> Drift(target, fs, calm)
      ensures r.Fail? ==> r.error == OsError && Drift(old(fs), fs, calm)
    {
      hide Good, Enabled, Do, Undisturbed, Fs.Numbered;
      ghost var before := fs;
      r := Call(target, a);
      if r.Pass? {
        TouchedIsQuiet(target, fs);
        QuietTransitive(before, target, fs);
      } else {
        TouchedIsQuiet(before, fs);
      }
    }

    /** fsync of the parent, right after a change there that recovery does not look at. */
    method SyncParent() returns (r: Status<Error>)
      requires Valid()
      modifies this`fs, this`run
      ensures Valid() && old(run) <= run && Undisturbed(old(fs), fs)
      ensures fs.At(PARENT) == old(fs).At(PARENT) && fs.shell == old(fs).shell && fs.kills == old(fs).kills
      ensures r.Pass? ==> fs.Synced(PARENT)
      ensures r.Fail? ==> r.error == OsError
      ensures calm ==> r.Pass? && fs.trees == old(fs).trees && fs.edited == old(fs).edited
    {
      hide Good, Judge, Undisturbed, Enabled, Do, IsRun, Fs.Numbered;
      ParentSynced(fs);
      if sound { MaySync(fs, PARENT); }
      r := QuietCall(fs.Sync(PARENT), SyncDirectory(PARENT));
    }

    /** rename_atomic of the written record, and sync of the directory. */
    method RenameIntent(tag: nat, x: Id) returns (r: Status<Error>)
      requires Valid() && Names(fs.At(PARENT), Temporary(tag), x)
      requires x in fs.records && fs.records[x] == IntentRecord && x !in fs.unsettled
      modifies this`fs, this`run
      ensures Valid() && old(run) <= run
      ensures Undisturbed(old(fs), fs) && fs.shell == old(fs).shell && fs.kills == old(fs).kills
      ensures fs.At(PARENT) == old(fs).At(PARENT) || fs.At(PARENT) == BecameIntent(old(fs).At(PARENT), tag, x)
      ensures RestartIntent in old(fs).At(PARENT) ==> r.Fail? && fs.At(PARENT) == old(fs).At(PARENT)
      ensures r.Pass? ==> fs.At(PARENT) == BecameIntent(old(fs).At(PARENT), tag, x) && fs.Synced(PARENT)
      ensures r.Fail? ==> r.error == OsError
      ensures calm && RestartIntent !in old(fs).At(PARENT) ==> r.Pass?
      ensures calm ==> fs.trees == old(fs).trees && fs.edited == old(fs).edited
    {
      hide Good, Judge, Undisturbed, Enabled, Do, IsRun, Fs.Numbered;
      ghost var start := fs;
      if RestartIntent in fs.At(PARENT) {
        QuietReflexive(fs);
        return Fail(OsError);
      }
      IntentRenamed(fs, tag);
      if sound { MayPublishIntent(fs, tag, x); }
      r := QuietCall(fs.RenameWithin(PARENT, Temporary(tag), RestartIntent), Recovery.PublishIntent(tag));
      if r.Pass? {
        ghost var renamed := fs;
        r := SyncParent();
        QuietTransitive(start, renamed, fs);
      }
    }

    /** The `try` block of `publish_record`: sync the temporary file, rename it, sync the directory. */
    method MoveIntent(tag: nat, x: Id) returns (r: Status<Error>)
      requires Valid() && Names(fs.At(PARENT), Temporary(tag), x)
      requires x in fs.records && fs.records[x] == IntentRecord
      modifies this`fs, this`run
      ensures Valid() && old(run) <= run
      ensures Undisturbed(old(fs), fs) && fs.shell == old(fs).shell && fs.kills == old(fs).kills
      ensures fs.At(PARENT) == old(fs).At(PARENT) || fs.At(PARENT) == BecameIntent(old(fs).At(PARENT), tag, x)
      ensures RestartIntent in old(fs).At(PARENT) ==> r.Fail? && fs.At(PARENT) == old(fs).At(PARENT)
      ensures r.Pass? ==> fs.At(PARENT) == BecameIntent(old(fs).At(PARENT), tag, x) && fs.Synced(PARENT)
      ensures r.Fail? ==> r.error == OsError
      ensures calm && RestartIntent !in old(fs).At(PARENT) ==> r.Pass?
      ensures calm ==> fs.trees == old(fs).trees && fs.edited == old(fs).edited
    {
      assert x !in fs.trees;
      hide Good, Judge, Undisturbed, Enabled, Do, IsRun, Fs.Numbered;
      ghost var start := fs;
      RecordSettled(fs, x);
      if sound { MaySyncRecord(fs, x); }
      r := QuietCall(fs.Settle(x), SyncRecord(x));
      if r.Pass? {
        ghost var settled := fs;
        r := RenameIntent(tag, x);
        QuietTransitive(start, settled, fs);
      }
    }

    /** The `finally` clause of `publish_record`. */
    method DropTemporary(tag: nat) returns (r: Status<Error>)
      requires Valid()
      modifies this`fs, this`run
      ensures Valid() && old(run) <= run
      ensures Undisturbed(old(fs), fs) && fs.shell == old(fs).shell && fs.kills == old(fs).kills
      ensures Temporary(tag) !in old(fs).At(PARENT) ==> r.Pass? && fs == old(fs)
      ensures r.Pass? ==> fs.At(PARENT) == old(fs).At(PARENT) - {Temporary(tag)}
      ensures r.Fail? ==> r.error == OsError
      ensures calm ==> r.Pass? && fs.trees == old(fs).trees && fs.edited == old(fs).edited
    {
      hide Good, Judge, Undisturbed, Enabled, Do, IsRun, Fs.Numbered;
      QuietReflexive(fs);
      if Temporary(tag) !in fs.At(PARENT) { return Pass; }
      IntentDropped(fs, Temporary(tag));
      if sound { MayDropTemporary(fs, tag); }
      r := QuietCall(fs.Unlink(PARENT, Temporary(tag)), Recovery.DropTemporary(tag));
    }

    /** `publish_record` of the restart intent. */
    method PublishIntent() returns (r: Status<Error>)
      requires Valid()
      modifies this`fs, this`run
      ensures Valid() && old(run) <= run
      ensures Undisturbed(old(fs), fs) && fs.shell == old(fs).shell && fs.kills == old(fs).kills
      // The intent is on disk under its name, and the temporary file is gone, unless even that fails.
      ensures r.Pass? ==>
        && fs.Synced(PARENT) && RestartIntent in fs.At(PARENT) && !ForeignIntent(fs)
        && fs.At(PARENT) == old(fs).At(PARENT)[RestartIntent := fs.At(PARENT)[RestartIntent]]
      ensures calm && r.Fail? ==> fs.At(PARENT) == old(fs).At(PARENT)
      ensures r.Fail? ==> r.error == OsError
      ensures calm && RestartIntent !in old(fs).At(PARENT) ==> r.Pass?
      ensures calm ==> fs.trees == old(fs).trees && fs.edited == old(fs).edited
    {
      hide Good, Judge, Undisturbed, Enabled, Do, IsRun, Fs.Numbered, Remembers, ForeignIntent, BecameIntent;
      var tag := UnusedTag(fs.At(PARENT));
      ghost var start := fs;
      var x := fs.nextId;
      IntentMade(fs, tag);
      if sound { MayWriteIntent(fs, tag); }
      :- QuietCall(fs.MakeRecord(PARENT, Temporary(tag), IntentRecord), WriteIntent(tag));
      ghost var made := fs;
      r := MoveIntent(tag, x);
      QuietTransitive(start, made, fs);
      QuietFacts(made, fs);
      TemporaryForgotten(start.At(PARENT), tag, x);
      ghost var moved := fs;
      var cleaned := DropTemporary(tag);
      QuietTransitive(start, moved, fs);
      QuietFacts(moved, fs);
      if r.Pass? && cleaned.Pass? { IsOwnIntent(made, moved, fs, x); }
      if cleaned.Fail? { r := cleaned; }
    }

    /** `stop_shell`, the hook that runs before a publication. */
    method StopShell() returns (r: Status<Error>)
      requires Valid()
      modifies this
      ensures Valid() && old(run) <= run && Undisturbed(old(fs), fs)
      ensures r.Pass? ==> restart
      ensures r.Fail? ==> r.error.OsError? || r.error.DesktopLocked? || r.error.CommandFailed?
      ensures old(restart) ==> restart && fs == old(fs) && r.Pass?
      ensures r == Fail(DesktopLocked) <==> locked && !old(restart)
      ensures r == Fail(DesktopLocked) ==> fs == old(fs) && !restart
      ensures r.Pass? && !old(restart) ==> fs.shell == Stopped && RestartIntent in fs.At(PARENT) && fs.Synced(PARENT)
      ensures fs.kills <= old(fs).kills + 1 && (fs.kills != old(fs).kills ==> restart && !locked)
      ensures old(Announced()) ==> Announced()
      ensures calm && old(HookReady()) ==> r.Pass?
      ensures calm ==> fs.trees == old(fs).trees && fs.edited == old(fs).edited
    {
      hide Good, Judge, Undisturbed, Enabled, Do, IsRun, Fs.Numbered;
      if restart {
        QuietReflexive(fs);
        return Pass;
      }
      QuietReflexive(fs);
      if locked { return Fail(DesktopLocked); }
      // The shell configuration must be known.
      var known: bool := *;
      if !calm && !known { return Fail(CommandFailed); }
      :- PublishIntent();
      restart := true;
      var killed: bool := *;
      if killed || calm {
        ghost var before := fs;
        if sound { MayStopShell(fs); }
        fs := fs.(shell := Stopped, kills := fs.kills + 1);
        ShellChanged(before, Stopped, before.kills + 1);
        QuietTransitive(old(fs), before, fs);
        Note(before, Recovery.StopShell);
      }
      // The command may also fail after it has worked.
      var failed: bool := *;
      if !calm && (failed || !killed) { return Fail(CommandFailed); }
      r := Pass;
    }

    /** `restart_shell`. */
    method RestartShell() returns (r: Status<Error>)
      requires Valid()
      modifies this`fs, this`run
      ensures Valid() && old(run) <= run && Undisturbed(old(fs), fs)
      ensures fs.kills == old(fs).kills
      ensures r.Pass? ==> fs.shell == Running && RestartIntent !in fs.At(PARENT) && fs.Synced(PARENT)
      ensures r.Fail? ==> r.error.OsError? || r.error.CommandFailed?
      ensures calm && RestartIntent in old(fs).At(PARENT) ==> r.Pass?
      ensures calm ==> fs.trees == old(fs).trees && fs.edited == old(fs).edited
    {
      hide Good, Judge, Undisturbed, Enabled, Do, IsRun, Fs.Numbered;
      ghost var start := fs;
      QuietReflexive(fs);
      var started: bool := *;
      if started || calm {
        if sound { MayStartShell(fs); }
        fs := fs.(shell := Running);
        ShellChanged(start, Running, start.kills);
        Note(start, StartShell);
      }
      var failed: bool := *;
      if !calm && (failed || !started) { return Fail(CommandFailed); }
      if RestartIntent !in fs.At(PARENT) { return Fail(OsError); }
      ghost var running := fs;
      IntentDropped(fs, RestartIntent);
      if sound { MayRemoveIntent(fs); }
      r := QuietCall(fs.Unlink(PARENT, RestartIntent), RemoveIntent);
      QuietTransitive(start, running, fs);
      if r.Fail? { return; }
      ghost var removed := fs;
      r := SyncParent();
      QuietTransitive(start, removed, fs);
    }

    // Recovery

    /** Lines 186-187: the paths are as planned and the staged tree is what was planned. */
    method CheckStaged(q: Id, plan: Plan) returns (r: Status<Error>)
      requires Valid() && Names(fs.At(PARENT), Journal, q) && q in fs.records && fs.records[q] == PlanRecord(plan)
      requires plan.transaction in fs.directories && plan.transaction != PARENT
      requires !Names(fs.At(PARENT), Destination, plan.after.identity)
      modifies this`fs, this`run
      ensures Valid() && old(run) <= run && Drift(old(fs), fs, calm) && Undisturbed(old(fs), fs)
      ensures r.Pass? ==> Ready(fs, q, plan)
      ensures r.Pass? ==> Judged(old(fs).trees, plan.after.identity) == Ok(plan.after)
      ensures r.Fail? ==> r.error == PathsChanged || r.error.Refused?
      ensures calm && sound && Judged(old(fs).trees, plan.after.identity) == Ok(plan.after) ==> r.Pass?
    {
      hide Good, Judge, Undisturbed, Enabled, Do, IsRun, Fs.Numbered;
      QuietReflexive(fs);
      if sound { ReadyWhenUnpublished(fs, q, plan); }
      if (if plan.before.Some? then
            Destination !in fs.At(PARENT) || fs.At(PARENT)[Destination] != plan.before.value.identity
          else Destination in fs.At(PARENT)) {
        return Fail(PathsChanged);
      }
      if New !in fs.At(plan.transaction) { return Fail(PathsChanged); }
      ghost var start := fs;
      var staged := Capture(fs.At(plan.transaction)[New]);
      TouchedIsQuiet(start, fs);
      if staged.Err? { return Fail(staged.error); }
      if staged.value != plan.after { return Fail(PathsChanged); }
      SnapshotDescribes(start.At(plan.transaction)[New], start.trees[start.At(plan.transaction)[New]]);
      r := Pass;
    }

    /** Nothing has been published: take back just the intent, and refuse. */
    method Abandon(q: Id, plan: Plan) returns (e: Error)
      requires Valid() && Ready(fs, q, plan)
      modifies this`fs, this`run
      ensures Valid() && old(run) <= run && fs.kills == old(fs).kills
      ensures (e.Abandoned? || e.OsError?) && AbandonedOnly(old(fs), fs)
      ensures e == Error.Abandoned ==> Journal !in fs.At(PARENT) && fs.Synced(PARENT)
      ensures calm ==> e == Error.Abandoned && fs.trees == old(fs).trees && fs.edited == old(fs).edited
    {
      hide Good, Judge, Enabled, Do, IsRun, Fs.Numbered, AbandonedOnly;
      ghost var start := fs;
      UnlinkValid(fs, PARENT, Journal);
      if sound { MayAbandon(fs, q); }
      var r := Call(fs.Unlink(PARENT, Journal), UnlinkJournal(q));
      if r.Fail? { TouchedIsClean(start, fs); return OsError; }
      UnlinkIsClean(start, fs);
      ghost var unlinked := fs;
      SyncValid(fs, PARENT);
      if sound { MaySync(fs, PARENT); }
      r := Call(fs.Sync(PARENT), SyncDirectory(PARENT));
      SyncIsClean(start, unlinked, fs);
      if r.Fail? { return OsError; }
      e := Error.Abandoned;
    }

    /** `revalidate_old`: abandon the intent when the installation is no longer what was captured. */
    method RevalidateOld(q: Id, plan: Plan) returns (r: Status<Error>)
      requires Valid() && Ready(fs, q, plan)
      modifies this`fs, this`run
      ensures Valid() && old(run) <= run && fs.kills == old(fs).kills
      ensures r.Pass? ==> Drift(old(fs), fs, calm) && Ready(fs, q, plan)
      ensures r.Pass? ==> BeforeIntact(old(fs).trees, plan)
      ensures r.Fail? ==> (r.error.OsError? || r.error.Abandoned?) && AbandonedOnly(old(fs), fs)
      ensures r == Fail(Abandoned) ==> plan.before.Some? && Journal !in fs.At(PARENT) && fs.Synced(PARENT)
      ensures calm && BeforeIntact(old(fs).trees, plan) ==> r.Pass?
      ensures calm ==> fs.trees == old(fs).trees && fs.edited == old(fs).edited
    {
      hide Good, Judge, Judged, Enabled, Do, IsRun, Fs.Numbered;
      if plan.before.None? { return Pass; }
      var current := Capture(fs.At(PARENT)[Destination]);
      if current == Ok(plan.before.value) { return Pass; }
      var e := Abandon(q, plan);
      r := Fail(e);
    }

    /** The publication itself: exchange with the old generation, or take the free place. */
    method Swap(q: Id, plan: Plan) returns (r: Status<Error>)
      requires Valid() && Ready(fs, q, plan)
      modifies this`fs, this`run
      ensures Valid() && old(run) <= run && fs.kills == old(fs).kills && fs.shell == old(fs).shell
      ensures Remembers(old(fs), fs) && fs.trees.Keys == old(fs).trees.Keys
      ensures fs.directories.Keys == old(fs).directories.Keys
      ensures fs.unguarded == old(fs).unguarded || old(fs).shell == Running
      ensures r.Pass? ==> fs.At(PARENT) == old(fs).At(PARENT)[Destination := plan.after.identity]
      ensures SameNote(old(fs), fs, plan.transaction)
      ensures r.Pass? ==> |old(run)| < |run| && Publishes(old(fs), run[|old(run)|], plan)
      ensures RestartIntent in old(fs).At(PARENT) ==> RestartIntent in fs.At(PARENT)
      ensures r.Fail? ==> r.error == OsError
      ensures calm ==> r.Pass? && fs.trees == old(fs).trees && fs.edited == old(fs).edited
    {
      hide Good, Judge, Judged, Enabled, Do, IsRun, Fs.Numbered, SameNote;
      ghost var start := fs;
      var t := plan.transaction;
      RenameUpValid(fs, t, New, Destination, plan.before.Some?);
      var target := fs.RenameUp(t, New, Destination, plan.before.Some?)
        .(unguarded := fs.unguarded + if fs.shell == Running then 1 else 0);
      CountingIsValid(fs.RenameUp(t, New, Destination, plan.before.Some?), target);
      if sound { MayPublish(fs, q); }
      r := Call(target, Publish(q));
      if r.Pass? {
        SwapKeepsNote(start, fs, t, plan.before.Some?, target.unguarded);
      } else {
        TouchedKeepsNote(start, fs, t);
      }
    }

    /** The hook, when there is one, between the two checks of the old generation. */
    method Quiesce(q: Id, plan: Plan, ghost start: Fs) returns (r: Status<Error>)
      requires Valid() && Ready(fs, q, plan) && HookReady()
      requires start.Valid() && Undisturbed(start, fs)
      modifies this
      ensures Valid() && old(run) <= run && Undisturbed(start, fs) && Ready(fs, q, plan)
      ensures fs.kills <= old(fs).kills + 1 && (fs.kills != old(fs).kills ==> restart && !old(restart) && !locked)
      ensures old(restart) ==> restart
      ensures r.Pass? ==> restart && HookReady() && fs.shell == Stopped
      ensures Announced()
      ensures r.Fail? ==> r.error.OsError? || r.error.DesktopLocked? || r.error.CommandFailed?
      ensures calm ==> r.Pass? && fs.trees == old(fs).trees && fs.edited == old(fs).edited
    {
      hide Good, Judge, Enabled, Do, IsRun, Fs.Numbered, Undisturbed, Ready;
      ghost var before := fs;
      r := StopShell();
      QuietTransitive(start, before, fs);
      StillReady(before, fs, q, plan);
    }

    /** The second check of the old generation, and the publication right after it. */
    method CheckAndSwap(q: Id, plan: Plan, ghost start: Fs) returns (r: Status<Error>)
      requires Valid() && Ready(fs, q, plan)
      requires start.Valid() && Undisturbed(start, fs)
      modifies this`fs, this`run
      ensures Valid() && old(run) <= run && fs.kills == old(fs).kills
      ensures fs.unguarded == start.unguarded || old(fs).shell == Running
      ensures Remembers(start, fs) && fs.trees.Keys == start.trees.Keys
      ensures r.Pass? ==>
        && fs.At(PARENT) == old(fs).At(PARENT)[Destination := plan.after.identity]
        && fs.shell == old(fs).shell
        && q in fs.records && fs.records[q] == PlanRecord(plan) && fs.directories.Keys == start.directories.Keys
        && SameNote(start, fs, plan.transaction)
      ensures r.Fail? ==> r.error.OsError? || r.error.Abandoned?
      ensures r == Fail(Abandoned) ==> plan.before.Some? && RefusedCleanly(start, fs) && Journal !in fs.At(PARENT)
      ensures RestartIntent in old(fs).At(PARENT) ==> RestartIntent in fs.At(PARENT)
      ensures r.Pass? ==> Guarded(run, |old(run)| - 1, plan, old(fs).shell == Stopped)
      ensures calm && BeforeIntact(old(fs).trees, plan) ==> r.Pass?
      ensures calm ==> fs.trees == old(fs).trees && fs.edited == old(fs).edited
    {
      hide Good, Judge, Judged, Enabled, Do, IsRun, Fs.Numbered, Undisturbed, RefusedCleanly, AbandonedOnly, SameNote,
           Publishes, Guarded;
      ghost var quiet := fs;
      r := RevalidateOld(q, plan);
      CleanKeepsIntent(quiet, fs);
      if r.Fail? { CleanlyAbandoned(start, quiet, fs); CleanFacts(start, fs); return; }
      TouchedIsQuiet(quiet, fs);
      QuietTransitive(start, quiet, fs);
      QuietFacts(start, fs);
      ghost var ready, checked := fs, run;
      r := Swap(q, plan);
      if r.Pass? { Guards(old(run), checked, run, plan); }
      RemembersTransitive(start, ready, fs);
      QuietKeepsNote(start, ready, plan.transaction);
      SameNoteTransitive(start, ready, fs, plan.transaction);
    }

    /** Lines 202-208: quiesce if asked to, check again, and swap; nothing has been disturbed since `start`. */
    method QuiesceAndSwap(q: Id, plan: Plan, stop: bool, ghost start: Fs) returns (r: Status<Error>)
      requires Valid() && Ready(fs, q, plan) && (stop ==> HookReady())
      requires start.Valid() && Undisturbed(start, fs)
      modifies this
      ensures Valid() && old(run) <= run
      ensures fs.kills <= old(fs).kills + 1 && (fs.kills != old(fs).kills ==> restart && !old(restart) && !locked)
      ensures old(restart) ==> restart
      ensures stop ==> fs.unguarded == start.unguarded
      ensures Remembers(start, fs) && fs.trees.Keys == start.trees.Keys
      ensures r.Pass? ==>
        && Names(fs.At(PARENT), Journal, q) && Names(fs.At(PARENT), Destination, plan.after.identity)
        && q in fs.records && fs.records[q] == PlanRecord(plan)
        && fs.directories.Keys == start.directories.Keys && SameNote(start, fs, plan.transaction)
        && (stop ==> restart && HookReady())
      ensures r.Pass? ==> Guarded(run, |old(run)| - 1, plan, stop)
      ensures r.Fail? ==> OfPublication(r.error)
      ensures old(Announced()) ==> Announced()
      ensures r.Fail? && r.error != OsError && r.error != Abandoned ==> Undisturbed(start, fs)
      ensures r == Fail(Abandoned) ==> plan.before.Some? && RefusedCleanly(start, fs) && Journal !in fs.At(PARENT)
      ensures calm && BeforeIntact(old(fs).trees, plan) ==> r.Pass?
      ensures calm ==> fs.trees == old(fs).trees && fs.edited == old(fs).edited
    {
      hide Good, Judge, Judged, Enabled, Do, IsRun, Fs.Numbered, Undisturbed, RefusedCleanly, AbandonedOnly, Remembers,
           SameNote, Guarded, BeforeIntact, Ready, Fs.Readable;
      if stop {
        r := Quiesce(q, plan, start);
        if r.Fail? { QuietFacts(start, fs); return; }
      }
      ghost var quiet := run;
      ReadyNames(fs, q, plan);
      r := CheckAndSwap(q, plan, start);
      if r.Pass? {
        GuardedSince(run, run, |old(run)| - 1, |quiet| - 1, plan, stop, quiet[|quiet| - 1].shell == Stopped);
      }
    }

    /** Lines 185-208: nothing is published yet; check, quiesce, check again, and swap. */
    method PublishStaged(q: Id, plan: Plan, stop: bool) returns (r: Status<Error>)
      requires Valid() && Ready(fs, q, plan) && (stop ==> HookReady())
      modifies this
      ensures Valid() && old(run) <= run
      ensures fs.kills <= old(fs).kills + 1 && (fs.kills != old(fs).kills ==> restart && !old(restart) && !locked)
      ensures old(restart) ==> restart
      ensures stop ==> fs.unguarded == old(fs).unguarded
      ensures Remembers(old(fs), fs) && fs.trees.Keys == old(fs).trees.Keys
      ensures r.Pass? ==>
        && Names(fs.At(PARENT), Journal, q) && Names(fs.At(PARENT), Destination, plan.after.identity)
        && q in fs.records && fs.records[q] == PlanRecord(plan)
        && fs.directories.Keys == old(fs).directories.Keys && SameNote(old(fs), fs, plan.transaction)
        && (stop ==> restart && HookReady())
      // The old generation was found intact before the shell was stopped, and again afterwards.
      ensures r.Pass? ==> Guarded(run, |old(run)| - 1, plan, stop)
      ensures r.Pass? || fs.kills != old(fs).kills ==> BeforeIntact(old(fs).trees, plan)
      ensures r.Fail? ==> OfPublication(r.error)
      ensures old(Announced()) ==> Announced()
      ensures r.Fail? && r.error != OsError && r.error != Abandoned ==> Undisturbed(old(fs), fs)
      ensures r == Fail(Abandoned) ==> plan.before.Some? && RefusedCleanly(old(fs), fs) && Journal !in fs.At(PARENT)
      ensures calm && BeforeIntact(old(fs).trees, plan) ==> r.Pass?
      ensures calm ==> fs.trees == old(fs).trees && fs.edited == old(fs).edited
    {
      hide Good, Judge, Judged, Enabled, Do, IsRun, Fs.Numbered, Undisturbed, RefusedCleanly, AbandonedOnly, Remembers,
           SameNote, Guarded, BeforeIntact;
      ghost var start := fs;
      QuietReflexive(fs);
      r := RevalidateOld(q, plan);
      CleanKeepsIntent(start, fs);
      if r.Fail? { CleanlyAbandoned(start, start, fs); CleanFacts(start, fs); return; }
      TouchedIsQuiet(start, fs);
      ghost var checked := run;
      r := QuiesceAndSwap(q, plan, stop, start);
      if r.Pass? { GuardedSince(run, run, |old(run)| - 1, |checked| - 1, plan, stop, stop); }
    }

    /** A system call inside transaction directory t. */
    method CallWithin(t: Id, target: Fs, ghost a: Action) returns (r: Status<Error>)
      requires Valid() && target.Valid() && Within(fs, target, t)
      requires sound ==> Enabled(fs, a) && target == Do(fs, a)
      modifies this`fs, this`run
      ensures Valid() && old(run) <= run && Within(old(fs), fs, t)
      ensures calm ==> r.Pass?
      ensures r.Pass? ==> Drift(target, fs, calm)
      ensures r.Fail? ==> r.error == OsError && Drift(old(fs), fs, calm)
    {
      hide Good, Enabled, Do, Within, IsRun, Fs.Numbered;
      ghost var before := fs;
      r := Call(target, a);
      if r.Pass? { TargetIsWithin(before, target, fs, t); } else { TouchedIsWithin(before, fs, t); }
    }

    method SyncTransaction(t: Id) returns (r: Status<Error>)
      requires Valid() && t in fs.directories
      modifies this`fs, this`run
      ensures Valid() && old(run) <= run && Within(old(fs), fs, t) && fs.At(t) == old(fs).At(t)
      ensures r.Pass? ==> fs.Synced(t)
      ensures r.Fail? ==> r.error == OsError
      ensures calm ==> r.Pass? && fs.trees == old(fs).trees && fs.edited == old(fs).edited
    {
      hide Good, Judge, Within, Enabled, Do, IsRun, Fs.Numbered;
      SyncIsWithin(fs, t);
      if sound { MaySync(fs, t); }
      r := CallWithin(t, fs.Sync(t), SyncDirectory(t));
    }

    /** Whether the tree that was replaced still is what was captured: its editors are not fenced. */
    method RetiredChanged(plan: Plan) returns (changed: bool)
      requires Valid() && plan.transaction in fs.directories
      modifies this`fs, this`run
      ensures Valid() && old(run) <= run && Drift(old(fs), fs, calm)
      ensures !changed ==> RetiredIntact(old(fs).trees, old(fs).At(plan.transaction), plan)
      ensures calm && RetiredIntact(old(fs).trees, old(fs).At(plan.transaction), plan) ==> !changed
    {
      hide Good, Judge, Judged, IsRun, Fs.Numbered;
      var view := fs.At(plan.transaction);
      if Previous !in view && New !in view { return true; }
      var captured := Capture(if Previous in view then view[Previous] else view[New]);
      changed := plan.before.None? || captured != Ok(plan.before.value);
    }

    /** Lines 225-226: the rename, if an earlier invocation has not done it already. */
    method RenameRetired(q: Id, plan: Plan) returns (r: Status<Error>)
      requires Valid() && Published(fs, q, plan) && fs.Synced(PARENT) && plan.before.Some?
      modifies this`fs, this`run
      ensures Valid() && old(run) <= run && Within(old(fs), fs, plan.transaction)
      ensures r.Pass? && sound ==> Retired(plan, fs.At(plan.transaction))
      ensures r.Pass? ==> Previous in fs.At(plan.transaction)
      ensures SameNote(old(fs), fs, plan.transaction)
      ensures r.Fail? ==> r.error == OsError
      ensures calm && sound ==> r.Pass?
      ensures calm ==> fs.trees == old(fs).trees && fs.edited == old(fs).edited
    {
      hide Good, Judge, Within, Enabled, Do, IsRun, Fs.Numbered, SameNote;
      ghost var start := fs;
      var t := plan.transaction;
      TouchedIsWithin(fs, fs, t);
      TouchedKeepsNote(fs, fs, t);
      if sound { PublishedShape(fs, q, plan); }
      if Previous in fs.At(t) { return Pass; }
      if New !in fs.At(t) { return Fail(OsError); }
      RetireIsWithin(fs, t);
      if sound { MayRetire(fs, q); }
      r := CallWithin(t, fs.RenameWithin(t, New, Previous), RetireOld(q));
      if r.Pass? { RetireKeepsNote(start, fs, t); } else { TouchedKeepsNote(start, fs, t); }
    }

    /** Lines 214-229: put the old generation aside under `previous`. */
    method RetireOldTree(q: Id, plan: Plan) returns (r: Status<Error>, changed: bool)
      requires Valid() && Published(fs, q, plan) && fs.Synced(PARENT)
      modifies this`fs, this`run
      ensures Valid() && old(run) <= run && Within(old(fs), fs, plan.transaction)
      ensures r.Pass? && sound ==> Retired(plan, fs.At(plan.transaction))
      ensures r.Pass? && plan.before.Some? ==> Previous in fs.At(plan.transaction) && fs.Synced(plan.transaction)
      ensures plan.before.Some? && !changed ==> RetiredIntact(old(fs).trees, old(fs).At(plan.transaction), plan)
      ensures calm && RetiredIntact(old(fs).trees, old(fs).At(plan.transaction), plan) ==> !changed
      ensures changed ==> plan.before.Some?
      ensures SameNote(old(fs), fs, plan.transaction)
      ensures r.Fail? ==> r.error == OsError
      ensures calm && sound ==> r.Pass?
      ensures calm ==> fs.trees == old(fs).trees && fs.edited == old(fs).edited
    {
      hide Good, Judge, Judged, Within, Enabled, Do, IsRun, Fs.Numbered, Retired, RetiredIntact, SameNote;
      var t := plan.transaction;
      changed := false;
      if plan.before.None? {
        TouchedIsWithin(fs, fs, t);
        TouchedKeepsNote(fs, fs, t);
        if sound { NothingToRetire(fs, q, plan); }
        return Pass, false;
      }
      ghost var start := fs;
      changed := RetiredChanged(plan);
      TouchedIsWithin(start, fs, t);
      TouchedKeepsNote(start, fs, t);
      ghost var before := fs;
      r := RenameRetired(q, plan);
      SameNoteTransitive(start, before, fs, t);
      WithinTransitive(start, before, fs, t);
      if r.Fail? { return r, changed; }
      ghost var renamed := fs;
      r := SyncTransaction(t);
      WithinTransitive(start, renamed, fs, t);
      SameViewSameNote(start, renamed, fs, t);
    }

    /** Lines 230-234: note completion; the note is informational, its directory is synced. */
    method NoteCompletion(t: Id, changed: bool) returns (r: Status<Error>)
      requires Valid() && t in fs.directories && t != PARENT
      modifies this`fs, this`run
      ensures Valid() && old(run) <= run && Within(old(fs), fs, t)
      ensures SameName(old(fs).At(t), fs.At(t), New) && SameName(old(fs).At(t), fs.At(t), Previous)
      ensures r.Pass? ==> fs.Synced(t)
      ensures r.Pass? && CompletedFile !in old(fs).At(t) ==>
        Noted(fs, t, changed) && fs.At(t)[CompletedFile] !in fs.unsettled
      ensures CompletedFile in old(fs).At(t) ==> SameNote(old(fs), fs, t)
      ensures r.Fail? ==> r.error == OsError
      ensures calm ==> r.Pass? && fs.trees == old(fs).trees && fs.edited == old(fs).edited
    {
      hide Good, Judge, Within, Enabled, Do, IsRun, Fs.Numbered;
      ghost var start := fs;
      TouchedIsWithin(fs, fs, t);
      if CompletedFile !in fs.At(t) {
        r := WriteNote(t, changed);
        if r.Fail? { return; }
      }
      ghost var noted := fs;
      r := SyncTransaction(t);
      WithinTransitive(start, noted, fs, t);
      WithinRemembers(noted, noted, fs, t);
      if Noted(noted, t, changed) { StillNoted(noted, fs, t, changed); }
    }

    /** `write_record` of the completion note. */
    method WriteNote(t: Id, changed: bool) returns (r: Status<Error>)
      requires Valid() && t in fs.directories && t != PARENT && CompletedFile !in fs.At(t)
      modifies this`fs, this`run
      ensures Valid() && old(run) <= run && Within(old(fs), fs, t) && t in fs.directories
      ensures SameName(old(fs).At(t), fs.At(t), New) && SameName(old(fs).At(t), fs.At(t), Previous)
      ensures r.Pass? ==> Noted(fs, t, changed) && fs.At(t)[CompletedFile] !in fs.unsettled
      ensures r.Fail? ==> r.error == OsError
      ensures calm ==> r.Pass? && fs.trees == old(fs).trees && fs.edited == old(fs).edited
    {
      hide Good, Judge, Within, Enabled, Do, IsRun, Fs.Numbered, Noted, Remembers;
      ghost var start := fs;
      var x := fs.nextId;
      NoteIsWithin(fs, t, changed);
      if sound { MayWriteCompletion(fs, t, changed); }
      r := CallWithin(t, fs.MakeRecord(t, CompletedFile, CompletionNote(changed)), WriteCompletion(t, changed));
      if r.Pass? {
        ghost var noted := fs;
        NoteMade(start, fs, t, changed);
        SettleIsWithin(fs, x, t);
        if sound { MaySyncRecord(fs, x); }
        r := CallWithin(t, fs.Settle(x), SyncRecord(x));
        WithinTransitive(start, noted, fs, t);
        if r.Pass? { SettledStaysNoted(noted, fs, x, t, changed); }
      }
    }

    /** Lines 236-238: recovery is complete once the journal is gone. */
    method RemoveJournal(q: Id, plan: Plan) returns (r: Status<Error>)
      requires Valid() && Published(fs, q, plan) && fs.Synced(plan.transaction)
      requires sound ==> Retired(plan, fs.At(plan.transaction))
      modifies this`fs, this`run
      ensures Valid() && old(run) <= run && AbandonedOnly(old(fs), fs)
      ensures fs.kills == old(fs).kills && fs.shell == old(fs).shell
      ensures r.Pass? ==> Journal !in fs.At(PARENT) && fs.Synced(PARENT)
      ensures r.Fail? ==> r.error == OsError
      ensures calm ==> r.Pass? && fs.trees == old(fs).trees && fs.edited == old(fs).edited
    {
      hide Good, Judge, AbandonedOnly, Enabled, Do, IsRun, Fs.Numbered;
      ghost var start := fs;
      UnlinkValid(fs, PARENT, Journal);
      if sound { MayComplete(fs, q, plan); }
      r := Call(fs.Unlink(PARENT, Journal), UnlinkJournal(q));
      if r.Fail? { TouchedIsClean(start, fs); return; }
      UnlinkIsClean(start, fs);
      ghost var unlinked := fs;
      SyncValid(fs, PARENT);
      if sound { MaySync(fs, PARENT); }
      r := Call(fs.Sync(PARENT), SyncDirectory(PARENT));
      SyncIsClean(start, unlinked, fs);
    }

    /** Lines 211-212: both parents of the rename are made durable. */
    method SyncBoth(q: Id, plan: Plan) returns (r: Status<Error>)
      requires Valid() && Published(fs, q, plan)
      modifies this`fs, this`run
      ensures Valid() && old(run) <= run && Published(fs, q, plan)
      ensures Remembers(old(fs), fs) && fs.trees.Keys == old(fs).trees.Keys
      ensures fs.unguarded == old(fs).unguarded && fs.kills == old(fs).kills && fs.shell == old(fs).shell
      ensures fs.At(PARENT) == old(fs).At(PARENT) && SameNote(old(fs), fs, plan.transaction)
      ensures r.Pass? ==> fs.Synced(PARENT) && fs.Synced(plan.transaction)
      ensures r.Fail? ==> r.error == OsError
      ensures calm ==> r.Pass? && fs.trees == old(fs).trees && fs.edited == old(fs).edited
    {
      hide Good, Judge, Within, Enabled, Do, IsRun, Fs.Numbered, Remembers, SameNote;
      ghost var start := fs;
      SyncValid(fs, PARENT);
      if sound { MaySync(fs, PARENT); }
      r := Call(fs.Sync(PARENT), SyncDirectory(PARENT));
      SyncRemembers(start, fs);
      SyncKeepsNote(start, fs, plan.transaction);
      if r.Pass? {
        ghost var synced := fs;
        r := SyncTransaction(plan.transaction);
        WithinRemembers(start, synced, fs, plan.transaction);
        StillPublished(synced, fs, q, plan, plan.transaction);
        SameViewSameNote(start, synced, fs, plan.transaction);
      }
    }

    /** Lines 214-235: retire the old generation, and note whether it had changed. */
    method RetireAndNote(q: Id, plan: Plan, ghost from: nat) returns (r: Status<Error>)
      requires Valid() && Published(fs, q, plan) && fs.Synced(PARENT) && from < |run|
      modifies this`fs, this`run
      ensures Valid() && old(run) <= run && Within(old(fs), fs, plan.transaction)
      ensures r.Pass? ==> fs.Synced(plan.transaction)
      ensures r.Pass? && plan.before.Some? ==> Previous in fs.At(plan.transaction)
      ensures r.Pass? && sound ==> Retired(plan, fs.At(plan.transaction))
      ensures r.Pass? && CompletedFile !in old(fs).At(plan.transaction) ==> Reported(fs, run, from, plan, calm && sound)
      ensures r.Pass? && CompletedFile in old(fs).At(plan.transaction) ==> SameNote(old(fs), fs, plan.transaction)
      ensures r.Fail? ==> r.error == OsError
      ensures calm && sound ==> r.Pass?
      ensures calm ==> fs.trees == old(fs).trees && fs.edited == old(fs).edited
    {
      hide Good, Judge, Judged, Within, Enabled, Do, IsRun, Fs.Numbered, Retired, SameNote, Reported, RetiredIntact,
           Noted;
      var t := plan.transaction;
      ghost var start := fs;
      var changed;
      r, changed := RetireOldTree(q, plan);
      if r.Fail? { return; }
      ghost var retired := fs;
      StillPublished(start, fs, q, plan, t);
      r := NoteCompletion(t, changed);
      WithinTransitive(start, retired, fs, t);
      if r.Fail? { return; }
      if sound { RetiredStays(plan, retired.At(t), fs.At(t)); }
      NotedAlready(start, retired, t);
      if CompletedFile in start.At(t) {
        SameNoteTransitive(start, retired, fs, t);
      } else {
        if sound && plan.before.Some? { IntactWhenPublished(start, q, plan); }
        Reports(start, fs, old(run), run, from, plan, calm && sound, changed);
      }
    }

    /** Lines 211-238: the new generation is in place; make that durable, retire the old one, forget the intent. */
    method Conclude(q: Id, plan: Plan) returns (r: Status<Error>)
      requires Valid() && Published(fs, q, plan)
      modifies this`fs, this`run
      ensures Valid() && old(run) <= run
      ensures Remembers(old(fs), fs) && fs.trees.Keys == old(fs).trees.Keys
      ensures fs.unguarded == old(fs).unguarded && fs.kills == old(fs).kills && fs.shell == old(fs).shell
      ensures fs.At(PARENT) == old(fs).At(PARENT) || fs.At(PARENT) == old(fs).At(PARENT) - {Journal}
      ensures (old(HookReady()) ==> HookReady()) && (old(Announced()) ==> Announced())
      ensures r.Pass? ==> Finished(fs, plan)
      ensures r.Pass? && sound ==> Retired(plan, fs.At(plan.transaction))
      // The note tells what was seen of the old generation, unless an earlier invocation has written one.
      ensures r.Pass? && CompletedFile !in old(fs).At(plan.transaction) ==>
        Reported(fs, run, |old(run)| - 1, plan, calm && sound)
      ensures r.Pass? && CompletedFile in old(fs).At(plan.transaction) ==> SameNote(old(fs), fs, plan.transaction)
      ensures r.Fail? ==> r.error == OsError
      ensures calm && sound ==> r.Pass?
      ensures calm ==> fs.trees == old(fs).trees && fs.edited == old(fs).edited
    {
      hide Good, Judge, Judged, Within, AbandonedOnly, Enabled, Do, IsRun, Fs.Numbered, Retired, Remembers, SameNote,
           Reported, RetiredIntact, Noted;
      ghost var start := fs;
      r := SyncBoth(q, plan);
      if r.Fail? { return; }
      ghost var ready := fs;
      r := RetireAndNote(q, plan, |old(run)| - 1);
      WithinRemembers(start, ready, fs, plan.transaction);
      StillPublished(ready, fs, q, plan, plan.transaction);
      if r.Fail? { return; }
      ghost var noted, runThen := fs, run;
      r := RemoveJournal(q, plan);
      CleanRemembers(start, noted, fs, plan.transaction);
      if r.Pass? { NoteOutlives(start, ready, noted, fs, runThen, run, |old(run)| - 1, plan, calm && sound); }
    }

    /** Lines 185-208: publish the staged generation, unless that has happened already. */
    method Advance(q: Id, plan: Plan, stop: bool) returns (r: Status<Error>)
      requires Valid() && (stop ==> HookReady())
      requires Names(fs.At(PARENT), Journal, q) && q in fs.records && fs.records[q] == PlanRecord(plan)
      requires plan.transaction in fs.directories && plan.transaction != PARENT
      modifies this
      ensures Valid() && old(run) <= run
      ensures fs.kills <= old(fs).kills + 1 && (fs.kills != old(fs).kills ==> restart && !old(restart) && !locked)
      ensures old(restart) ==> restart
      ensures stop ==> fs.unguarded == old(fs).unguarded
      ensures Remembers(old(fs), fs) && fs.trees.Keys == old(fs).trees.Keys
      ensures r.Pass? ==>
        Published(fs, q, plan) && SameNote(old(fs), fs, plan.transaction) && (stop ==> HookReady())
      ensures r.Pass? && stop && !Names(old(fs).At(PARENT), Destination, plan.after.identity) ==> restart
      // It publishes only what was staged as planned, over what it found intact, and stops the shell only for that.
      ensures r.Pass? && !Names(old(fs).At(PARENT), Destination, plan.after.identity) ==>
        Judged(old(fs).trees, plan.after.identity) == Ok(plan.after) && Guarded(run, |old(run)| - 1, plan, stop)
      ensures fs.kills != old(fs).kills ==> StoppedForReason(run, |old(run)| - 1, plan)
      ensures r.Fail? ==> OfPublication(r.error)
      ensures old(Announced()) ==> Announced()
      ensures r.Fail? && r.error != OsError && r.error != Abandoned ==> Undisturbed(old(fs), fs)
      ensures r == Fail(Abandoned) ==> plan.before.Some? && !Names(old(fs).At(PARENT), Destination, plan.after.identity)
      ensures r == Fail(Abandoned) ==> RefusedCleanly(old(fs), fs) && Journal !in fs.At(PARENT)
      ensures calm && sound && Resumable(old(fs)) ==> r.Pass?
      ensures calm ==> fs.trees == old(fs).trees && fs.edited == old(fs).edited
    {
      hide Good, Judge, Judged, Undisturbed, RefusedCleanly, Remembers, Enabled, Do, IsRun, Fs.Numbered,
           SameNote, Guarded, StoppedForReason;
      ghost var start := fs;
      QuietReflexive(fs);
      QuietFacts(fs, fs);
      QuietKeepsNote(fs, fs, plan.transaction);
      if Destination in fs.At(PARENT) && fs.At(PARENT)[Destination] == plan.after.identity { return Pass; }
      r := CheckStaged(q, plan);
      QuietFacts(start, fs);
      QuietKeepsNote(start, fs, plan.transaction);
      if r.Fail? { return; }
      ghost var checked, runThen := fs, run;
      r := PublishStaged(q, plan, stop);
      if fs.kills != checked.kills { ReasonSince(runThen, run, |old(run)| - 1, plan); }
      if r.Pass? { GuardedSince(run, run, |old(run)| - 1, |runThen| - 1, plan, stop, stop); }
      PublishAfterCheck(start, checked, fs);
      if r.Pass? { SameNoteTransitive(start, checked, fs, plan.transaction); }
    }

    /** `finish_transaction`: bring the transaction the journal names to its end, or refuse. */
    method FinishTransaction(stop: bool) returns (r: Status<Error>)
      requires Valid() && Journal in fs.At(PARENT) && (stop ==> HookReady())
      modifies this
      ensures Valid() && old(run) <= run
      ensures fs.kills <= old(fs).kills + 1 && (fs.kills != old(fs).kills ==> restart && !old(restart) && !locked)
      ensures old(restart) ==> restart
      ensures stop ==> fs.unguarded == old(fs).unguarded
      ensures stop && r.Pass? ==> HookReady()
      ensures Remembers(old(fs), fs) && fs.trees.Keys == old(fs).trees.Keys
      // Success finishes the plan the journal named.
      ensures r.Pass? ==> var q := old(fs).At(PARENT)[Journal];
        && q in old(fs).records && old(fs).records[q].PlanRecord?
        && Finished(fs, old(fs).records[q].plan)
        && (stop && !Names(old(fs).At(PARENT), Destination, old(fs).records[q].plan.after.identity) ==> restart)
        && (sound ==> Retired(old(fs).records[q].plan, fs.At(old(fs).records[q].plan.transaction)))
      // It publishes only what was staged as planned, over what it found intact, and stops the shell only for that.
      ensures r.Pass? ==> var plan := old(fs).records[old(fs).At(PARENT)[Journal]].plan;
        !Names(old(fs).At(PARENT), Destination, plan.after.identity) ==>
          Judged(old(fs).trees, plan.after.identity) == Ok(plan.after) && Guarded(run, |old(run)| - 1, plan, stop)
      ensures fs.kills != old(fs).kills ==>
        && IsPlan(old(fs), old(fs).At(PARENT)[Journal])
        && StoppedForReason(run, |old(run)| - 1, old(fs).records[old(fs).At(PARENT)[Journal]].plan)
      // The completion note is written, truthfully, unless an earlier invocation has written it.
      ensures r.Pass? ==> var plan := old(fs).records[old(fs).At(PARENT)[Journal]].plan;
        && plan.transaction in old(fs).directories
        && (CompletedFile !in old(fs).At(plan.transaction) ==>
              Reported(fs, run, |old(run)| - 1, plan, calm && sound))
        && (CompletedFile in old(fs).At(plan.transaction) ==> SameNote(old(fs), fs, plan.transaction))
      // A journal that is no plan, or whose transaction directory is not the one planned, is refused as such.
      ensures r == Fail(UnrecognizedJournal) <==> !IsPlan(old(fs), old(fs).At(PARENT)[Journal])
      ensures r == Fail(RecoveryDirectoryReplaced) <==>
        IsPlan(old(fs), old(fs).At(PARENT)[Journal]) && !HasDirectory(old(fs), old(fs).At(PARENT)[Journal])
      ensures old(Announced()) ==> Announced()
      // A refusal changes nothing but, when the installation was edited, the journal's entry.
      ensures r.Fail? ==> OfRecovery(r.error)
      ensures r.Fail? && r.error != OsError && r.error != Abandoned ==> Undisturbed(old(fs), fs)
      ensures r == Fail(Abandoned) ==> AbandonedFrom(old(fs), fs)
      // With nobody editing and nothing failing, recovery succeeds.
      ensures calm && sound && Resumable(old(fs)) ==> r.Pass?
      ensures calm ==> fs.trees == old(fs).trees && fs.edited == old(fs).edited
    {
      hide Good, Judge, Judged, Undisturbed, RefusedCleanly, Remembers, Enabled, Do, IsRun, Fs.Numbered, Retired,
           SameNote, Reported, Guarded, StoppedForReason, HookReady, Announced, Finished;
      ghost var start := fs;
      QuietReflexive(fs);
      QuietFacts(fs, fs);
      var q := fs.At(PARENT)[Journal];
      if q !in fs.records || !fs.records[q].PlanRecord? { return Fail(UnrecognizedJournal); }
      var plan := fs.records[q].plan;
      var t := plan.transaction;
      if Transaction(plan.tag) !in fs.At(PARENT) || fs.At(PARENT)[Transaction(plan.tag)] != t
         || t !in fs.directories || t == PARENT {
        if sound { JournalLegal(fs); }
        return Fail(RecoveryDirectoryReplaced);
      }
      r := Advance(q, plan, stop);
      if r.Fail? { return; }
      ghost var published, runThen := fs, run;
      ghost var publishes := !Names(start.At(PARENT), Destination, plan.after.identity);
      r := Conclude(q, plan);
      if publishes { GuardedSince(runThen, run, |old(run)| - 1, |old(run)| - 1, plan, stop, stop); }
      if fs.kills != start.kills { ReasonKept(runThen, run, |old(run)| - 1, plan); }
      RemembersTransitive(start, published, fs);
      if r.Pass? { NoteSinceStart(start, published, fs, run, |old(run)| - 1, |runThen| - 1, plan, calm && sound); }
    }

    // Installation

    /** mkdtemp. */
    method MakeTransactionDirectory(prior: Option<Snapshot>) returns (r: Status<Error>, tag: nat, t: Id)
      requires Valid() && SameInstallation(fs, prior)
      modifies this`fs, this`run
      ensures Valid() && old(run) <= run && Remembers(old(fs), fs)
      ensures fs.unguarded == old(fs).unguarded && fs.kills == old(fs).kills && fs.shell == old(fs).shell
      ensures fs.trees.Keys == old(fs).trees.Keys
      ensures SameButTransactions(old(fs).At(PARENT), fs.At(PARENT))
      ensures r.Pass? ==>
        && SameInstallation(fs, prior) && Names(fs.At(PARENT), Transaction(tag), t)
        && t in fs.directories && t != PARENT && fs.At(t) == map[] && t !in old(fs).directories
        && (sound ==> Unplanned(fs, t))
      ensures r.Fail? ==> r.error == OsError
      ensures calm ==> r.Pass? && fs.trees == old(fs).trees && fs.edited == old(fs).edited
    {
      hide Good, Judge, Enabled, Do, IsRun, Fs.Numbered, Faithful, Durable, Known, Remembers, SameInstallation,
           Unplanned;
      tag := UnusedTag(fs.At(PARENT));
      t := fs.nextId;
      ghost var start := fs;
      MakeDirectoryFacts(fs, tag);
      if sound { MayMakeTransaction(fs, tag); NewIsUnplanned(fs, tag); }
      r := Call(fs.MakeDirectory(Transaction(tag)), MakeTransaction(tag));
      if r.Fail? {
        SyncRemembers(start, fs);
      } else {
        MkdirFacts(start, fs, tag, prior);
        if sound { StillUnplanned(start.MakeDirectory(Transaction(tag)), fs, t); }
      }
    }

    /** Lines 269-271: a fresh transaction directory, known on disk before anything is put in it. */
    method BeginTransaction(prior: Option<Snapshot>) returns (r: Status<Error>, tag: nat, t: Id)
      requires Valid() && Journal !in fs.At(PARENT) && SameInstallation(fs, prior)
      modifies this`fs, this`run
      ensures Valid() && old(run) <= run && Remembers(old(fs), fs)
      ensures fs.unguarded == old(fs).unguarded && fs.kills == old(fs).kills && fs.shell == old(fs).shell
      ensures fs.trees.Keys == old(fs).trees.Keys
      ensures SameButTransactions(old(fs).At(PARENT), fs.At(PARENT))
      ensures r.Pass? ==> Begun(fs, tag, t, prior, sound) && fs.At(t) == map[] && t !in old(fs).directories
      ensures r.Fail? ==> r.error == OsError
      ensures calm ==> r.Pass? && fs.trees == old(fs).trees && fs.edited == old(fs).edited
    {
      hide Good, Judge, Enabled, Do, IsRun, Fs.Numbered, Faithful, Durable, Known, Remembers, SameInstallation,
           Unplanned;
      ghost var start := fs;
      r, tag, t := MakeTransactionDirectory(prior);
      if r.Fail? { return; }
      ghost var made := fs;
      assert SameName(start.At(PARENT), made.At(PARENT), Journal);
      SyncValid(fs, PARENT);
      if sound { MaySync(fs, PARENT); }
      r := Call(fs.Sync(PARENT), SyncDirectory(PARENT));
      SyncedAfterMkdir(made, fs, t, prior);
      RemembersTransitive(start, made, fs);
    }

    /** A system call on the private tree g or inside transaction directory t. */
    method CallApart(tag: nat, t: Id, g: Id, prior: Option<Snapshot>, target: Fs, ghost a: Action)
      returns (r: Status<Error>)
      requires Valid() && target.Valid() && Apart(fs, target, t, g)
      requires InProgress(fs, tag, t, g, prior, sound)
      requires target.At(t) == fs.At(t) && target.directories[t].synced >= fs.directories[t].synced
      requires sound ==> Enabled(fs, a) && target == Do(fs, a)
      modifies this`fs, this`run
      ensures Valid() && old(run) <= run && Apart(old(fs), fs, t, g)
      ensures InProgress(fs, tag, t, g, prior, sound) && fs.At(t) == old(fs).At(t)
      ensures calm ==> r.Pass?
      ensures r.Pass? ==> Drift(target, fs, calm)
      ensures r.Fail? ==> r.error == OsError && Drift(old(fs), fs, calm)
    {
      hide Good, Enabled, Do, Apart, IsRun, Fs.Numbered, Begun;
      ghost var before := fs;
      assert InProgress(before, tag, t, g, prior, sound);
      r := Call(target, a);
      if r.Pass? { TargetIsApart(before, target, fs, t, g); } else { TouchedIsApart(before, fs, t, g); }
      InProgressHas(before, tag, t, g, prior, sound);
      ApartHas(before, fs, t, g);
      StillInProgress(before, fs, tag, t, g, prior, sound);
    }

    /** Writing into the staged tree. */
    method Write(tag: nat, t: Id, g: Id, prior: Option<Snapshot>, tree: Tree) returns (r: Status<Error>)
      requires Valid() && InProgress(fs, tag, t, g, prior, sound)
      modifies this`fs, this`run
      ensures Valid() && old(run) <= run && Apart(old(fs), fs, t, g)
      ensures InProgress(fs, tag, t, g, prior, sound) && fs.At(t) == old(fs).At(t)
      ensures r.Pass? ==> g in fs.edited || fs.trees[g] == tree
      ensures r.Fail? ==> r.error == OsError
      ensures calm ==> r.Pass? && fs.trees == old(fs).trees[g := tree] && fs.edited == old(fs).edited
    {
      hide Good, Enabled, Do, Apart, IsRun, Fs.Numbered, Faithful, Durable, Known, Private, Unplanned;
      RewriteIsApart(fs, g, tree, t);
      if sound { MayWriteStaged(fs, g, tree); }
      r := CallApart(tag, t, g, prior, fs.Rewrite(g, tree), WriteStaged(g, tree));
    }

    /** The staging directory itself. */
    method MakeStaging(tag: nat, t: Id, prior: Option<Snapshot>) returns (r: Status<Error>, g: Id)
      requires Valid() && Begun(fs, tag, t, prior, sound) && fs.At(t) == map[]
      modifies this`fs, this`run
      ensures Valid() && old(run) <= run && Remembers(old(fs), fs)
      ensures fs.unguarded == old(fs).unguarded && fs.kills == old(fs).kills && fs.shell == old(fs).shell
      ensures fs.At(PARENT) == old(fs).At(PARENT)
      ensures r.Pass? ==> InProgress(fs, tag, t, g, prior, sound) && g !in old(fs).trees
      ensures r.Fail? ==> r.error == OsError
      ensures calm ==> r.Pass? && fs.trees == old(fs).trees[g := EMPTY] && fs.edited == old(fs).edited
    {
      hide Good, Enabled, Do, IsRun, Fs.Numbered, Faithful, Durable, Known, Private, Unplanned, Remembers, InProgress;
      ghost var start := fs;
      g := fs.nextId;
      MakeTreeValid(fs, t, New, EMPTY);
      if sound { MayStageTree(fs, t, EMPTY); NewIsPrivate(fs, t, EMPTY); }
      r := Call(fs.MakeTree(t, New, EMPTY), StageTree(t, EMPTY));
      if r.Pass? { StagingMade(start, fs, tag, t, prior, sound); } else { SyncRemembers(start, fs); }
    }

    /** copytree and the programs: lines 274-278. */
    method Copy(tag: nat, t: Id, g: Id, prior: Option<Snapshot>, package: Package, stats: map<string, Stat>)
      returns (r: Status<Error>)
      requires Valid() && InProgress(fs, tag, t, g, prior, sound) && package.built.Some?
      modifies this`fs, this`run
      ensures Valid() && old(run) <= run && Apart(old(fs), fs, t, g)
      ensures InProgress(fs, tag, t, g, prior, sound)
      ensures r.Pass? && g !in fs.edited ==> fs.trees[g] == EMPTY.(entries := Copied(Layout(package), stats))
      ensures r.Fail? ==> r.error == OsError
      ensures calm ==> fs.edited == old(fs).edited && forall x :: x in old(fs).trees && x != g ==>
        fs.trees[x] == old(fs).trees[x]
      ensures calm && r.Pass? ==> fs.trees[g] == EMPTY.(entries := Copied(Layout(package), stats))
      ensures calm && Stageable(package) ==> r.Pass?
    {
      hide Good, Judge, Enabled, Do, IsRun, Fs.Numbered, Apart, InProgress, Layout, Copied, Stageable;
      ghost var start := fs;
      r := Write(tag, t, g, prior, EMPTY.(entries := Copied(package.plugin, stats)));
      ApartHas(start, fs, t, g);
      if r.Fail? { return; }
      ghost var copied := fs;
      InProgressHas(fs, tag, t, g, prior, sound);
      // mkdir of bin/ fails if the sources have one
      if BIN in fs.trees[g].entries { NoBin(package, stats); return Fail(OsError); }
      r := Write(tag, t, g, prior,
                 fs.trees[g].(entries := fs.trees[g].entries + Copied(Programs(package.built.value), stats)));
      ApartHas(copied, fs, t, g);
      ApartTransitive(start, copied, fs, t, g);
      CopiedWhole(package, stats);
    }

    /** The link check and the marker: lines 280-283. */
    method Mark(tag: nat, t: Id, g: Id, prior: Option<Snapshot>, stat: Stat) returns (r: Status<Error>)
      requires Valid() && InProgress(fs, tag, t, g, prior, sound) && g in fs.trees
      modifies this`fs, this`run
      ensures Valid() && old(run) <= run && Apart(old(fs), fs, t, g)
      ensures InProgress(fs, tag, t, g, prior, sound) && g in fs.trees
      ensures r.Pass? ==> g in fs.edited || fs.trees[g] == Marked(old(fs).trees[g], stat)
      ensures r.Fail? ==> r.error.OsError? || r.error.SourceLinks?
      ensures var e := old(fs).trees[g].entries;
        r == Fail(SourceLinks) <==> exists n :: n in e && e[n].Other?
      ensures calm ==> fs.edited == old(fs).edited && forall x :: x in old(fs).trees && x != g ==>
        fs.trees[x] == old(fs).trees[x]
      ensures calm && r.Pass? ==> fs.trees[g] == Marked(old(fs).trees[g], stat)
      ensures var e := old(fs).trees[g].entries;
        (calm && MARKER !in e && forall n :: n in e ==> !e[n].Other?) ==> r.Pass?
    {
      hide Good, Judge, Enabled, Do, IsRun, Fs.Numbered, Apart, InProgress, Marked;
      ApartReflexive(fs, t, g);
      if exists n :: n in fs.trees[g].entries && fs.trees[g].entries[n].Other? { return Fail(SourceLinks); }
      if MARKER in fs.trees[g].entries && fs.trees[g].entries[MARKER].Folder? { return Fail(OsError); }
      ghost var start := fs;
      r := Write(tag, t, g, prior, Marked(fs.trees[g], stat));
      ApartHas(start, fs, t, g);
    }

    /** copytree, the programs, the link check and the marker: lines 274-283. */
    method Fill(tag: nat, t: Id, g: Id, prior: Option<Snapshot>, package: Package) returns (r: Status<Error>)
      requires Valid() && InProgress(fs, tag, t, g, prior, sound) && package.built.Some?
      modifies this`fs, this`run
      ensures Valid() && old(run) <= run && Apart(old(fs), fs, t, g)
      ensures InProgress(fs, tag, t, g, prior, sound) && g in fs.trees
      ensures r.Pass? && g !in fs.edited ==> Carries(fs.trees[g], package)
      ensures r.Fail? ==> r.error.OsError? || r.error.SourceLinks?
      ensures calm ==> fs.edited == old(fs).edited && forall x :: x in old(fs).trees && x != g ==>
        fs.trees[x] == old(fs).trees[x]
      ensures calm && Stageable(package) ==> r.Pass? && Judge(g, fs.trees[g]).Ok?
      ensures calm && r.Pass? ==> Carries(fs.trees[g], package)
    {
      hide Good, Judge, Enabled, Do, IsRun, Fs.Numbered, Apart, InProgress, Carries, Layout, Marked, Copied, Stageable;
      ghost var start := fs;
      var stats: map<string, Stat> := *;
      var stat: Stat := *;
      r := Copy(tag, t, g, prior, package, stats);
      InProgressHas(fs, tag, t, g, prior, sound);
      if r.Fail? { return; }
      ghost var copied := fs;
      NoLinks(package, stats);
      NoMarkerCopied(package, stats);
      r := Mark(tag, t, g, prior, stat);
      ApartTransitive(start, copied, fs, t, g);
      ApartHas(copied, fs, t, g);
      MarkedCarries(package, EMPTY.(entries := Copied(Layout(package), stats)), stats, stat);
      if Stageable(package) {
        StageableIsAccepted(package, g, EMPTY.(entries := Copied(Layout(package), stats)), stats, stat);
      }
    }

    /** `snapshot(staging)`: line 284. */
    method CaptureStaged(tag: nat, t: Id, g: Id, prior: Option<Snapshot>, package: Package)
      returns (r: Result<Snapshot, Error>)
      requires Valid() && InProgress(fs, tag, t, g, prior, sound)
      requires g in fs.trees && (g !in fs.edited ==> Carries(fs.trees[g], package))
      modifies this`fs, this`run
      ensures Valid() && old(run) <= run && Apart(old(fs), fs, t, g) && Drift(old(fs), fs, calm)
      ensures InProgress(fs, tag, t, g, prior, sound)
      ensures r.Ok? || calm ==> r == Judged(old(fs).trees, g)
      ensures r.Err? ==> r.error.Refused?
      ensures r.Ok? ==> r.value.identity == g && Matches(fs, r.value, package)
    {
      hide Good, Judge, IsRun, Fs.Numbered, Apart, InProgress, Carries;
      ghost var start := fs;
      InProgressHas(fs, tag, t, g, prior, sound);
      r := Capture(g);
      TouchedIsApart(start, fs, t, g);
      StillInProgress(start, fs, tag, t, g, prior, sound);
      if r.Ok? {
        SnapshotDescribes(g, start.trees[g]);
        MatchesStays(start, fs, r.value, package);
      }
    }

    /** `sync_tree`: line 285. */
    method SyncStaged(tag: nat, t: Id, prior: Option<Snapshot>, next: Snapshot, package: Package)
      returns (r: Status<Error>)
      requires Valid() && InProgress(fs, tag, t, next.identity, prior, sound) && Matches(fs, next, package)
      modifies this`fs, this`run
      ensures Valid() && old(run) <= run && Apart(old(fs), fs, t, next.identity)
      ensures InProgress(fs, tag, t, next.identity, prior, sound)
      ensures r.Pass? ==> Durable(fs, next) && Matches(fs, next, package)
      ensures r.Fail? ==> r.error == OsError
      ensures calm ==> r.Pass? && fs.trees == old(fs).trees && fs.edited == old(fs).edited
    {
      hide Good, Judge, Enabled, Do, IsRun, Fs.Numbered, Apart, Faithful, Durable, Known, Private, Unplanned, Matches;
      ghost var start := fs;
      var g := next.identity;
      SettleIsApart(fs, g, t);
      if sound { MaySyncTree(fs, g); }
      r := CallApart(tag, t, g, prior, fs.Settle(g), SyncTree(g));
      if r.Pass? { SettledIsDurable(start, fs, next, package); }
    }

    /** Lines 285-286: the staged tree and its directory are made durable. */
    method Settle(tag: nat, t: Id, prior: Option<Snapshot>, next: Snapshot, package: Package) returns (r: Status<Error>)
      requires Valid() && InProgress(fs, tag, t, next.identity, prior, sound) && Matches(fs, next, package)
      modifies this`fs, this`run
      ensures Valid() && old(run) <= run && Apart(old(fs), fs, t, next.identity)
      ensures r.Pass? ==> StagedWell(fs, tag, t, prior, next, sound) && Matches(fs, next, package)
      ensures r.Fail? ==> r.error == OsError
      ensures calm ==> r.Pass? && fs.trees == old(fs).trees && fs.edited == old(fs).edited
    {
      hide Good, Judge, Enabled, Do, IsRun, Fs.Numbered, Apart, Faithful, Durable, Known, Private, Unplanned, Matches;
      ghost var start := fs;
      var g := next.identity;
      r := SyncStaged(tag, t, prior, next, package);
      if r.Fail? { return; }
      ghost var settled := fs;
      InProgressHas(fs, tag, t, g, prior, sound);
      SyncIsApart(fs, t, g);
      if sound { MaySync(fs, t); }
      r := CallApart(tag, t, g, prior, fs.Sync(t), SyncDirectory(t));
      ApartTransitive(start, settled, fs, t, g);
      if r.Pass? {
        DurableStays(settled, fs, next);
        MatchesStays(settled, fs, next, package);
      }
    }

    /** Lines 269-283: the tree is put together. */
    method Assemble(prior: Option<Snapshot>, package: Package) returns (r: Status<Error>, tag: nat, t: Id, g: Id)
      requires Valid() && Journal !in fs.At(PARENT) && SameInstallation(fs, prior) && package.built.Some?
      modifies this`fs, this`run
      ensures Valid() && old(run) <= run && Remembers(old(fs), fs)
      ensures fs.unguarded == old(fs).unguarded && fs.kills == old(fs).kills && fs.shell == old(fs).shell
      ensures SameButTransactions(old(fs).At(PARENT), fs.At(PARENT))
      ensures r.Pass? ==>
        && InProgress(fs, tag, t, g, prior, sound) && t in fs.directories && t != PARENT && g in fs.trees
        && g !in old(fs).trees && t !in old(fs).directories
        && (g !in fs.edited ==> Carries(fs.trees[g], package))
      ensures r.Fail? ==> r.error.OsError? || r.error.SourceLinks?
      ensures calm ==> TreesStand(old(fs), fs)
      ensures calm && Stageable(package) ==> r.Pass? && Judge(g, fs.trees[g]).Ok?
    {
      hide Good, Judge, Enabled, Do, IsRun, Fs.Numbered, Apart, InProgress, Begun, SameInstallation, Stageable,
           Carries, Remembers, Durable, Known, Faithful, TreesStand;
      ghost var start := fs;
      g := 0;
      r, tag, t := BeginTransaction(prior);
      if calm { SameTreesStand(start, fs); }
      if r.Fail? { return; }
      ghost var begun := fs;
      r, g := MakeStaging(tag, t, prior);
      RemembersTransitive(start, begun, fs);
      if calm { NewTreeStands(begun, fs, g); StandTransitive(start, begun, fs); }
      if r.Fail? { return; }
      ghost var made := fs;
      RememberedTree(start, begun, g);
      InProgressHas(fs, tag, t, g, prior, sound);
      r := Fill(tag, t, g, prior, package);
      ApartRemembers(start, made, fs, t, g);
      ApartHas(made, fs, t, g);
      if calm { FilledStand(start, made, fs, g); }
    }

    /** Lines 269-287: a new generation for the package, whole and durable, in a fresh transaction directory. */
    method Stage(prior: Option<Snapshot>, package: Package) returns (r: Status<Error>, tag: nat, t: Id, next: Snapshot)
      requires Valid() && Journal !in fs.At(PARENT) && SameInstallation(fs, prior) && package.built.Some?
      modifies this`fs, this`run
      ensures Valid() && old(run) <= run && Remembers(old(fs), fs)
      ensures fs.unguarded == old(fs).unguarded && fs.kills == old(fs).kills && fs.shell == old(fs).shell
      ensures SameButTransactions(old(fs).At(PARENT), fs.At(PARENT))
      ensures r.Pass? ==> StagedWell(fs, tag, t, prior, next, sound) && Matches(fs, next, package)
      ensures r.Pass? ==> next.identity !in old(fs).trees && t !in old(fs).directories
      ensures r.Fail? ==> r.error.OsError? || r.error.SourceLinks? || r.error.Refused?
      ensures calm ==> TreesStand(old(fs), fs)
      ensures calm && Stageable(package) ==> r.Pass?
    {
      hide Good, Judge, Enabled, Do, IsRun, Fs.Numbered, Apart, InProgress, SameInstallation, Stageable, Carries,
           Remembers, StagedWell, Matches, Durable, Known, Faithful, TreesStand;
      ghost var start := fs;
      next := Snapshot(0, 0, 0, 0, map[]);
      var g;
      r, tag, t, g := Assemble(prior, package);
      if r.Fail? { return; }
      ghost var filled := fs;
      var captured := CaptureStaged(tag, t, g, prior, package);
      ApartRemembers(start, filled, fs, t, g);
      if calm { SameTreesStand(filled, fs); StandTransitive(start, filled, fs); }
      if captured.Err? { r := Fail(captured.error); return; }
      next := captured.value;
      ghost var seen := fs;
      r := Settle(tag, t, prior, next, package);
      ApartTransitive(filled, seen, fs, t, g);
      ApartRemembers(start, filled, fs, t, g);
      if calm { SameTreesStand(filled, fs); StandTransitive(start, filled, fs); }
    }

    /** `write_record` of the plan: line 290. */
    method WritePlanFile(tag: nat, t: Id, prior: Option<Snapshot>, next: Snapshot) returns (r: Status<Error>, q: Id)
      requires Valid() && StagedWell(fs, tag, t, prior, next, sound)
      modifies this`fs, this`run
      ensures Valid() && old(run) <= run && t in old(fs).directories && Within(old(fs), fs, t)
      ensures r.Pass? ==> Planned(fs, q, Plan(tag, t, prior, next)) && q !in fs.unsettled
      ensures r.Fail? ==> r.error == OsError
      ensures calm ==> r.Pass? && fs.trees == old(fs).trees && fs.edited == old(fs).edited
    {
      hide Good, Judge, Within, Enabled, Do, IsRun, Fs.Numbered, Durable, Known, Faithful, Private, Unplanned,
           Planned, Staging;
      ghost var start := fs;
      ghost var plan := Plan(tag, t, prior, next);
      q := fs.nextId;
      PlanIsWithin(fs, t, Plan(tag, t, prior, next));
      if sound { StagedIsStaging(fs, tag, t, prior, next); MayWritePlan(fs, t, plan); }
      r := CallWithin(t, fs.MakeRecord(t, PlanFile, PlanRecord(Plan(tag, t, prior, next))), WritePlan(t, plan));
      if r.Fail? { return; }
      ghost var written := fs;
      PlanWritten(start, fs, tag, t, prior, next, sound);
      assert q in fs.records;
      hide StagedWell;
      SettleIsWithin(fs, q, t);
      if sound { MaySyncRecord(fs, q); }
      r := CallWithin(t, fs.Settle(q), SyncRecord(q));
      WithinTransitive(start, written, fs, t);
      if r.Pass? {
        RecordIsSettled(written, fs, q);
        StillPlanned(written, fs, q, plan);
      }
    }

    /** Lines 290-292: the plan, whole and durable. */
    method WriteDurablePlan(tag: nat, t: Id, prior: Option<Snapshot>, next: Snapshot) returns (r: Status<Error>, q: Id)
      requires Valid() && StagedWell(fs, tag, t, prior, next, sound)
      modifies this`fs, this`run
      ensures Valid() && old(run) <= run && t in old(fs).directories && t != PARENT && Within(old(fs), fs, t)
      ensures r.Pass? ==> Planned(fs, q, Plan(tag, t, prior, next)) && q !in fs.unsettled && fs.Synced(t)
      ensures r.Fail? ==> r.error == OsError
      ensures calm ==> r.Pass? && fs.trees == old(fs).trees && fs.edited == old(fs).edited
    {
      hide Good, Judge, Within, Enabled, Do, IsRun, Fs.Numbered, Durable, Known, Faithful, Private, Unplanned,
           Planned, Remembers;
      ghost var start := fs;
      r, q := WritePlanFile(tag, t, prior, next);
      if r.Fail? { return; }
      ghost var written := fs;
      PlannedHas(fs, q, Plan(tag, t, prior, next));
      r := SyncTransaction(t);
      WithinTransitive(start, written, fs, t);
      if r.Pass? {
        StillPlanned(written, fs, q, Plan(tag, t, prior, next));
        WithinKeepsSettled(written, fs, t, q);
      }
    }

    /** Lines 290-296: the plan becomes the journal, atomically. */
    method WriteJournal(tag: nat, t: Id, prior: Option<Snapshot>, next: Snapshot) returns (r: Status<Error>, q: Id)
      requires Valid() && StagedWell(fs, tag, t, prior, next, sound)
      modifies this`fs, this`run
      ensures Valid() && old(run) <= run && Remembers(old(fs), fs)
      ensures fs.unguarded == old(fs).unguarded && fs.kills == old(fs).kills && fs.shell == old(fs).shell
      ensures fs.At(PARENT) == old(fs).At(PARENT) || fs.At(PARENT) == old(fs).At(PARENT)[Journal := q]
      ensures r.Pass? ==>
        && fs.At(PARENT) == old(fs).At(PARENT)[Journal := q] && fs.Synced(PARENT)
        && q in fs.records && fs.records[q] == PlanRecord(Plan(tag, t, prior, next)) && q !in fs.unsettled
      ensures r.Fail? ==> r.error == OsError
      ensures calm ==> r.Pass? && fs.trees == old(fs).trees && fs.edited == old(fs).edited
    {
      hide Good, Judge, Within, Enabled, Do, IsRun, Fs.Numbered, Durable, Known, Faithful, Private, Unplanned,
           Planned, Remembers, StagedWell, Undisturbed;
      ghost var start := fs;
      ghost var plan := Plan(tag, t, prior, next);
      r, q := WriteDurablePlan(tag, t, prior, next);
      WithinKeepsParent(start, fs, t);
      if r.Fail? { return; }
      ghost var written := fs;
      PlannedHas(fs, q, plan);
      LinkValid(fs, PARENT, Journal, q);
      if sound { PlannedMayLink(fs, q, plan); }
      r := Call(fs.Link(PARENT, Journal, q), LinkJournal(q));
      LinkRemembers(written, fs, q);
      RemembersTransitive(start, written, fs);
      if r.Fail? { return; }
      ghost var linked := fs;
      r := SyncParent();
      QuietFacts(linked, fs);
      RemembersTransitive(start, linked, fs);
      RecordRemembered(linked, fs, q);
    }

    /** Lines 255-259: whether there is an installation, and that it may be replaced. */
    method CaptureInstalled(replace: bool) returns (r: Result<Option<Snapshot>, Error>)
      requires Valid()
      modifies this`fs, this`run
      ensures Valid() && old(run) <= run && Drift(old(fs), fs, calm)
      ensures r.Ok? ==> MayReplace(old(fs), replace)
      ensures calm && MayReplace(old(fs), replace) ==> r.Ok?
      ensures r.Ok? ==> SameInstallation(fs, r.value) && Was(old(fs), r.value)
      ensures Destination in old(fs).At(PARENT) && !replace ==> r == Err(DestinationExists)
      ensures r.Err? ==> r.error == DestinationExists || r.error.Refused?
    {
      hide Good, Judge, IsRun, Fs.Numbered;
      if Destination !in fs.At(PARENT) { return Ok(None); }
      if !replace { return Err(DestinationExists); }
      ghost var start := fs;
      var g := fs.At(PARENT)[Destination];
      var captured := Capture(g);
      if captured.Err? { return Err(captured.error); }
      CapturedIsSame(start, fs, captured.value);
      SnapshotDescribes(g, start.trees[g]);
      r := Ok(Some(captured.value));
    }

    /** Lines 269-296: stage the package and journal the plan. */
    method StageAndJournal(prior: Option<Snapshot>, package: Package) returns (r: Status<Error>, q: Id, plan: Plan)
      requires Valid() && Journal !in fs.At(PARENT) && SameInstallation(fs, prior) && package.built.Some?
      modifies this`fs, this`run
      ensures Valid() && old(run) <= run && Remembers(old(fs), fs)
      ensures fs.unguarded == old(fs).unguarded && fs.kills == old(fs).kills && fs.shell == old(fs).shell
      ensures SameName(old(fs).At(PARENT), fs.At(PARENT), Destination)
      ensures SameName(old(fs).At(PARENT), fs.At(PARENT), RestartIntent)
      ensures r.Pass? ==>
        && Names(fs.At(PARENT), Journal, q) && q in fs.records && fs.records[q] == PlanRecord(plan)
        && fs.Synced(PARENT) && q !in fs.unsettled
        && plan.before == prior && plan.after.identity !in old(fs).trees && plan.transaction !in old(fs).directories
        && Matches(fs, plan.after, package)
      ensures r.Fail? ==> r.error.OsError? || r.error.SourceLinks? || r.error.Refused?
      ensures calm ==> TreesStand(old(fs), fs)
      ensures calm && Stageable(package) ==> r.Pass?
    {
      hide Good, Judge, Judged, Remembers, Enabled, Do, IsRun, Fs.Numbered,
           SameInstallation, StagedWell, Stageable, Matches, TreesStand;
      ghost var start := fs;
      q, plan := 0, Plan(0, 0, prior, Snapshot(0, 0, 0, 0, map[]));
      var tag, t, next;
      r, tag, t, next := Stage(prior, package);
      ShellNamesStay(start, fs, fs, q);
      if r.Fail? { return; }
      ghost var staged := fs;
      plan := Plan(tag, t, prior, next);
      r, q := WriteJournal(tag, t, prior, next);
      RemembersTransitive(start, staged, fs);
      ShellNamesStay(start, staged, fs, q);
      if calm { SameTreesStand(staged, fs); StandTransitive(start, staged, fs); }
      if r.Pass? { MatchesRemembered(staged, fs, next, package); }
    }

    /** Lines 255-296: check what there is to replace, then stage and journal. */
    method Prepare(replace: bool, package: Package) returns (r: Status<Error>, q: Id, plan: Plan)
      requires Valid() && Journal !in fs.At(PARENT)
      modifies this`fs, this`run
      ensures Valid() && old(run) <= run && Remembers(old(fs), fs)
      ensures fs.unguarded == old(fs).unguarded && fs.kills == old(fs).kills && fs.shell == old(fs).shell
      ensures SameName(old(fs).At(PARENT), fs.At(PARENT), Destination)
      ensures SameName(old(fs).At(PARENT), fs.At(PARENT), RestartIntent)
      ensures r.Pass? ==>
        && Names(fs.At(PARENT), Journal, q) && q in fs.records && fs.records[q] == PlanRecord(plan)
        && fs.Synced(PARENT) && q !in fs.unsettled
        && Was(old(fs), plan.before)
        && plan.after.identity !in old(fs).trees && plan.transaction !in old(fs).directories
        && Matches(fs, plan.after, package)
      ensures r.Fail? && r.error in {DestinationExists, NotBuilt} ==> Drift(old(fs), fs, calm)
      ensures Destination in old(fs).At(PARENT) && !replace ==> r == Fail(DestinationExists)
      ensures r.Fail? ==> r.error != Abandoned && !OfShell(r.error)
      ensures calm ==> TreesStand(old(fs), fs)
      ensures calm && Stageable(package) && MayReplace(old(fs), replace) ==> r.Pass?
    {
      assert Stageable(package) ==> package.built.Some?;
      hide Good, Judge, Judged, Remembers, Enabled, Do, IsRun, Fs.Numbered,
           SameInstallation, Stageable, Matches, TreesStand, Resumable, Was, MayReplace, Drift, Touched, Fs.Synced;
      ghost var start := fs;
      q, plan := 0, Plan(0, 0, None, Snapshot(0, 0, 0, 0, map[]));
      var captured := CaptureInstalled(replace);
      TouchedRemembers(start, fs, calm);
      if captured.Err? { return Fail(captured.error), q, plan; }
      if package.built.None? { return Fail(NotBuilt), q, plan; }
      ghost var seen := fs;
      r, q, plan := StageAndJournal(captured.value, package);
      TouchedBefore(start, seen, fs, calm);
    }

    /** Lines 255-297: stage the package, journal the plan, and carry it out. */
    method InstallFresh(replace: bool, stop: bool, package: Package) returns (r: Status<Error>)
      requires Valid() && Journal !in fs.At(PARENT) && (stop ==> HookReady())
      modifies this
      ensures Valid() && old(run) <= run
      ensures fs.kills <= old(fs).kills + 1 && (fs.kills != old(fs).kills ==> restart && !old(restart) && !locked)
      ensures old(restart) ==> restart
      ensures stop ==> fs.unguarded == old(fs).unguarded
      ensures Remembers(old(fs), fs)
      ensures old(Announced()) ==> Announced()
      ensures r.Fail? ==> !OfShell(r.error)
      ensures r.Pass? ==> Installed(old(fs), fs, package) && (stop ==> restart && HookReady())
      ensures r.Pass? && sound ==> Superseded(old(fs), fs) && Complete(fs)
      ensures r.Fail? && r.error != OsError ==> SameName(old(fs).At(PARENT), fs.At(PARENT), Destination)
      ensures r.Fail? && r.error == Abandoned ==> Journal !in fs.At(PARENT)
      ensures r.Fail? && r.error in {DestinationExists, NotBuilt} ==> Drift(old(fs), fs, calm)
      ensures Destination in old(fs).At(PARENT) && !replace ==> r == Fail(DestinationExists)
      ensures calm && sound && Stageable(package) && MayReplace(old(fs), replace) ==> r.Pass?
      ensures calm ==> TreesStand(old(fs), fs)
    {
      hide Good, Judge, Judged, Undisturbed, RefusedCleanly, Remembers, Enabled, Do, IsRun, Fs.Numbered, Retired,
           Stageable, Matches, TreesStand, Installed, Superseded, Complete, Resumable, Was, MayReplace;
      ghost var start := fs;
      var q, plan;
      r, q, plan := Prepare(replace, package);
      if r.Fail? { return; }
      ghost var journaled := fs;
      FreshIsElsewhere(start, fs, plan, package);
      if calm { FreshResumes(start, fs, q, plan, package); }
      r := FinishTransaction(stop);
      RemembersTransitive(start, journaled, fs);
      if calm { SameTreesStand(journaled, fs); StandTransitive(start, journaled, fs); }
      if r.Pass? {
        FreshFinished(start, journaled, fs, q, plan, package, sound);
      } else if r.error != OsError {
        RefusalKeepsDestination(journaled, fs);
      }
    }

    /** Lines 247-254: finish the transaction an earlier invocation journaled, if there is one. */
    method Recover(stop: bool) returns (r: Status<Error>)
      requires Valid() && Journal in fs.At(PARENT) && (stop ==> HookReady())
      modifies this
      ensures Valid() && old(run) <= run
      ensures fs.kills <= old(fs).kills + 1 && (fs.kills != old(fs).kills ==> restart && !old(restart) && !locked)
      ensures old(restart) ==> restart
      ensures stop ==> fs.unguarded == old(fs).unguarded
      ensures Remembers(old(fs), fs) && old(fs).trees.Keys == fs.trees.Keys
      ensures old(Announced()) ==> Announced()
      ensures r.Fail? ==> !OfShell(r.error)
      ensures r.Pass? ==> Journal !in fs.At(PARENT) && (stop ==> HookReady())
      ensures r.Pass? ==> ToSupersede(old(fs)).Some? && Names(fs.At(PARENT), Destination, ToSupersede(old(fs)).value)
      ensures calm && sound && Recovers(old(fs), true) ==> r.Pass? && MayReplace(fs, true)
      ensures calm ==> TreesStand(old(fs), fs)
    {
      hide Good, Judge, Judged, Undisturbed, RefusedCleanly, Remembers, Enabled, Do, IsRun, Fs.Numbered, Retired,
           TreesStand, Resumable, Finished, MayReplace;
      ghost var start := fs;
      r := FinishTransaction(stop);
      if calm { SameTreesStand(start, fs); }
      if r.Pass? {
        RecoveredMayReplace(start, fs, true);
        FinishedHasNoJournal(fs, start.records[start.At(PARENT)[Journal]].plan);
      }
    }

    /** `install_locked`: finish whatever an earlier invocation left, then install what is asked for now. */
    method InstallLocked(replace: bool, stop: bool, package: Package) returns (r: Status<Error>)
      requires Valid() && (stop ==> HookReady())
      modifies this
      ensures Valid() && old(run) <= run
      // One shell stop and no unguarded publication, even when recovery and the request both publish.
      ensures fs.kills <= old(fs).kills + 1 && (fs.kills != old(fs).kills ==> restart && !old(restart) && !locked)
      ensures old(restart) ==> restart
      ensures stop ==> fs.unguarded == old(fs).unguarded
      ensures Remembers(old(fs), fs)
      ensures old(Announced()) ==> Announced()
      ensures r.Fail? ==> !OfShell(r.error)
      // The current request's package is installed, whatever the journal was for.
      ensures r.Pass? ==> Installed(old(fs), fs, package) && (stop ==> restart && HookReady())
      ensures r.Pass? && sound ==> Complete(fs)
      // What it supersedes is put aside, even a generation that only its own recovery installed.
      ensures r.Pass? && sound && ToSupersede(old(fs)).Some? ==> PutAside(fs, ToSupersede(old(fs)).value)
      ensures sound && old(fs).Synced(PARENT) && Destination in old(fs).At(PARENT) ==>
        Kept(fs, old(fs).At(PARENT)[Destination])
      ensures r.Fail? && r.error in {DestinationExists, NotBuilt} && Journal !in old(fs).At(PARENT) ==>
        Drift(old(fs), fs, calm)
      // Recovery convergence.
      ensures Journal !in old(fs).At(PARENT) && Destination in old(fs).At(PARENT) && !replace ==>
        r == Fail(DestinationExists)
      ensures calm && sound && Stageable(package) && Recovers(old(fs), replace) ==> r.Pass?
      ensures calm ==> TreesStand(old(fs), fs)
    {
      hide Good, Judge, Judged, Remembers, Enabled, Do, IsRun, Fs.Numbered,
           Stageable, TreesStand, Installed, Superseded, Complete, Recovers, MayReplace, Kept, PutAside, ToSupersede,
           HookReady, Announced, Drift;
      ghost var start := fs;
      if Journal in fs.At(PARENT) {
        RecoversAnyway(fs, replace);
        r := Recover(stop);
        if r.Pass? {
          ghost var recovered := fs;
          r := InstallFresh(true, stop, package);
          RemembersTransitive(start, recovered, fs);
          if calm { StandTransitive(start, recovered, fs); }
          if r.Pass? { InstalledSince(start, recovered, fs, package); }
          if r.Pass? && sound { SupersededIsAside(recovered, fs, ToSupersede(start)); }
        }
      } else {
        MayReplaceNow(fs, replace);
        NothingToRecover(fs);
        r := InstallFresh(replace, stop, package);
        if r.Pass? && sound { SupersededIsAside(start, fs, ToSupersede(start)); }
      }
      if sound && start.Synced(PARENT) && Destination in start.At(PARENT) {
        KeptSince(old(run), run, start.At(PARENT)[Destination]);
      }
    }

    /** Lines 367-371: an invocation that died owes the desktop a restart. */
    method SettleIntent() returns (r: Status<Error>)
      requires Valid()
      modifies this`fs, this`run
      ensures Valid() && old(run) <= run && Undisturbed(old(fs), fs)
      ensures fs.kills == old(fs).kills
      ensures r.Pass? ==> RestartIntent !in fs.At(PARENT)
      ensures r.Pass? && RestartIntent in old(fs).At(PARENT) ==> fs.shell == Running && fs.Synced(PARENT)
      ensures r == Fail(UnrecognizedIntent) <==> ForeignIntent(old(fs))
      ensures r == Fail(UnrecognizedIntent) || RestartIntent !in old(fs).At(PARENT) ==> fs == old(fs)
      ensures r.Fail? ==> 
        r.error.UnrecognizedIntent? || r.error.OsError? || r.error.CommandFailed?
      ensures calm && sound ==> r.Pass?
      ensures calm ==> fs.trees == old(fs).trees && fs.edited == old(fs).edited
    {
      hide Good, Judge, Undisturbed, Enabled, Do, IsRun, Fs.Numbered;
      QuietReflexive(fs);
      if RestartIntent !in fs.At(PARENT) { return Pass; }
      if sound { IntentIsRecognized(fs); }
      var x := fs.At(PARENT)[RestartIntent];
      if x !in fs.records || fs.records[x] != IntentRecord { return Fail(UnrecognizedIntent); }
      r := RestartShell();
    }

    /** The `finally` clause: whatever became of the installation, a shell that was to be stopped is restarted. */
    method RestartIfOwed(done: Status<Error>) returns (r: Status<Error>)
      requires Valid() && Announced() && (done.Fail? ==> !OfShell(done.error))
      modifies this`fs, this`run
      ensures Valid() && old(run) <= run && Undisturbed(old(fs), fs)
      ensures fs.kills == old(fs).kills
      ensures r == done || (r == Fail(RestartFailed) && restart && !calm)
      ensures restart && r != Fail(RestartFailed) ==> ShellBack() && fs.Synced(PARENT)
      ensures calm ==> fs.trees == old(fs).trees && fs.edited == old(fs).edited
    {
      hide Good, Judge, Undisturbed, Enabled, Do, IsRun, Fs.Numbered;
      QuietReflexive(fs);
      r := done;
      if restart {
        var restarted := RestartShell();
        if restarted.Fail? { r := Fail(RestartFailed); }
      }
    }

    /** Lines 372-379: install with the hook, and restart the shell whatever becomes of that. */
    method InstallQuiesced(package: Package) returns (r: Status<Error>)
      requires Valid() && !restart && RestartIntent !in fs.At(PARENT)
      modifies this
      ensures Valid() && old(run) <= run
      ensures fs.unguarded == old(fs).unguarded && fs.kills <= old(fs).kills + 1
      ensures r.Pass? ==> Installed(old(fs), fs, package) && ShellBack()
      ensures r.Pass? && sound ==> Complete(fs)
      ensures r.Pass? && sound && ToSupersede(old(fs)).Some? ==> PutAside(fs, ToSupersede(old(fs)).value)
      ensures fs.kills != old(fs).kills ==> restart && !locked
      ensures restart && r != Fail(RestartFailed) ==> ShellBack()
      ensures r == Fail(RestartFailed) ==> restart && !calm
      ensures r != Fail(UnrecognizedIntent)
      ensures Remembers(old(fs), fs)
      ensures calm && sound && Stageable(package) && Recovers(old(fs), true) ==> r.Pass?
      ensures calm ==> TreesStand(old(fs), fs)
    {
      hide Good, Judge, Judged, Undisturbed, Remembers, Enabled, Do, IsRun, Fs.Numbered,
           Stageable, TreesStand, Installed, Complete, Recovers, Kept, PutAside, ToSupersede, ShellBack;
      ghost var start := fs;
      r := InstallLocked(true, true, package);
      ghost var installed := fs;
      r := RestartIfOwed(r);
      QuietAfter(start, installed, fs, calm);
      if r.Pass? { StillDone(start, installed, fs, package, sound); }
    }

    /** `replace_enabled`: install with the shell stopped exactly around what is published. */
    method ReplaceEnabled(package: Package) returns (r: Status<Error>)
      requires Valid()
      modifies this
      ensures Valid() && old(run) <= run
      // Nothing is published while the shell runs, and it is stopped at most once.
      ensures fs.unguarded == old(fs).unguarded
      ensures fs.kills <= old(fs).kills + 1
      // A normal end has the package installed, the shell running, and no restart owed.
      ensures r.Pass? ==> Installed(old(fs), fs, package)
      ensures r.Pass? ==> ShellBack()
      ensures r.Pass? && sound ==> Complete(fs)
      ensures r.Pass? && sound && ToSupersede(old(fs)).Some? ==> PutAside(fs, ToSupersede(old(fs)).value)
      // However the installation ends: once the shell has been announced to stop, it is restarted, and
      // only a restart that fails itself leaves it stopped, with the intent to restart it.
      ensures fs.kills != old(fs).kills ==> restart && !locked
      ensures restart && r != Fail(RestartFailed) ==> ShellBack()
      ensures r == Fail(RestartFailed) ==> restart && !calm
      ensures sound && fs.shell == Stopped ==> RestartIntent in fs.At(PARENT)
      // An intent nobody here has written is refused before anything else.
      ensures r == Fail(UnrecognizedIntent) <==> ForeignIntent(old(fs))
      ensures r == Fail(UnrecognizedIntent) ==> fs == old(fs)
      ensures Remembers(old(fs), fs)
      ensures calm && sound && Stageable(package) && Recovers(old(fs), true) ==> r.Pass?
      ensures calm ==> TreesStand(old(fs), fs)
    {
      hide Good, Judge, Judged, Undisturbed, Remembers, Enabled, Do, IsRun, Fs.Numbered,
           Stageable, TreesStand, Installed, Complete, Recovers, Kept, PutAside, ToSupersede, ForeignIntent, ShellBack;
      ghost var start := fs;
      restart := false;
      r := SettleIntent();
      QuietBefore(start, fs, fs, calm);
      if r.Pass? {
        ghost var settled := fs;
        StillRecovers(start, fs);
        if sound { StillToSupersede(start, fs); }
        r := InstallQuiesced(package);
        QuietBefore(start, settled, fs, calm);
        if r.Pass? { InstalledSince(start, settled, fs, package); }
      }
      if sound { StoppedIsAnnounced(fs); }
    }
  }
}
