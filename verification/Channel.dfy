/**
 `current` and `update` of scripts/omabit-channel.py as steps over branch refs: local refs
 only ever move forward, and a diverged branch is never checked out.
 */
module Channel {
  import opened Wrappers

  /** A commit is its contents and its whole history. */
  datatype Commit = Commit(content: nat, parents: seq<Commit>)

  /** git merge-base --is-ancestor */
  predicate IsAncestor(a: Commit, c: Commit) {
    a == c || exists i :: 0 <= i < |c.parents| && IsAncestor(a, c.parents[i])
  }

  lemma {:induction false} AncestorTransitive(a: Commit, b: Commit, c: Commit)
    requires IsAncestor(a, b) && IsAncestor(b, c)
    ensures IsAncestor(a, c)
  {
    if b != c {
      var i :| 0 <= i < |c.parents| && IsAncestor(b, c.parents[i]);
      AncestorTransitive(a, b, c.parents[i]);
    }
  }

  /** The longest way from c to a root. */
  function Generation(c: Commit): nat
    decreases c, 1
  {
    Oldest(c, |c.parents|)
  }

  function Oldest(c: Commit, n: nat): (g: nat)
    requires n <= |c.parents|
    ensures forall i :: 0 <= i < n ==> Generation(c.parents[i]) < g
    decreases c, 0, n
  {
    if n == 0 then 0 else
      var rest, last := Oldest(c, n - 1), Generation(c.parents[n - 1]);
      if last < rest then rest else last + 1
  }

  lemma {:induction false} AncestorIsOlder(a: Commit, c: Commit)
    requires IsAncestor(a, c) && a != c
    ensures Generation(a) < Generation(c)
  {
    var i :| 0 <= i < |c.parents| && IsAncestor(a, c.parents[i]);
    if a != c.parents[i] { AncestorIsOlder(a, c.parents[i]); }
  }

  // Refs

  type Refs = map<string, Commit>

  datatype Head = On(branch: string) | Detached(commit: Commit)

  datatype Manifest = Manifest(plugin: bool, channel: Option<string>)

  datatype Error =
    | LocalChanges | NotCanonicalOrigin | NotThePlugin | NoChannel | Busy
    | FetchFailed | WrongDistribution | Diverged | SwitchFailed | NotFastForward | MergeFailed | ShellFailed

  const CHANNELS: map<string, string> := map["stable" := "master", "edge" := "edge", "develop" := "develop"]

  const REPOSITORIES: set<string> := {
    "https://github.com/thelifeandtimes/omabit.git", "https://github.com/thelifeandtimes/omabit"}

  function ChannelOf(target: string): string {
    if target == "master" then "stable" else target
  }

  function Channel(m: Manifest): string {
    if m.channel.Some? then m.channel.value else "stable"
  }

  /** Every ref of a is in b, at the same commit or a descendant. */
  ghost predicate Forward(a: Refs, b: Refs) {
    forall n :: n in a ==> n in b && IsAncestor(a[n], b[n])
  }

  lemma ForwardTransitive(a: Refs, b: Refs, c: Refs)
    requires Forward(a, b) && Forward(b, c)
    ensures Forward(a, c)
  {
    forall n | n in a ensures n in c && IsAncestor(a[n], c[n]) {
      AncestorTransitive(a[n], b[n], c[n]);
    }
  }

  lemma OwnAncestor(c: Commit)
    ensures IsAncestor(c, c)
  {
  }

  /** The local branches, and what is checked out. */
  datatype Branches = Branches(heads: Refs, head: Head) {
    /** git branch --show-current */
    function Current(): string {
      if head.On? then head.branch else ""
    }
  }

  /**
   What becomes of a command: it works, or it fails or runs out of time, before it has changed
   anything, halfway, or when everything is done.
   */
  datatype Fate = Works | FailsBefore | FailsHalfway | FailsAfter

  /**
   One call of `update`: the channel asked for, whether the desktop is idle, the remote's branches
   when fetched, what becomes of the git commands, and whether the shell takes notice.
   */
  datatype Request = Request(channel: Option<string>, idle: bool, upstream: Refs,
                             fetching: Fate, switching: Fate, merging: Fate, noticed: bool)

  /** CHANNELS.get(channel) if a channel is named, else the current branch. */
  function Target(branch: string, channel: Option<string>): string {
    if channel.None? then branch
    else if channel.value in CHANNELS then CHANNELS[channel.value] else ""
  }

  /** The branch to switch to has commits the remote does not have. */
  predicate TargetDiverged(s: Branches, q: Request) {
    var target := Target(s.Current(), q.channel);
    && target != s.Current() && target in s.heads && target in q.upstream
    && !IsAncestor(s.heads[target], q.upstream[target])
  }

  /** The target is checked out at the fetched remote commit, or was checked out and ahead of it. */
  predicate AtRemote(s: Branches, t: Branches, q: Request) {
    var target := Target(s.Current(), q.channel);
    && t.head == On(target) && target in t.heads && target in q.upstream && target in CHANNELS.Values
    && (|| t.heads[target] == q.upstream[target]
        || (s.head == On(target) && t.heads == s.heads && IsAncestor(q.upstream[target], t.heads[target])))
  }

  /** git switch, or switch --create. */
  function AfterSwitch(s: Branches, target: string, tip: Commit, fate: Fate): Branches {
    if s.head == On(target) || fate == FailsBefore then s else
      var heads := if target in s.heads then s.heads else s.heads[target := tip];
      Branches(heads, if fate == FailsHalfway then s.head else On(target))
  }

  /** git merge --ff-only */
  function AfterMerge(s: Branches, target: string, tip: Commit, fate: Fate): Branches
    requires target in s.heads
  {
    if (fate == Works || fate == FailsAfter) && IsAncestor(s.heads[target], tip) then
      s.(heads := s.heads[target := tip])
    else s
  }

  /** Whether a call that fails has got far enough to leave a trace in the branches or the checkout. */
  predicate LeavesTrace(s: Branches, q: Request)
    requires Target(s.Current(), q.channel) in q.upstream
  {
    var target := Target(s.Current(), q.channel);
    if target != s.Current() then
      || q.switching == Works || q.switching == FailsAfter
      || (q.switching == FailsHalfway && target !in s.heads)
    else
      && target in s.heads && s.heads[target] != q.upstream[target] && IsAncestor(s.heads[target], q.upstream[target])
      && (q.merging == Works || q.merging == FailsAfter)
  }

  /** What one call may have done. */
  ghost predicate Updated(s: Branches, t: Branches, q: Request, r: Status<Error>) {
    var target := Target(s.Current(), q.channel);
    // Local refs only move forward, and only the target's moves.
    && Forward(s.heads, t.heads)
    && (forall n :: n != target ==> (n in t.heads <==> n in s.heads) && (n in t.heads ==> t.heads[n] == s.heads[n]))
    && (t.head == s.head || t.head == On(target))
    // A diverged target other than the current branch is never checked out.
    && (TargetDiverged(s, q) ==> r.Fail? && t == s)
    && (r.Pass? ==> AtRemote(s, t, q))
    // Only a switch, a merge or what follows them can fail with something changed.
    && (r.Fail? && r.error !in {SwitchFailed, MergeFailed, ShellFailed} ==> t == s)
  }

  /** The branches before, between and after a sequence of calls. */
  ghost predicate Updates(history: seq<Branches>, requests: seq<Request>, results: seq<Status<Error>>) {
    && |history| == |requests| + 1 && |results| == |requests|
    && forall k :: 0 <= k < |requests| ==> Updated(history[k], history[k + 1], requests[k], results[k])
  }

  /** Over any sequence of calls, every ref has gone forward. */
  lemma {:induction false} RefsOnlyAdvance(history: seq<Branches>, requests: seq<Request>, results: seq<Status<Error>>,
                                           i: nat, j: nat)
    requires Updates(history, requests, results) && i <= j < |history|
    ensures Forward(history[i].heads, history[j].heads)
  {
    hide IsAncestor, AtRemote, TargetDiverged;
    if i < j {
      RefsOnlyAdvance(history, requests, results, i, j - 1);
      assert Updated(history[j - 1], history[j], requests[j - 1], results[j - 1]);
      ForwardTransitive(history[i].heads, history[j - 1].heads, history[j].heads);
    } else {
      var heads := history[i].heads;
      forall n | n in heads ensures IsAncestor(heads[n], heads[n]) { OwnAncestor(heads[n]); }
    }
  }

  /** A ref that has left a commit never comes back to it. */
  lemma NoRefReturns(history: seq<Branches>, requests: seq<Request>, results: seq<Status<Error>>,
                     i: nat, j: nat, k: nat, n: string)
    requires Updates(history, requests, results) && i <= j <= k < |history| && n in history[i].heads
    ensures n in history[j].heads && n in history[k].heads
    ensures history[i].heads[n] == history[k].heads[n] ==> history[j].heads[n] == history[i].heads[n]
  {
    RefsOnlyAdvance(history, requests, results, i, j);
    RefsOnlyAdvance(history, requests, results, j, k);
    hide IsAncestor, Updates;
    var a, b, c := history[i].heads[n], history[j].heads[n], history[k].heads[n];
    if a == c && b != a {
      AncestorIsOlder(a, b);
      AncestorIsOlder(b, c);
    }
  }

  class Checkout {
    var heads: Refs
    var remotes: Refs
    var head: Head
    const clean: bool
    const origin: string
    /** manifest.json of a commit. */
    const manifest: Commit -> Manifest

    constructor (heads: Refs, remotes: Refs, head: Head, clean: bool, origin: string, manifest: Commit -> Manifest)
      requires head.On? ==> head.branch in heads && head.branch != ""
      ensures Valid() && this.heads == heads && this.remotes == remotes && this.head == head
      ensures this.clean == clean && this.origin == origin && this.manifest == manifest
    {
      this.heads, this.remotes, this.head := heads, remotes, head;
      this.clean, this.origin, this.manifest := clean, origin, manifest;
    }

    predicate Valid()
      reads this
    {
      head.On? ==> head.branch in heads && head.branch != ""
    }

    function Now(): Branches
      reads this
    {
      Branches(heads, head)
    }

    function HeadCommit(): Commit
      requires Valid()
      reads this
    {
      if head.On? then heads[head.branch] else head.commit
    }

    /** `current`: the name of the branch whose tip is checked out, "" for none, of a clean canonical checkout. */
    method Current() returns (r: Result<string, Error>)
      requires Valid()
      ensures r.Ok? <==>
        && clean && manifest(HeadCommit()).plugin
        && origin in {"https://github.com/thelifeandtimes/omabit.git", "https://github.com/thelifeandtimes/omabit"}
      ensures r.Ok? && r.value == "" ==> head.Detached?
      ensures r.Ok? && r.value != "" ==> head == On(r.value) && r.value in heads && heads[r.value] == HeadCommit()
      ensures r.Ok? ==> r.value == Now().Current()
      ensures r.Err? ==> r.error in {LocalChanges, NotCanonicalOrigin, NotThePlugin}
    {
      if !clean { return Err(LocalChanges); }
      if origin !in REPOSITORIES { return Err(NotCanonicalOrigin); }
      if !manifest(HeadCommit()).plugin { return Err(NotThePlugin); }
      r := Ok(if head.On? then head.branch else "");
    }

    /** git fetch of one branch; that git refuses a rewritten one is a way to fail. */
    method Fetch(target: string, q: Request) returns (r: Status<Error>)
      modifies this`remotes
      ensures r.Pass? <==> target in q.upstream && q.fetching == Works
      ensures r.Pass? ==> remotes == old(remotes)[target := q.upstream[target]]
      ensures r.Fail? ==> r.error == FetchFailed
    {
      if target !in q.upstream { return Fail(FetchFailed); }
      if q.fetching == Works || q.fetching == FailsAfter { remotes := remotes[target := q.upstream[target]]; }
      r := if q.fetching == Works then Pass else Fail(FetchFailed);
    }

    /** Lines 62-70: change to the target branch, unless that would leave it diverged. */
    method Switch(branch: string, target: string, fate: Fate) returns (r: Status<Error>)
      requires Valid() && target in remotes && target != "" && branch == Now().Current()
      modifies this`heads, this`head
      ensures Valid() && Forward(old(heads), heads)
      // A target with commits of its own is not touched.
      ensures branch != target && target in old(heads) && !IsAncestor(old(heads)[target], remotes[target]) ==>
        r == Fail(Diverged) && Now() == old(Now())
      ensures r == Fail(Diverged) ==>
        Now() == old(Now()) && branch != target && target in heads && !IsAncestor(heads[target], remotes[target])
      ensures r != Fail(Diverged) ==> Now() == AfterSwitch(old(Now()), target, remotes[target], fate)
      ensures r.Pass? ==> head == On(target) && (branch != target ==> IsAncestor(heads[target], remotes[target]))
      ensures r.Pass? || r.error in {Diverged, SwitchFailed}
      ensures r == Fail(SwitchFailed) <==> branch != target && fate != Works && r != Fail(Diverged)
    {
      hide IsAncestor;
      Unmoved(Now());
      OwnAncestor(remotes[target]);
      if branch == target { return Pass; }
      if target in heads && !IsAncestor(heads[target], remotes[target]) { return Fail(Diverged); }
      if fate == FailsBefore { return Fail(SwitchFailed); }
      if target !in heads { heads := heads[target := remotes[target]]; }
      if fate == FailsHalfway { return Fail(SwitchFailed); }
      head := On(target);
      r := if fate == Works then Pass else Fail(SwitchFailed);
    }

    /** git merge --ff-only of the fetched branch into the one checked out. */
    method FastForward(target: string, fate: Fate) returns (r: Status<Error>)
      requires Valid() && head == On(target) && target in remotes
      modifies this`heads
      ensures Valid() && Forward(old(heads), heads)
      ensures Now() == AfterMerge(old(Now()), target, remotes[target], fate)
      ensures r.Pass? ==>
        || heads[target] == remotes[target]
        || (heads == old(heads) && IsAncestor(remotes[target], heads[target]))
      ensures r == Fail(NotFastForward) <==>
        !IsAncestor(old(heads)[target], remotes[target]) && !IsAncestor(remotes[target], old(heads)[target])
      ensures r.Pass? <==> fate == Works && r != Fail(NotFastForward)
      ensures r.Pass? || r.error in {NotFastForward, MergeFailed}
    {
      hide IsAncestor;
      Unmoved(Now());
      if IsAncestor(heads[target], remotes[target]) {
        if fate == Works || fate == FailsAfter { heads := heads[target := remotes[target]]; }
      } else if !IsAncestor(remotes[target], heads[target]) {
        return Fail(NotFastForward);
      }
      r := if fate == Works then Pass else Fail(MergeFailed);
    }

    /** The checkout, the request and what it fetches allow branches to be touched. */
    predicate MayTouch(q: Request)
      requires Valid()
      reads this
    {
      var target := Target(Now().Current(), q.channel);
      && clean && origin in REPOSITORIES && manifest(HeadCommit()).plugin
      && target in CHANNELS.Values && q.idle
      && target in q.upstream && q.fetching == Works
      && manifest(q.upstream[target]).plugin && Channel(manifest(q.upstream[target])) == ChannelOf(target)
    }

    /** Lines 50-61: what must hold before any branch is touched, and the fetch. */
    method FetchTarget(q: Request) returns (r: Status<Error>)
      requires Valid()
      modifies this`remotes
      ensures Valid()
      ensures r.Pass? <==> old(MayTouch(q))
      ensures r.Pass? ==> var target := Target(Now().Current(), q.channel);
        target in remotes && remotes[target] == q.upstream[target]
      ensures r.Fail? ==> r.error !in {Diverged, SwitchFailed, NotFastForward, MergeFailed, ShellFailed}
    {
      hide IsAncestor;
      var branch := Current();
      if branch.Err? { return Fail(branch.error); }
      var target := Target(branch.value, q.channel);
      if target !in CHANNELS.Values { return Fail(NoChannel); }
      if !q.idle { return Fail(Busy); }
      r := Fetch(target, q);
      if r.Fail? { return; }
      var m := manifest(remotes[target]);
      if !m.plugin || Channel(m) != ChannelOf(target) { r := Fail(WrongDistribution); }
    }

    /** Lines 62-73: switch, merge, and tell the shell. */
    method Follow(q: Request, target: string) returns (r: Status<Error>)
      requires Valid() && target == Target(Now().Current(), q.channel) && target in CHANNELS.Values
      requires target in q.upstream && target in remotes && remotes[target] == q.upstream[target]
      modifies this`heads, this`head
      ensures Valid()
      ensures Updated(old(Now()), Now(), q, r)
      ensures r.Fail? ==> (Now() != old(Now()) <==> !TargetDiverged(old(Now()), q) && LeavesTrace(old(Now()), q))
      ensures r == Fail(MergeFailed) ==> head == On(target)
      ensures !TargetDiverged(old(Now()), q) && target != old(Now()).Current() && q.switching == Works ==>
        (r == Fail(MergeFailed) <==> q.merging != Works)
    {
      hide IsAncestor;
      ghost var before := Now();
      Unmoved(before);
      NoEmptyChannel();
      r := Switch(Now().Current(), target, q.switching);
      if r.Fail? { return; }
      ghost var switched := heads;
      r := FastForward(target, q.merging);
      ForwardTransitive(before.heads, switched, heads);
      hide Forward;
      if r.Fail? { return; }
      if !q.noticed { r := Fail(ShellFailed); }
    }

    /** `update`. */
    method Update(q: Request) returns (r: Status<Error>)
      requires Valid()
      modifies this
      ensures Valid()
      ensures Updated(old(Now()), Now(), q, r)
      // Nothing is updated but a clean, idle checkout of the plugin, and only to a commit of the asked-for channel.
      ensures r.Pass? ==> old(MayTouch(q)) && head.On? && head.branch in remotes
                          && remotes[head.branch] == q.upstream[head.branch]
      // Each channel has its branch; without one, the current branch is followed.
      ensures r.Pass? ==> match q.channel
        case Some(name) =>
          name in {"stable", "edge", "develop"} && head == On(if name == "stable" then "master" else name)
        case None => head == old(head)
      // The commit fetched for it says so itself; a manifest without a channel is a stable one.
      ensures r.Pass? ==> var said := manifest(q.upstream[head.branch]).channel;
        && (head.branch == "master" ==> said in {None, Some("stable")})
        && (head.branch in {"edge", "develop"} ==> said == Some(head.branch))
        && head.branch in {"master", "edge", "develop"}
      // A call that fails leaves a trace exactly if it got as far as the switch, or past the merge.
      ensures r.Fail? ==>
        (Now() != old(Now()) <==> old(MayTouch(q)) && !TargetDiverged(old(Now()), q) && LeavesTrace(old(Now()), q))
      // A failing merge leaves the checkout on the target.
      ensures r == Fail(MergeFailed) ==> head == On(Target(old(Now()).Current(), q.channel))
      ensures var target := Target(old(Now()).Current(), q.channel);
        old(MayTouch(q)) && !TargetDiverged(old(Now()), q) && target != old(Now()).Current() && q.switching == Works ==>
          (r == Fail(MergeFailed) <==> q.merging != Works)
    {
      hide IsAncestor, TargetDiverged, LeavesTrace;
      r := FetchTarget(q);
      if r.Fail? { NothingDone(Now(), q, r); return; }
      r := Follow(q, Target(Now().Current(), q.channel));
    }

    /** One call after another; every one may fail. */
    method UpdateAll(requests: seq<Request>) returns (results: seq<Status<Error>>, ghost history: seq<Branches>)
      requires Valid()
      modifies this
      ensures Valid()
      ensures |history| == |requests| + 1 && history[0] == old(Now()) && history[|requests|] == Now()
      ensures Updates(history, requests, results)
      ensures forall i, j :: 0 <= i <= j < |history| ==> Forward(history[i].heads, history[j].heads)
    {
      hide IsAncestor, Updated, TargetDiverged, LeavesTrace, Forward, Target;
      results, history := [], [Now()];
      for k := 0 to |requests|
        invariant Valid()
        invariant |results| == k && |history| == k + 1
        invariant history[0] == old(Now()) && history[k] == Now()
        invariant forall i :: 0 <= i < k ==> Updated(history[i], history[i + 1], requests[i], results[i])
      {
        var r := Update(requests[k]);
        results := results + [r];
        history := history + [Now()];
      }
      AllAdvance(history, requests, results);
    }
  }

  lemma AllAdvance(history: seq<Branches>, requests: seq<Request>, results: seq<Status<Error>>)
    requires Updates(history, requests, results)
    ensures forall i, j :: 0 <= i <= j < |history| ==> Forward(history[i].heads, history[j].heads)
  {
    hide Updates, Forward;
    forall i, j | 0 <= i <= j < |history| ensures Forward(history[i].heads, history[j].heads) {
      RefsOnlyAdvance(history, requests, results, i, j);
    }
  }

  lemma Unmoved(s: Branches)
    ensures Forward(s.heads, s.heads)
  {
    forall n | n in s.heads ensures IsAncestor(s.heads[n], s.heads[n]) { OwnAncestor(s.heads[n]); }
  }

  lemma NothingDone(s: Branches, q: Request, r: Status<Error>)
    requires r.Fail?
    ensures Updated(s, s, q, r)
  {
    Unmoved(s);
    hide IsAncestor;
  }

  lemma NoEmptyChannel()
    ensures "" !in CHANNELS.Values
  {
    forall c | c in CHANNELS ensures CHANNELS[c] != "" {}
  }

  /** A merge that fails once the branch has been switched: the checkout stays on the branch asked for. */
  method MergeFailsAfterSwitch() returns (c: Checkout, r: Status<Error>, before: Branches)
    ensures before.head == On("edge") && "master" !in before.heads
    ensures r == Fail(MergeFailed)
    ensures c.head == On("master") && "master" in c.heads
  {
    var commit := Commit(0, []);
    c := new Checkout(map["edge" := commit], map[], On("edge"), true, "https://github.com/thelifeandtimes/omabit",
                      _ => Manifest(true, Some("stable")));
    before := c.Now();
    assert CHANNELS["stable"] == "master";
    r := c.Update(Request(Some("stable"), true, map["master" := commit], Works, Works, FailsBefore, true));
  }
}
