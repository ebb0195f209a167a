/**
 `guardian_worker` of scripts/test-collection-authority-handoff.py: a process that is the
 subreaper of everything it starts, and says `closed` only when waitpid has nothing left.
 */
module Guardian {
  import opened Wrappers

  type Pid = nat

  /** The guardian itself. */
  const GUARDIAN: Pid := 0

  /** A process that has exited stays until its parent collects it. */
  datatype Process = Process(parent: Pid, alive: bool)

  /**
   Everything the guardian's shell has ever led to: the processes there are, all that were
   ever born, and those some other parent has collected.  Process ids are not reused.
   */
  datatype World = World(table: map<Pid, Process>, next: Pid, born: set<Pid>, elsewhere: set<Pid>)

  datatype Event = Fork(p: Pid) | Exit(p: Pid) | Collect(parent: Pid, p: Pid)

  predicate Possible(w: World, e: Event) {
    match e
    case Fork(p) => p in w.table && w.table[p].alive
    case Exit(p) => p in w.table && w.table[p].alive
    case Collect(parent, p) =>
      && parent in w.table && w.table[parent].alive
      && p in w.table && w.table[p].parent == parent && !w.table[p].alive
  }

  function After(w: World, e: Event): World
    requires Possible(w, e)
  {
    match e
    case Fork(p) => w.(table := w.table[w.next := Process(p, true)], next := w.next + 1, born := w.born + {w.next})
    case Exit(p) => w.(table := map q | q in w.table ::
      if q == p then w.table[q].(alive := false)
      else if w.table[q].parent == p then w.table[q].(parent := GUARDIAN)  // orphans go to the subreaper
      else w.table[q])
    case Collect(_, p) => w.(table := w.table - {p}, elsewhere := w.elsewhere + {p})
  }

  /** waitpid by the guardian. */
  function Collected(w: World, p: Pid): World {
    w.(table := w.table - {p})
  }

  /** Every process has the guardian or a living, older process as its parent. */
  ghost predicate Rooted(w: World) {
    && w.next > GUARDIAN
    && forall p :: p in w.table ==>
         && GUARDIAN < p < w.next
         && (w.table[p].parent != GUARDIAN ==>
               w.table[p].parent < p && w.table[p].parent in w.table && w.table[w.table[p].parent].alive)
  }

  lemma EventKeepsRooted(w: World, e: Event)
    requires Rooted(w) && Possible(w, e)
    ensures Rooted(After(w, e))
  {
  }

  /** The chain of parents of p leads to the guardian. */
  ghost predicate Descends(w: World, p: Pid)
    requires Rooted(w)
  {
    p in w.table && (w.table[p].parent == GUARDIAN || Descends(w, w.table[p].parent))
  }

  lemma {:induction false} AllDescend(w: World, p: Pid)
    requires Rooted(w) && p in w.table
    ensures Descends(w, p)
  {
    if w.table[p].parent != GUARDIAN { AllDescend(w, w.table[p].parent); }
  }

  predicate HasChild(w: World) {
    exists p :: p in w.table && w.table[p].parent == GUARDIAN
  }

  /** ECHILD: a guardian without a child has no descendant at all. */
  lemma {:induction false} ChildOf(w: World, p: Pid) returns (child: Pid)
    requires Rooted(w) && p in w.table
    ensures child in w.table && w.table[child].parent == GUARDIAN
  {
    child := p;
    if w.table[p].parent != GUARDIAN { child := ChildOf(w, w.table[p].parent); }
  }

  lemma NoChildMeansNobody(w: World)
    requires Rooted(w)
    ensures !HasChild(w) <==> w.table == map[]
  {
    if w.table.Keys != {} {
      var p :| p in w.table;
      var child := ChildOf(w, p);
    }
  }

  // The receipt

  datatype Phase = Running | Draining | Closed

  datatype Reaped = Reaped(pid: Pid, status: int)

  /** `proof` stands for "waitpid-echild". */
  datatype Receipt = Receipt(phase: Phase, request: string, reaped: seq<Reaped>, signals: seq<Pid>, proof: bool)

  /** What arrives on standard input, and whether the reply to it gets through. */
  datatype Command = Stop(request: string, heard: bool) | KillShell(heard: bool) | Relay(text: string) | Garbled

  datatype Error = ShellHangs | DescendantHangs | ShellGone | ReplyFailed | BadCommand

  function Rank(p: Phase): nat {
    match p case Running => 0 case Draining => 1 case Closed => 2
  }

  /** The receipts saved, oldest first: phases only advance, and only the last says closed. */
  ghost predicate Orderly(saved: seq<Receipt>) {
    && (forall i, j :: 0 <= i < j < |saved| ==> Rank(saved[i].phase) <= Rank(saved[j].phase))
    && (forall i :: 0 <= i < |saved| ==> (saved[i].proof <==> saved[i].phase == Closed))
    && (forall i, j :: 0 <= i < j < |saved| ==>
         saved[i].reaped <= saved[j].reaped && saved[i].signals <= saved[j].signals)
  }

  function Pids(reaped: seq<Reaped>): set<Pid> {
    set i | 0 <= i < |reaped| :: reaped[i].pid
  }

  ghost predicate Distinct(reaped: seq<Reaped>) {
    forall i, j :: 0 <= i < j < |reaped| ==> reaped[i].pid != reaped[j].pid
  }

  /** Nobody is forgotten: whoever was born is still there, or was collected, once. */
  ghost predicate Accounted(w: World, reaped: seq<Reaped>) {
    && w.born == w.table.Keys + Pids(reaped) + w.elsewhere
    && w.table.Keys !! Pids(reaped) !! w.elsewhere
    && Distinct(reaped)
    && forall p :: p in w.born ==> p < w.next
  }

  lemma EventKeepsAccount(w: World, e: Event, reaped: seq<Reaped>)
    requires Accounted(w, reaped) && Possible(w, e)
    ensures Accounted(After(w, e), reaped)
  {
  }

  lemma ReapingKeepsAccount(w: World, p: Pid, status: int, reaped: seq<Reaped>)
    requires Accounted(w, reaped) && p in w.table
    ensures Accounted(Collected(w, p), reaped + [Reaped(p, status)])
  {
    var more := reaped + [Reaped(p, status)];
    forall q ensures q in Pids(more) <==> q in Pids(reaped) || q == p {
      if q in Pids(reaped) {
        var i :| 0 <= i < |reaped| && reaped[i].pid == q;
        assert more[i].pid == q;
      }
      assert more[|reaped|].pid == p;
    }
    assert forall i :: 0 <= i < |reaped| ==> reaped[i].pid in Pids(reaped);
  }

  lemma ReapingKeepsRooted(w: World, p: Pid)
    requires Rooted(w) && p in w.table && w.table[p].parent == GUARDIAN && !w.table[p].alive
    ensures Rooted(Collected(w, p))
  {
  }

  /** How many of the commands ask for the shell to be killed. */
  function Kills(commands: seq<Command>): nat {
    if commands == [] then 0 else
      var last := commands[|commands| - 1];
      Kills(commands[..|commands| - 1]) + if last.KillShell? then 1 else 0
  }

  /** The first k commands were obeyed, and none of them stops. */
  ghost predicate Obeyed(commands: seq<Command>, k: nat, before: seq<Pid>, after: seq<Pid>, shell: Pid) {
    && k <= |commands|
    && (forall i :: 0 <= i < k ==> commands[i].KillShell? || commands[i].Relay?)
    && before <= after && |after| == |before| + Kills(commands[..k])
    && forall i :: |before| <= i < |after| ==> after[i] == shell
  }

  class Worker {
    var world: World
    var receipt: Receipt
    ghost var saved: seq<Receipt>
    const shell: Pid

    ghost predicate Valid()
      reads this
    {
      && Rooted(world)
      && Accounted(world, receipt.reaped)
      && saved != [] && Orderly(saved)
      && Rank(saved[|saved| - 1].phase) <= Rank(receipt.phase)
      && saved[|saved| - 1].reaped <= receipt.reaped && saved[|saved| - 1].signals <= receipt.signals
      && (receipt.proof <==> receipt.phase == Closed)
      && shell in world.born && (shell in world.table ==> world.table[shell].parent == GUARDIAN)
      // A closed receipt means that no descendant is left, now and at any later time.
      && (receipt.phase == Closed ==> world.table == map[])
    }

    constructor (request: string)
      ensures Valid() && receipt == Receipt(Running, request, [], [], false) && saved == [receipt]
      ensures shell in world.table
    {
      shell := 1;
      world := World(map[1 := Process(GUARDIAN, true)], 2, {1}, {});
      receipt := Receipt(Running, request, [], [], false);
      saved := [Receipt(Running, request, [], [], false)];
    }

    /** Any other processes do anything they can, for as long as they like. */
    method Others()
      requires Valid()
      modifies this`world
      ensures Valid()
    {
      var n: nat := *;
      while n > 0
        invariant Valid()
      {
        var e: Event := *;
        if Possible(world, e) {
          EventKeepsRooted(world, e);
          EventKeepsAccount(world, e, receipt.reaped);
          assert world.table != map[];
          world := After(world, e);
        }
        n := n - 1;
      }
    }

    method Save()
      requires Valid()
      modifies this`saved
      ensures Valid() && saved == old(saved) + [receipt]
    {
      saved := saved + [receipt];
    }

    /** Collect a dead child. */
    method Reap(p: Pid)
      requires Valid() && p in world.table && world.table[p].parent == GUARDIAN && !world.table[p].alive
      requires receipt.phase != Closed
      modifies this`world, this`receipt
      ensures Valid() && p !in world.table
      ensures exists status :: receipt == old(receipt).(reaped := old(receipt).reaped + [Reaped(p, status)])
    {
      var status: int := *;
      ReapingKeepsAccount(world, p, status, receipt.reaped);
      ReapingKeepsRooted(world, p);
      world := Collected(world, p);
      receipt := receipt.(reaped := receipt.reaped + [Reaped(p, status)]);
    }

    /** child.wait(): within the time given the shell has exited, or it has not. */
    method WaitForShell() returns (exited: bool)
      requires Valid() && receipt.phase == Draining
      modifies this`world, this`receipt
      ensures Valid() && receipt.phase == Draining && receipt.request == old(receipt).request
      ensures receipt.signals == old(receipt).signals
      ensures exited ==> shell in Pids(receipt.reaped)
      ensures !exited ==> receipt == old(receipt)
    {
      Others();
      if shell !in world.table || world.table[shell].alive { return false; }
      Reap(shell);
      assert receipt.reaped[|receipt.reaped| - 1].pid == shell;
      exited := true;
    }

    /** child.kill() */
    method Kill()
      requires Valid()
      modifies this`world
      ensures Valid()
    {
      var delivered: bool := *;
      if delivered && Possible(world, Exit(shell)) {
        EventKeepsRooted(world, Exit(shell));
        EventKeepsAccount(world, Exit(shell), receipt.reaped);
        world := After(world, Exit(shell));
      }
      Others();
    }

    /** The waitpid loop; `patience` is how often it is tried before the deadline. */
    method Drain(patience: nat) returns (r: Status<Error>)
      requires Valid() && receipt.phase == Draining
      modifies this`world, this`receipt
      ensures Valid() && receipt.phase == Draining && old(receipt).reaped <= receipt.reaped
      ensures receipt.request == old(receipt).request && receipt.signals == old(receipt).signals
      ensures r.Pass? ==> world.table == map[]
      ensures r.Fail? ==> r.error == DescendantHangs
    {
      var tries := patience;
      while tries > 0
        invariant Valid() && receipt.phase == Draining && old(receipt).reaped <= receipt.reaped
        invariant receipt == old(receipt).(reaped := receipt.reaped)
      {
        Others();
        if !HasChild(world) {
          NoChildMeansNobody(world);
          return Pass;
        }
        if exists p :: p in world.table && world.table[p].parent == GUARDIAN && !world.table[p].alive {
          var p :| p in world.table && world.table[p].parent == GUARDIAN && !world.table[p].alive;
          Reap(p);
        }
        tries := tries - 1;
      }
      r := Fail(DescendantHangs);
    }

    /** `close`: the receipt says closed before the reply is sent, so a failed reply leaves it closed. */
    method Close(request: string, patience: nat, heard: bool) returns (r: Status<Error>)
      requires Valid() && receipt.phase == Running
      modifies this
      ensures Valid() && old(saved) <= saved
      ensures receipt.phase == saved[|saved| - 1].phase && receipt.phase != Running
      ensures receipt.signals == old(receipt).signals == saved[|saved| - 1].signals
      ensures receipt.phase == Closed ==> r == if heard then Pass else Fail(ReplyFailed)
      ensures receipt.phase != Closed ==> r.Fail? && r.error in {ShellHangs, DescendantHangs}
      ensures receipt.phase == Closed ==>
        && receipt.request == request && saved[|saved| - 1] == receipt
        && world.table == map[]
        && shell in Pids(receipt.reaped)
        && world.born == Pids(receipt.reaped) + world.elsewhere
    {
      hide Rooted, Accounted, Orderly, Pids;
      receipt := receipt.(phase := Draining, request := request);
      Save();
      var exited := WaitForShell();
      if !exited {
        Kill();
        exited := WaitForShell();
        if !exited { return Fail(ShellHangs); }
      }
      ghost var early := receipt.reaped;
      r := Drain(patience);
      if r.Fail? { return; }
      StillThere(early, receipt.reaped, shell);
      receipt := receipt.(phase := Closed, proof := true);
      Save();
      NobodyForgotten(world, receipt.reaped);
      r := if heard then Pass else Fail(ReplyFailed);
    }

    /** The command loop: `stop` or the end of the input closes. */
    method Serve(commands: seq<Command>, last: string, patience: nat, heard: bool) returns (r: Status<Error>)
      requires Valid() && receipt.phase == Running
      modifies this
      ensures Valid() && old(saved) <= saved
      ensures r.Pass? ==> receipt.phase == Closed && saved[|saved| - 1] == receipt
      // However it ends: if any receipt ever saved says closed, no descendant is left.
      ensures forall s :: s in saved && s.phase == Closed ==> world.table == map[]
      ensures receipt.phase != Closed ==> forall s :: s in saved ==> s.phase != Closed && !s.proof
      ensures receipt.phase == Closed && r.Fail? ==> r.error == ReplyFailed
      // Every command obeyed shows in the receipt, and in the last one saved; a closed one answers the
      // first stop, or the end of the input.
      ensures exists k: nat :: Obeyed(commands, k, old(receipt).signals, receipt.signals, shell)
      ensures old(saved[|saved| - 1].signals == receipt.signals) ==> saved[|saved| - 1].signals == receipt.signals
      ensures receipt.phase == Closed ==> exists k: nat ::
        && Obeyed(commands, k, old(receipt).signals, receipt.signals, shell)
        && (k < |commands| ==> commands[k].Stop?)
        && receipt.request == if k < |commands| then commands[k].request else last
    {
      hide Rooted, Accounted, Orderly, Pids;
      for i := 0 to |commands|
        invariant Valid() && receipt.phase == Running && old(saved) <= saved
        invariant Obeyed(commands, i, old(receipt).signals, receipt.signals, shell)
        invariant old(saved[|saved| - 1].signals == receipt.signals) ==> saved[|saved| - 1].signals == receipt.signals
      {
        assert commands[..i + 1][..i] == commands[..i];
        Others();
        match commands[i] {
          case Stop(request, hears) =>
            r := Close(request, patience, hears);
            ClosedMeansReceipt(saved, receipt);
            return;
          case KillShell(hears) =>
            Kill();
            receipt := receipt.(signals := receipt.signals + [shell]);
            Save();
            assert Obeyed(commands, i + 1, old(receipt).signals, receipt.signals, shell);
            if !hears { ClosedMeansReceipt(saved, receipt); return Fail(ReplyFailed); }
          case Relay(_) =>
            var answered: bool := *;
            if !answered { ClosedMeansReceipt(saved, receipt); return Fail(ShellGone); }
          case Garbled =>
            ClosedMeansReceipt(saved, receipt);
            return Fail(BadCommand);
        }
      }
      r := Close(last, patience, heard);
      ClosedMeansReceipt(saved, receipt);
    }
  }

  /** Phases only advance, so a saved receipt says closed only if the worker has got there. */
  lemma ClosedMeansReceipt(saved: seq<Receipt>, receipt: Receipt)
    requires Orderly(saved) && saved != []
    requires Rank(saved[|saved| - 1].phase) <= Rank(receipt.phase)
    ensures receipt.phase != Closed ==> forall s :: s in saved ==> s.phase != Closed && !s.proof
  {
    forall s | s in saved ensures receipt.phase != Closed ==> s.phase != Closed && !s.proof {
      var i :| 0 <= i < |saved| && saved[i] == s;
    }
  }

  lemma NobodyForgotten(w: World, reaped: seq<Reaped>)
    requires Accounted(w, reaped) && w.table == map[]
    ensures w.born == Pids(reaped) + w.elsewhere
  {
  }

  lemma StillThere(a: seq<Reaped>, b: seq<Reaped>, p: Pid)
    requires a <= b && p in Pids(a)
    ensures p in Pids(b)
  {
    var i :| 0 <= i < |a| && a[i].pid == p;
    assert b[i].pid == p;
  }
}
