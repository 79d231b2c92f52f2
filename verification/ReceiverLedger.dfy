/** The receiver of a remote watch stream (src/adapters/codex/receive.rs): one state directory over any
    number of starts, crashes and rebinds. */
module ReceiverLedger {
  import opened Common

  type Id = string

  datatype Socket = Socket(path: string, identity: int)

  datatype Binding = Binding(peer: string, session: string, workspace: string, command: seq<string>,
                             mcpCommand: Option<string>, socket: Option<Socket>)

  /** What `state.json` holds. */
  datatype Ledger = Ledger(binding: Binding, pending: Option<Id>, receipts: map<Id, string>)

  datatype Outcome = NotSubmitted | Unknown | Submitted(detail: string)

  /** A native call. `Open` may still enqueue, even after its caller is gone; `Never` did not and will not. */
  datatype Status = Open | Enqueued | Never
  datatype Submission = Submission(id: Id, status: Status)

  /** What a process does once its ledger is saved. */
  datatype Next = ToWatch | ToSubmit | ToReport(outcome: Outcome) | ToExit

  /** The process that holds the lock of the directory, with its ledger in memory. `Saving` has not
      replaced `state.json` yet, `Renamed` has. */
  datatype Proc =
    | Off
    | Saving(ledger: Ledger, next: Next)
    | Renamed(ledger: Ledger, next: Next)
    | Watching(ledger: Ledger)
    | Calling(ledger: Ledger, call: nat)

  /** `tmp` is a `state.tmp` left behind. `queue` is what the session was given, in order. */
  datatype System = System(disk: Option<Ledger>, tmp: bool, proc: Proc, calls: seq<Submission>, queue: seq<Id>)

  datatype Action =
    | Start(given: Binding)
    | Rebind(identity: int)
    | WriteTmp
    | Rename
    | Synced
    | Event(id: Id)
    | Returns(outcome: Outcome)
    | Enqueue(call: nat)
    | Crash

  // ---- Starting ----

  /** The saved binding with a first check command and a first socket added. */
  function Merged(saved: Binding, given: Binding): Binding {
    saved.(mcpCommand := if saved.mcpCommand.None? then given.mcpCommand else saved.mcpCommand,
           socket := if saved.socket.None? then given.socket else saved.socket)
  }

  datatype Refusal = NotEmpty | BindingChanged | OutcomeUnknown(id: Id) | NoSocket | NoState

  /** `run` after it has the lock: what it refuses, or the ledger and whether it must be saved first. */
  function Begin(s: System, given: Binding): (Proc, Option<Refusal>) {
    match s.disk
    case None =>
      if s.tmp then (Off, Some(NotEmpty)) else (Saving(Ledger(given, None, map[]), ToWatch), None)
    case Some(ledger) =>
      var merged := Merged(ledger.binding, given);
      if merged != given then (Off, Some(BindingChanged))
      else if ledger.pending.Some? then (Off, Some(OutcomeUnknown(ledger.pending.value)))
      else if merged != ledger.binding then (Saving(ledger.(binding := merged), ToWatch), None)
      else (Watching(ledger), None)
  }

  /** `receive rebind`: the socket at the saved path, as it is now. */
  function BeginRebind(s: System, identity: int): (Proc, Option<Refusal>) {
    match s.disk
    case None => (Off, Some(NoState))
    case Some(ledger) =>
      if ledger.pending.Some? then (Off, Some(OutcomeUnknown(ledger.pending.value)))
      else if ledger.binding.socket.None? then (Off, Some(NoSocket))
      else
        var bound := Socket(ledger.binding.socket.value.path, identity);
        if ledger.binding.socket == Some(bound) then (Off, None)
        else (Saving(ledger.(binding := ledger.binding.(socket := Some(bound))), ToExit), None)
  }

  /** The ledger after the native call for its pending message. */
  function Concluded(ledger: Ledger, outcome: Outcome): Ledger
    requires ledger.pending.Some?
  {
    match outcome
    case Submitted(detail) => ledger.(pending := None, receipts := ledger.receipts[ledger.pending.value := detail])
    case NotSubmitted => ledger.(pending := None)
    case Unknown => ledger
  }

  // ---- Steps ----

  predicate Enabled(s: System, a: Action) {
    match a
    case Start(_) => s.proc.Off?
    case Rebind(_) => s.proc.Off?
    case WriteTmp => s.proc.Saving?
    case Rename => s.proc.Saving? && s.tmp
    case Synced => s.proc.Renamed? && (s.proc.next.ToSubmit? ==> s.proc.ledger.pending.Some?)
    case Event(id) => s.proc.Watching? && id !in s.proc.ledger.receipts
    // A call that reports `NotSubmitted` enqueued nothing and will not.
    case Returns(outcome) =>
      s.proc.Calling? && s.proc.call < |s.calls| && s.proc.ledger.pending.Some?
      && (outcome.NotSubmitted? ==> s.calls[s.proc.call].status != Enqueued)
    case Enqueue(k) => k < |s.calls| && s.calls[k].status.Open?
    case Crash => true
  }

  function Do(s: System, a: Action): System
    requires Enabled(s, a)
  {
    match a
    case Start(given) => s.(proc := Begin(s, given).0)
    case Rebind(identity) => s.(proc := BeginRebind(s, identity).0)
    case WriteTmp => s.(tmp := true)
    case Rename => s.(disk := Some(s.proc.ledger), tmp := false, proc := Renamed(s.proc.ledger, s.proc.next))
    case Synced => (
      match s.proc.next
      case ToWatch => s.(proc := Watching(s.proc.ledger))
      case ToSubmit =>
        s.(proc := Calling(s.proc.ledger, |s.calls|), calls := s.calls + [Submission(s.proc.ledger.pending.value, Open)])
      case ToReport(outcome) => s.(proc := if outcome.Submitted? then Watching(s.proc.ledger) else Off)
      case ToExit => s.(proc := Off))
    case Event(id) => s.(proc := Saving(s.proc.ledger.(pending := Some(id)), ToSubmit))
    case Returns(outcome) =>
      var call := s.calls[s.proc.call];
      s.(proc := Saving(Concluded(s.proc.ledger, outcome), ToReport(outcome)),
         calls := if outcome.NotSubmitted? then s.calls[s.proc.call := call.(status := Never)] else s.calls)
    case Enqueue(k) => s.(calls := s.calls[k := s.calls[k].(status := Enqueued)], queue := s.queue + [s.calls[k].id])
    case Crash => s.(proc := Off)
  }

  ghost predicate Step(s: System, t: System) {
    exists a :: Enabled(s, a) && t == Do(s, a)
  }

  ghost predicate Run(run: seq<System>) {
    run != [] && run[0] == System(None, false, Off, [], [])
    && forall i, j :: 0 <= i && j == i + 1 < |run| ==> Step(run[i], run[j])
  }

  // ---- The invariant ----

  predicate Live(call: Submission) {
    call.status != Never
  }

  /** The ledger accounts for every native call that may have enqueued or may yet. */
  ghost predicate Covers(disk: Option<Ledger>, calls: seq<Submission>) {
    forall i :: 0 <= i < |calls| && Live(calls[i]) ==>
      disk.Some? && (calls[i].id in disk.value.receipts || disk.value.pending == Some(calls[i].id))
  }

  ghost predicate LiveOnce(calls: seq<Submission>) {
    forall i, j :: 0 <= i < j < |calls| && Live(calls[i]) && Live(calls[j]) ==> calls[i].id != calls[j].id
  }

  ghost predicate NoLive(calls: seq<Submission>, id: Id) {
    forall i :: 0 <= i < |calls| && Live(calls[i]) ==> calls[i].id != id
  }

  /** Each enqueued message comes from its own call. */
  ghost predicate QueueOnce(queue: seq<Id>, calls: seq<Submission>) {
    && (forall i :: 0 <= i < |queue| ==> Submission(queue[i], Enqueued) in calls)
    && (forall i, j :: 0 <= i < j < |queue| ==> queue[i] != queue[j])
  }

  /** A receipt is about a call; a pending message has no receipt yet. */
  ghost predicate LedgerOk(ledger: Ledger, calls: seq<Submission>) {
    && (forall id :: id in ledger.receipts ==> Called(calls, id))
    && (ledger.pending.Some? ==> ledger.pending.value !in ledger.receipts)
  }

  ghost predicate Called(calls: seq<Submission>, id: Id) {
    exists i :: 0 <= i < |calls| && calls[i].id == id
  }

  ghost predicate ProcOk(s: System) {
    match s.proc
    case Off => true
    case Watching(ledger) => s.disk == Some(ledger) && ledger.pending.None?
    case Calling(ledger, k) =>
      s.disk == Some(ledger) && k < |s.calls| && ledger.pending == Some(s.calls[k].id) && Live(s.calls[k])
    case Renamed(ledger, next) =>
      s.disk == Some(ledger)
      && (next.ToSubmit? ==> ledger.pending.Some? && NoLive(s.calls, ledger.pending.value))
      && (next.ToWatch? || next.ToExit? || (next.ToReport? && !next.outcome.Unknown?) ==> ledger.pending.None?)
    case Saving(ledger, next) =>
      match next
      case ToWatch =>
        ledger.pending.None?
        && if s.disk.None? then ledger.receipts == map[]
           else s.disk.value == ledger.(binding := s.disk.value.binding) && Kept(s.disk.value.binding, ledger.binding)
      case ToExit =>
        ledger.pending.None? && s.disk.Some? && s.disk.value == ledger.(binding := s.disk.value.binding)
        && Kept(s.disk.value.binding, ledger.binding)
      case ToSubmit => ledger.pending.Some? && s.disk == Some(ledger.(pending := None)) && ledger.pending.value !in ledger.receipts
      case ToReport(outcome) =>
        s.disk.Some? && s.disk.value.pending.Some? && ledger == Concluded(s.disk.value, outcome)
        && Called(s.calls, s.disk.value.pending.value)
        && (outcome.NotSubmitted? ==> NoLive(s.calls, s.disk.value.pending.value))
  }

  ghost predicate Inv(s: System) {
    && Covers(s.disk, s.calls) && LiveOnce(s.calls) && QueueOnce(s.queue, s.calls) && ProcOk(s)
    && (s.disk.Some? ==> LedgerOk(s.disk.value, s.calls))
  }

  // ---- What stays ----

  /** The binding keeps the peer, the session, the workspace, the command, a check command and a socket path. */
  predicate Kept(before: Binding, after: Binding) {
    && (before.peer, before.session, before.workspace, before.command)
       == (after.peer, after.session, after.workspace, after.command)
    && (before.mcpCommand.Some? ==> after.mcpCommand == before.mcpCommand)
    && (before.socket.Some? ==> after.socket.Some? && after.socket.value.path == before.socket.value.path)
  }

  /** Receipts only grow, calls are only added, and what was enqueued stays. */
  ghost predicate Grows(s: System, t: System) {
    && (s.disk.Some? ==>
          && t.disk.Some? && Kept(s.disk.value.binding, t.disk.value.binding)
          && forall id :: id in s.disk.value.receipts ==>
               id in t.disk.value.receipts && t.disk.value.receipts[id] == s.disk.value.receipts[id])
    && |s.calls| <= |t.calls| && (forall i :: 0 <= i < |s.calls| ==> t.calls[i].id == s.calls[i].id)
    && s.queue <= t.queue
  }

  lemma GrowsTransitive(a: System, b: System, c: System)
    requires Grows(a, b) && Grows(b, c)
    ensures Grows(a, c)
  {
    assert forall i :: 0 <= i < |a.calls| ==> c.calls[i].id == b.calls[i].id;
  }

  // ---- Each step keeps the invariant ----

  lemma RenameKeepsInv(s: System)
    requires Inv(s) && s.proc.Saving?
    ensures Inv(s.(disk := Some(s.proc.ledger), tmp := false, proc := Renamed(s.proc.ledger, s.proc.next)))
  {
    var ledger, next := s.proc.ledger, s.proc.next;
    if next.ToSubmit? {
      assert NoLive(s.calls, ledger.pending.value);
    }
    if next.ToReport? {
      ReportCovers(s.disk.value, s.calls, next.outcome);
    }
  }

  lemma ReportCovers(disk: Ledger, calls: seq<Submission>, outcome: Outcome)
    requires disk.pending.Some? && Covers(Some(disk), calls) && LedgerOk(disk, calls) && Called(calls, disk.pending.value)
    requires outcome.NotSubmitted? ==> NoLive(calls, disk.pending.value)
    ensures Covers(Some(Concluded(disk, outcome)), calls) && LedgerOk(Concluded(disk, outcome), calls)
  {
  }

  lemma CallKeepsInv(s: System)
    requires Inv(s) && s.proc.Renamed? && s.proc.next.ToSubmit?
    ensures Inv(Do(s, Synced))
  {
    var t := Do(s, Synced);
    assert forall i :: 0 <= i < |s.calls| ==> t.calls[i] == s.calls[i];
    assert t.calls[|s.calls|].id == s.proc.ledger.pending.value;
    CallsLater(s, t.calls);
  }

  /** More calls, or changed outcomes, lose neither receipts nor what was enqueued. */
  lemma CallsLater(s: System, calls: seq<Submission>)
    requires QueueOnce(s.queue, s.calls) && |s.calls| <= |calls|
    requires forall i :: 0 <= i < |s.calls| ==>
               calls[i].id == s.calls[i].id && (s.calls[i].status == Enqueued ==> calls[i].status == Enqueued)
    ensures QueueOnce(s.queue, calls)
    ensures forall id :: Called(s.calls, id) ==> Called(calls, id)
  {
    forall i | 0 <= i < |s.queue|
      ensures Submission(s.queue[i], Enqueued) in calls
    {
      var k :| 0 <= k < |s.calls| && s.calls[k] == Submission(s.queue[i], Enqueued);
      assert calls[k] == Submission(s.queue[i], Enqueued);
    }
    forall id | Called(s.calls, id)
      ensures Called(calls, id)
    {
      var i :| 0 <= i < |s.calls| && s.calls[i].id == id;
      assert calls[i].id == id;
    }
  }

  lemma ReturnKeepsInv(s: System, outcome: Outcome)
    requires Inv(s) && Enabled(s, Returns(outcome))
    ensures Inv(Do(s, Returns(outcome)))
  {
    var t := Do(s, Returns(outcome));
    CallsLater(s, t.calls);
    assert Called(s.calls, s.calls[s.proc.call].id);
    if outcome.NotSubmitted? {
      forall i | 0 <= i < |t.calls| && Live(t.calls[i])
        ensures t.calls[i].id != s.proc.ledger.pending.value
      {
        assert t.calls[i] == s.calls[i];
      }
    }
  }

  lemma EnqueueKeepsQueue(queue: seq<Id>, calls: seq<Submission>, k: nat)
    requires QueueOnce(queue, calls) && LiveOnce(calls) && k < |calls| && calls[k].status.Open?
    ensures QueueOnce(queue + [calls[k].id], calls[k := calls[k].(status := Enqueued)])
  {
    var id, later := calls[k].id, calls[k := calls[k].(status := Enqueued)];
    forall i | 0 <= i < |queue|
      ensures queue[i] != id && Submission(queue[i], Enqueued) in later
    {
      var j :| 0 <= j < |calls| && calls[j] == Submission(queue[i], Enqueued);
      assert j != k && Live(calls[j]) && Live(calls[k]) && later[j] == calls[j];
    }
    assert later[k] == Submission(id, Enqueued);
  }

  /** Enqueueing changes neither the ids of the calls nor which of them are live. */
  lemma EnqueueKeepsLive(calls: seq<Submission>, k: nat)
    requires k < |calls| && calls[k].status.Open?
    ensures var later := calls[k := calls[k].(status := Enqueued)];
            && (LiveOnce(calls) ==> LiveOnce(later))
            && (forall disk :: Covers(disk, calls) ==> Covers(disk, later))
            && (forall id :: NoLive(calls, id) ==> NoLive(later, id))
            && forall i :: 0 <= i < |calls| ==> later[i].id == calls[i].id && (Live(later[i]) <==> Live(calls[i]))
  {
    var later := calls[k := calls[k].(status := Enqueued)];
    assert forall i :: 0 <= i < |calls| ==> later[i].id == calls[i].id && (Live(later[i]) <==> Live(calls[i]));
  }

  lemma EnqueueKeepsInv(s: System, k: nat)
    requires Inv(s) && Enabled(s, Enqueue(k))
    ensures Inv(Do(s, Enqueue(k)))
  {
    EnqueueKeepsQueue(s.queue, s.calls, k);
    EnqueueKeepsLive(s.calls, k);
    CallsLater(s, Do(s, Enqueue(k)).calls);
    hide QueueOnce, LiveOnce, Covers, NoLive, Live, Called;
  }

  lemma DoKeepsInv(s: System, a: Action)
    requires Inv(s) && Enabled(s, a)
    ensures Inv(Do(s, a))
  {
    match a
    case Rename => RenameKeepsInv(s);
    case Synced => if s.proc.next.ToSubmit? { CallKeepsInv(s); }
    case Returns(outcome) => ReturnKeepsInv(s, outcome);
    case Enqueue(k) => EnqueueKeepsInv(s, k);
    case _ =>
  }

  lemma DoGrows(s: System, a: Action)
    requires Inv(s) && Enabled(s, a)
    ensures Grows(s, Do(s, a))
  {
  }

  // ---- Whole runs ----

  lemma {:induction false} RunKeepsInv(run: seq<System>, i: nat)
    requires Run(run) && i < |run|
    ensures Inv(run[i])
  {
    if i == 0 {
    } else {
      RunKeepsInv(run, i - 1);
      assert Step(run[i - 1], run[i]);
      var a :| Enabled(run[i - 1], a) && run[i] == Do(run[i - 1], a);
      DoKeepsInv(run[i - 1], a);
    }
  }

  /** Over any starts, crashes and rebinds each message is enqueued at most once, and everything that a
      native call enqueued or may yet enqueue has a receipt or is the pending message. */
  lemma EnqueuedAtMostOnce(run: seq<System>, i: nat)
    requires Run(run) && i < |run|
    ensures forall a, b :: 0 <= a < b < |run[i].queue| ==> run[i].queue[a] != run[i].queue[b]
    ensures Covers(run[i].disk, run[i].calls) && LiveOnce(run[i].calls)
  {
    RunKeepsInv(run, i);
  }

  lemma {:induction false} ReceiptsOnlyGrow(run: seq<System>, i: nat, j: nat)
    requires Run(run) && i <= j < |run|
    ensures Grows(run[i], run[j])
    decreases j - i
  {
    if i == j {
    } else {
      ReceiptsOnlyGrow(run, i, j - 1);
      RunKeepsInv(run, j - 1);
      assert Step(run[j - 1], run[j]);
      var a :| Enabled(run[j - 1], a) && run[j] == Do(run[j - 1], a);
      DoGrows(run[j - 1], a);
      GrowsTransitive(run[i], run[j - 1], run[j]);
    }
  }

  /** No process runs, and the ledger names a message whose outcome was never saved. */
  predicate Blocked(s: System, id: Id) {
    s.proc.Off? && s.disk.Some? && s.disk.value.pending == Some(id)
  }

  lemma BlockedStep(s: System, a: Action, id: Id)
    requires Blocked(s, id) && Enabled(s, a)
    ensures Blocked(Do(s, a), id) && Do(s, a).disk == s.disk && |Do(s, a).calls| == |s.calls|
  {
  }

  /** Such a ledger stays as it is: every later start and rebind refuses, and nothing is submitted. */
  lemma {:induction false} PendingBlocks(run: seq<System>, i: nat, j: nat, id: Id)
    requires Run(run) && i <= j < |run| && Blocked(run[i], id)
    ensures Blocked(run[j], id) && run[j].disk == run[i].disk && |run[j].calls| == |run[i].calls|
    decreases j - i
  {
    if i == j {
    } else {
      PendingBlocks(run, i, j - 1, id);
      assert Step(run[j - 1], run[j]);
      var a :| Enabled(run[j - 1], a) && run[j] == Do(run[j - 1], a);
      BlockedStep(run[j - 1], a, id);
    }
  }

  /** A crash at any point between the intent and the saved outcome leaves such a ledger behind. */
  lemma CrashBlocks(run: seq<System>, i: nat)
    requires Run(run) && i < |run|
    requires var proc := run[i].proc;
             proc.Calling? || (proc.Renamed? && proc.next.ToSubmit?) || (proc.Saving? && proc.next.ToReport?)
    ensures run[i].disk.Some? && run[i].disk.value.pending.Some?
    ensures Blocked(Do(run[i], Crash), run[i].disk.value.pending.value)
  {
    RunKeepsInv(run, i);
  }

  // ---- The commands ----

  lemma HasStart(run: seq<System>)
    requires Run(run)
    ensures |run| > 0
  {
  }

  lemma RunMore(run: seq<System>, a: Action)
    requires Run(run) && Enabled(run[|run| - 1], a)
    ensures Run(run + [Do(run[|run| - 1], a)])
  {
    var longer := run + [Do(run[|run| - 1], a)];
    assert Step(run[|run| - 1], longer[|run|]);
  }

  /** How `operate` ends: stopped or cut off, or with a message whose notification is not confirmed. */
  datatype End = Stopped | NotConfirmed(id: Id, outcome: Outcome)

  /** What the saved ledger is after a native call for `id` with this outcome. */
  predicate Settled(before: Ledger, id: Id, outcome: Outcome, after: Ledger) {
    after.binding == before.binding
    && match outcome
       case Submitted(detail) => after.pending.None? && after.receipts == before.receipts[id := detail]
       case NotSubmitted => after.pending.None? && after.receipts == before.receipts
       case Unknown => after.pending == Some(id) && after.receipts == before.receipts
  }

  /** What a notification leaves: with a receipt the loop goes on; without one the command reports the
      outcome, or was cut off. */
  predicate Reported(before: Ledger, id: Id, end: Option<End>, outcome: Outcome, s: System) {
    && s.disk.Some? && s.disk.value.binding == before.binding
    && match end
       case None => outcome.Submitted? && s.proc == Watching(s.disk.value) && Settled(before, id, outcome, s.disk.value)
       case Some(NotConfirmed(named, reported)) =>
         s.proc.Off? && named == id && reported == outcome && !outcome.Submitted? && Settled(before, id, outcome, s.disk.value)
       case Some(Stopped) => s.proc.Off?
  }

  /** A saved binding accepts what it is given if all that it holds is given again. */
  predicate Accepts(saved: Binding, given: Binding) {
    && saved.peer == given.peer && saved.session == given.session
    && saved.workspace == given.workspace && saved.command == given.command
    && (saved.mcpCommand.None? || saved.mcpCommand == given.mcpCommand)
    && (saved.socket.None? || saved.socket == given.socket)
  }

  lemma AcceptsMerged(saved: Binding, given: Binding)
    ensures Accepts(saved, given) <==> Merged(saved, given) == given
  {
  }

  lemma WatchingOk(s: System)
    requires Inv(s) && s.proc.Watching?
    ensures s.disk == Some(s.proc.ledger) && s.proc.ledger.pending.None?
  {
  }

  /** One state directory and its commands. Native calls may enqueue late, and any command may be cut
      off anywhere. */
  class Receiver {
    var sys: System
    ghost var run: seq<System>

    ghost predicate Valid()
      reads this
    {
      Run(run) && run[|run| - 1] == sys && Inv(sys)
    }

    constructor ()
      ensures Valid() && sys == System(None, false, Off, [], [])
    {
      sys := System(None, false, Off, [], []);
      run := [System(None, false, Off, [], [])];
    }

    method Advance(a: Action)
      requires Valid() && Enabled(sys, a)
      modifies this
      ensures Valid() && sys == Do(old(sys), a) && run == old(run) + [sys]
    {
      RunMore(run, a);
      DoKeepsInv(sys, a);
      hide Run, Inv, Enabled, Do;
      sys := Do(sys, a);
      run := run + [sys];
    }

    /** Native calls that are under way enqueue what they like. */
    method Late()
      requires Valid()
      modifies this
      ensures Valid() && old(run) <= run && |sys.calls| == |old(sys.calls)|
      ensures (sys.disk, sys.tmp, sys.proc) == old((sys.disk, sys.tmp, sys.proc))
    {
      hide Run, Inv;
      var steps: nat :| true;
      for n := 0 to steps
        invariant Valid() && old(run) <= run && |sys.calls| == |old(sys.calls)|
        invariant (sys.disk, sys.tmp, sys.proc) == old((sys.disk, sys.tmp, sys.proc))
      {
        var k: nat :| true;
        if Enabled(sys, Enqueue(k)) {
          Advance(Enqueue(k));
        }
      }
    }

    /** `save`: write `state.tmp`, and rename it over `state.json`. It may fail before or after the
        rename, or the process may end there. */
    method Save() returns (ok: bool)
      requires Valid() && sys.proc.Saving?
      modifies this
      ensures Valid() && old(run) <= run && |sys.calls| == |old(sys.calls)|
      ensures ok ==> sys.proc == Renamed(old(sys).proc.ledger, old(sys).proc.next) && sys.disk == Some(old(sys).proc.ledger)
      ensures !ok ==> sys.proc.Off? && (sys.disk == old(sys).disk || sys.disk == Some(old(sys).proc.ledger))
    {
      hide Run, Inv;
      Late();
      Advance(WriteTmp);
      if * {
        Advance(Crash);
        return false;
      }
      Advance(Rename);
      if * {
        Advance(Crash);
        return false;
      }
      ok := true;
    }

    /** One message of the watch stream that is not skipped: intent, native call, outcome. `None` means
        that the loop goes on. `outcome` is what the client reported, if it did. */
    method Notify(id: Id) returns (end: Option<End>, outcome: Outcome)
      requires Valid() && sys.proc.Watching? && id !in sys.proc.ledger.receipts
      modifies this
      ensures Valid() && old(run) <= run && |sys.calls| <= |old(sys.calls)| + 1
      ensures Reported(old(sys).proc.ledger, id, end, outcome, sys)
      ensures end.Some? && end.value.NotConfirmed? && end.value.outcome.Unknown? ==> Blocked(sys, id)
    {
      hide Run, Inv, Kept;
      WatchingOk(sys);
      outcome := Unknown;
      Advance(Event(id));
      var ok := Save();
      if !ok {
        return Some(Stopped), Unknown;
      }
      Advance(Synced);
      end, outcome := AwaitOutcome(id);
    }

    /** The native call of `Notify`, and saving its outcome. */
    method AwaitOutcome(id: Id) returns (end: Option<End>, outcome: Outcome)
      requires Valid() && sys.proc.Calling? && sys.proc.ledger.pending == Some(id)
      modifies this
      ensures Valid() && old(run) <= run && |sys.calls| == |old(sys.calls)|
      ensures Reported(old(sys).proc.ledger, id, end, outcome, sys)
      ensures end.Some? && end.value.NotConfirmed? && end.value.outcome.Unknown? ==> Blocked(sys, id)
    {
      hide Run, Inv;
      outcome := Unknown;
      assert sys.disk == Some(sys.proc.ledger) by { CallingOk(sys); }
      Late();
      if * {
        Advance(Crash);
        return Some(Stopped), Unknown;
      }
      assert sys.proc.call < |sys.calls| && sys.disk == Some(sys.proc.ledger) by { CallingOk(sys); }
      outcome :| true;
      if outcome.NotSubmitted? && sys.calls[sys.proc.call].status == Enqueued {
        // Such a report does not come.
        outcome := Unknown;
      }
      Advance(Returns(outcome));
      var ok := Save();
      if !ok {
        return Some(Stopped), outcome;
      }
      Advance(Synced);
      end := if outcome.Submitted? then None else Some(NotConfirmed(id, outcome));
    }

    /** `operate`: the messages of the stream, in any order and as often as it likes to name them. A
        message with a receipt is skipped, and so is one that the mailbox shows as completed. */
    method Operate() returns (end: End)
      requires Valid() && sys.proc.Watching?
      modifies this
      ensures Valid() && old(run) <= run && sys.proc.Off?
      ensures sys.disk.Some? && sys.disk.value.binding == old(sys).proc.ledger.binding
      ensures end.NotConfirmed? ==> !end.outcome.Submitted? && end.id !in sys.disk.value.receipts
      ensures end.NotConfirmed? ==> sys.disk.value.pending == if end.outcome.Unknown? then Some(end.id) else None
      ensures end.NotConfirmed? && end.outcome.Unknown? ==> Blocked(sys, end.id)
    {
      hide Run, Inv;
      WatchingOk(sys);
      var events: nat :| true;
      for n := 0 to events
        invariant Valid() && old(run) <= run && sys.proc.Watching?
        invariant sys.disk == Some(sys.proc.ledger) && sys.proc.ledger.binding == old(sys).proc.ledger.binding
      {
        var id: Id :| true;
        if id in sys.proc.ledger.receipts {
          continue;
        }
        if * {
          continue;
        }
        var ended, outcome := Notify(id);
        if ended.Some? {
          return ended.value;
        }
      }
      Advance(Crash);
      end := Stopped;
    }

    /** `run`. It refuses a directory that is not empty, another binding, and a message whose outcome is
        unknown, and then leaves everything as it is. Otherwise the saved binding is the given one, unless
        saving it fails. */
    method Receive(given: Binding) returns (refusal: Option<Refusal>, end: End)
      requires Valid() && sys.proc.Off?
      modifies this
      ensures Valid() && old(run) <= run && sys.proc.Off? && Grows(old(sys), sys)
      ensures refusal == match old(sys).disk
                         case None => if old(sys).tmp then Some(NotEmpty) else None
                         case Some(ledger) =>
                           if !Accepts(ledger.binding, given) then Some(BindingChanged)
                           else if ledger.pending.Some? then Some(OutcomeUnknown(ledger.pending.value))
                           else None
      ensures refusal.Some? ==> sys == old(sys)
      ensures refusal.None? ==> sys.disk == old(sys).disk || (sys.disk.Some? && sys.disk.value.binding == given)
      ensures end.NotConfirmed? ==> sys.disk.Some? && sys.disk.value.binding == given
      ensures end.NotConfirmed? && end.outcome.Unknown? ==> Blocked(sys, end.id)
    {
      hide Run, Inv, Grows;
      HasStart(run);
      ghost var at := |run| - 1;
      if sys.disk.Some? {
        AcceptsMerged(sys.disk.value.binding, given);
      }
      refusal, end := Begin(sys, given).1, Stopped;
      Advance(Start(given));
      if sys.proc.Saving? {
        var ok := Save();
        if ok {
          Advance(Synced);
        }
      }
      if sys.proc.Watching? {
        end := Operate();
      }
      ReceiptsOnlyGrow(run, at, |run| - 1);
    }

    /** `receive rebind`, when the client's socket has this identity now. It needs a saved state without a
        pending message and with a socket, and changes nothing but the identity of that socket. */
    method RebindSocket(identity: int) returns (refusal: Option<Refusal>, changed: bool)
      requires Valid() && sys.proc.Off?
      modifies this
      ensures Valid() && old(run) <= run && sys.proc.Off? && Grows(old(sys), sys) && |sys.calls| == |old(sys.calls)|
      ensures refusal == match old(sys).disk
                         case None => Some(NoState)
                         case Some(ledger) =>
                           if ledger.pending.Some? then Some(OutcomeUnknown(ledger.pending.value))
                           else if ledger.binding.socket.None? then Some(NoSocket)
                           else None
      ensures refusal.Some? ==> sys == old(sys) && !changed
      ensures refusal.None? && old(sys).disk.value.binding.socket.value.identity == identity ==> sys == old(sys) && !changed
      ensures sys.disk == old(sys).disk
              || (refusal.None? && sys.disk.Some? && Rebound(old(sys).disk.value, identity, sys.disk.value))
      ensures changed ==> refusal.None? && sys.disk.Some? && Rebound(old(sys).disk.value, identity, sys.disk.value)
    {
      hide Run, Inv, Grows;
      HasStart(run);
      ghost var at := |run| - 1;
      refusal, changed := BeginRebind(sys, identity).1, false;
      Advance(Rebind(identity));
      if sys.proc.Saving? {
        changed := Save();
        if changed {
          Advance(Synced);
        }
      }
      ReceiptsOnlyGrow(run, at, |run| - 1);
    }
  }

  /** The ledger with another identity of its socket, and otherwise the same. */
  predicate Rebound(before: Ledger, identity: int, after: Ledger) {
    && after.pending == before.pending && after.receipts == before.receipts
    && before.binding.socket.Some?
    && after.binding == before.binding.(socket := Some(Socket(before.binding.socket.value.path, identity)))
  }

  /** A start that is not refused goes on to watch with the given binding, which is saved first if the
      directory is new or the binding adds to the saved one. */
  lemma StartTakes(s: System, given: Binding)
    requires s.proc.Off?
    requires if s.disk.None? then !s.tmp else Accepts(s.disk.value.binding, given) && s.disk.value.pending.None?
    ensures var proc := Do(s, Start(given)).proc;
            && (proc.Watching? || (proc.Saving? && proc.next.ToWatch?))
            && proc.ledger == Ledger(given, None, if s.disk.Some? then s.disk.value.receipts else map[])
            && (proc.Watching? <==> s.disk == Some(proc.ledger))
  {
    if s.disk.Some? {
      AcceptsMerged(s.disk.value.binding, given);
    }
  }

  /** A rebind that is not refused and finds another socket at the path goes on to save it. */
  lemma RebindTakes(s: System, identity: int)
    requires s.proc.Off? && s.disk.Some? && s.disk.value.pending.None? && s.disk.value.binding.socket.Some?
    requires s.disk.value.binding.socket.value.identity != identity
    ensures var proc := Do(s, Rebind(identity)).proc;
            proc.Saving? && proc.next.ToExit? && Rebound(s.disk.value, identity, proc.ledger)
  {
  }

  lemma CallingOk(s: System)
    requires Inv(s) && s.proc.Calling?
    ensures s.proc.call < |s.calls| && s.disk == Some(s.proc.ledger)
  {
  }
}
