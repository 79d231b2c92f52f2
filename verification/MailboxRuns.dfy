/** Runs of the mailbox: any number of processes notify, acknowledge, send, retire and register, one
    statement at a time in any order, and any of them may stop between two statements
    (src/store.rs). */
module MailboxRuns {
  import opened Common
  import opened Mailbox

  /** One call of `notify_once` or `ack`, with the statements of its process before and after it. */
  type Pid = nat

  datatype SkipReason = AcknowledgedBeforeNotification | ReturnedByRecipientWait | RecipientRetired

  function SkipText(reason: SkipReason): string {
    match reason
    case AcknowledgedBeforeNotification => "acknowledged_before_notification"
    case ReturnedByRecipientWait => "returned_by_recipient_wait"
    case RecipientRetired => "recipient_retired"
  }

  /** Why a claimed notification is no longer needed. */
  function SkipReasonOf(db: Db, row: Row): Option<SkipReason> {
    if row.ackAt.Some? then Some(AcknowledgedBeforeNotification)
    else if row.inReplyTo.Some? && row.returnedAt.Some? then Some(ReturnedByRecipientWait)
    else if row.recipient in db.retired then Some(RecipientRetired)
    else None
  }

  /** What a command did about the queued notice of an acknowledged message: it called `dismiss` with
      the row, or could not read the recipient's address and reported that. */
  datatype Cleanup = NotAcknowledged | Dismissed(row: Row) | LookupFailed(row: Row)

  /** Where a process is. `Claimed` to `NotifierDone` are inside `notify_once`, `Acked` to `AckerDone`
      inside `ack`; every other command changes the mailbox by single statements. */
  datatype Proc =
    | Idle
    | Claimed(id: Id)
    | Calling(id: Id)
    | Decided(id: Id, outcome: Outcome)
    | Recorded(id: Id)
    | NotifierRead(row: Row)
    | NotifierDone(row: Row, cleanup: Cleanup)
    | Acked(id: Id)
    | AckerRead(row: Row)
    | AckerDone(row: Row, cleanup: Cleanup)

  /** One native call, with the address that the caller read. */
  datatype Call = Call(pid: Pid, id: Id, recipient: Name, peer: Peer)

  /** What a process did on its way to a saved message: it tried, it read the text, it began a write
      transaction (of `save` if `saving`, of a schema upgrade otherwise), and it inserted a row. */
  datatype Event = Tried(pid: Pid) | TextRead(pid: Pid) | Began(pid: Pid, saving: bool) | Inserted(pid: Pid, id: Id)

  /** `calls` and `journal` are the native calls and the events of all processes, in order. */
  datatype System = System(db: Db, procs: map<Pid, Proc>, calls: seq<Call>, journal: seq<Event>)

  /** A mailbox without processes. */
  function Start(db: Db): System {
    System(db, map[], [], [])
  }

  /** The events of one process. */
  function Own(journal: seq<Event>, p: Pid): seq<Event> {
    if journal == [] then []
    else
      var last := journal[|journal| - 1];
      Own(journal[..|journal| - 1], p) + if last.pid == p then [last] else []
  }

  function Mine(s: System, p: Pid): seq<Event> {
    Own(s.journal, p)
  }

  /** How far a process got with saving one message: an upgrade of the schema, the text, the write
      transaction of `save`, the row. */
  datatype Work = Work(upgraded: bool, read: bool, saving: bool, inserted: Option<Id>)

  const NO_WORK: Work := Work(false, false, false, None)

  predicate Wrote(work: Work) {
    work.upgraded || work.saving
  }

  function Events(p: Pid, work: Work): seq<Event> {
    (if work.upgraded then [Began(p, false)] else []) + (if work.read then [TextRead(p)] else [])
    + (if work.saving then [Began(p, true)] else []) + (if work.inserted.Some? then [Inserted(p, work.inserted.value)] else [])
  }

  function At(s: System, p: Pid): Proc {
    if p in s.procs then s.procs[p] else Idle
  }

  datatype Action =
    | Statement(op: Op)
    | Try
    | ReadText
    | Begin(saving: bool)
    | TakeClaim(id: Id, at: Time)
    | Skip(reason: SkipReason)
    | AddressUnreadable(detail: string)
    | CallAdapter
    | AdapterReturns(outcome: Outcome)
    | Record(at: Time)
    | ReadBack
    | CleanUp(addressFound: bool)
    | Acknowledge(id: Id, actor: Name, at: Time)
    | Stop

  predicate Finished(proc: Proc) {
    proc.NotifierDone? || proc.AckerDone?
  }

  predicate Enabled(s: System, p: Pid, a: Action) {
    var proc := At(s, p);
    match a
    case Statement(op) => (proc.Idle? || Finished(proc)) && !op.Claim? && !op.Finish? && !op.Ack? && Proper(s.db, op)
    case Try => proc.Idle?
    case ReadText => proc.Idle?
    case Begin(_) => proc.Idle?
    case TakeClaim(_, _) => proc.Idle?
    case Skip(reason) =>
      proc.Claimed? && var k := Find(s.db.rows, proc.id);
      k < |s.db.rows| && SkipReasonOf(s.db, s.db.rows[k]) == Some(reason)
    case AddressUnreadable(_) => proc.Claimed?
    case CallAdapter =>
      proc.Claimed? && var k := Find(s.db.rows, proc.id); k < |s.db.rows| && s.db.rows[k].recipient in s.db.peers
    case AdapterReturns(_) => proc.Calling?
    case Record(_) => proc.Decided?
    case ReadBack => (proc.Recorded? || proc.Acked?) && Find(s.db.rows, proc.id) < |s.db.rows|
    case CleanUp(_) => proc.NotifierRead? || proc.AckerRead?
    case Acknowledge(_, _, _) => proc.Idle?
    case Stop => !Finished(proc)
  }

  /** The statement is a `save` that inserts its row. */
  predicate Inserts(db: Db, op: Op) {
    op.Save? && Decide(db, op.sender, op.recipient, op.body, op.id, op.inReplyTo).Insert?
  }

  function Noted(s: System, event: Event): System {
    s.(journal := s.journal + [event])
  }

  function CleanupOf(row: Row, addressFound: bool): Cleanup {
    if row.ackAt.None? then NotAcknowledged else if addressFound then Dismissed(row) else LookupFailed(row)
  }

  function Goes(s: System, p: Pid, proc: Proc): System {
    s.(procs := s.procs[p := proc])
  }

  function Do(s: System, p: Pid, a: Action): System
    requires Enabled(s, p, a)
  {
    var proc := At(s, p);
    match a
    case Statement(op) =>
      var t := s.(db := Apply(s.db, op));
      if Inserts(s.db, op) then Noted(t, Inserted(p, op.id)) else t
    case Try => Noted(s, Tried(p))
    case ReadText => Noted(s, TextRead(p))
    case Begin(saving) => Noted(s, Began(p, saving))
    case TakeClaim(id, at) =>
      if Claims(s.db, id) then Goes(s, p, Claimed(id)).(db := Apply(s.db, Claim(id, at))) else s
    case Skip(reason) => Goes(s, p, Decided(proc.id, Outcome(NotSubmitted, SkipText(reason))))
    case AddressUnreadable(detail) => Goes(s, p, Decided(proc.id, Outcome(NotSubmitted, detail)))
    case CallAdapter =>
      var recipient := s.db.rows[Find(s.db.rows, proc.id)].recipient;
      Goes(s, p, Calling(proc.id)).(calls := s.calls + [Call(p, proc.id, recipient, s.db.peers[recipient])])
    case AdapterReturns(outcome) => Goes(s, p, Decided(proc.id, outcome))
    case Record(at) => Goes(s, p, Recorded(proc.id)).(db := Apply(s.db, Finish(proc.id, proc.outcome, at)))
    case ReadBack =>
      var row := s.db.rows[Find(s.db.rows, proc.id)];
      Goes(s, p, if proc.Recorded? then NotifierRead(row) else AckerRead(row))
    case CleanUp(addressFound) =>
      var cleanup := CleanupOf(proc.row, addressFound);
      Goes(s, p, if proc.NotifierRead? then NotifierDone(proc.row, cleanup) else AckerDone(proc.row, cleanup))
    case Acknowledge(id, actor, at) =>
      var k := Find(s.db.rows, id);
      if k < |s.db.rows| && s.db.rows[k].recipient == actor
      then Goes(s, p, Acked(id)).(db := Apply(s.db, Ack(id, actor, at))) else s
    case Stop => Goes(s, p, Idle)
  }

  ghost predicate Step(s: System, t: System) {
    exists p, a :: Enabled(s, p, a) && t == Do(s, p, a)
  }

  ghost predicate Init(s: System) {
    WellFormed(s.db) && s == Start(s.db)
  }

  ghost predicate Run(run: seq<System>) {
    run != [] && Init(run[0]) && forall i, j :: 0 <= i && j == i + 1 < |run| ==> Step(run[i], run[j])
  }

  // ---- The invariant ----

  /** A process that holds a claim whose receipt is not saved. */
  predicate Holds(proc: Proc, id: Id) {
    (proc.Claimed? || proc.Calling? || proc.Decided?) && proc.id == id
  }

  predicate Present(db: Db, id: Id) {
    Find(db.rows, id) < |db.rows|
  }

  function RowOf(db: Db, id: Id): Row
    requires Present(db, id)
  {
    db.rows[Find(db.rows, id)]
  }

  predicate NotifierHas(proc: Proc) {
    proc.NotifierRead? || proc.NotifierDone?
  }

  predicate AckerHas(proc: Proc) {
    proc.AckerRead? || proc.AckerDone?
  }

  predicate Full(row: Row) {
    row.ackAt.Some? && row.finishedAt.Some?
  }

  /** What a process knows about the message it works on. */
  predicate Knows(db: Db, proc: Proc) {
    match proc
    case Idle => true
    case Recorded(id) => Present(db, id) && RowOf(db, id).finishedAt.Some?
    case Acked(id) => Present(db, id) && RowOf(db, id).ackAt.Some?
    case NotifierRead(row) => row.finishedAt.Some? && Present(db, row.id) && RowOf(db, row.id).finishedAt.Some?
    case NotifierDone(row, c) =>
      row.finishedAt.Some? && Present(db, row.id) && RowOf(db, row.id).finishedAt.Some?
      && (c == CleanupOf(row, true) || c == CleanupOf(row, false))
    case AckerRead(row) => row.ackAt.Some? && Present(db, row.id) && RowOf(db, row.id).ackAt.Some?
    case AckerDone(row, c) =>
      row.ackAt.Some? && Present(db, row.id) && RowOf(db, row.id).ackAt.Some?
      && (c == CleanupOf(row, true) || c == CleanupOf(row, false))
    case _ => Present(db, proc.id) && RowOf(db, proc.id).startedAt.Some? && RowOf(db, proc.id).finishedAt.None?
  }

  ghost predicate OneHolder(s: System) {
    forall p, q, id :: p != q && Holds(At(s, p), id) ==> !Holds(At(s, q), id)
  }

  ghost predicate CallsClaimed(s: System) {
    && (forall i :: 0 <= i < |s.calls| ==>
          && Present(s.db, s.calls[i].id) && RowOf(s.db, s.calls[i].id).startedAt.Some?
          && s.calls[i].recipient == RowOf(s.db, s.calls[i].id).recipient
          && s.calls[i].recipient in s.db.peers && s.calls[i].peer == s.db.peers[s.calls[i].recipient]
          && s.calls[i].peer.delivery == Native)
    && (forall i, j :: 0 <= i < j < |s.calls| ==> s.calls[i].id != s.calls[j].id)
    && (forall p, i :: 0 <= i < |s.calls| && At(s, p).Claimed? ==> At(s, p).id != s.calls[i].id)
  }

  /** Whoever reads second sees both marks. */
  ghost predicate ReadersMeet(s: System) {
    forall p, q :: NotifierHas(At(s, p)) && AckerHas(At(s, q)) && At(s, p).row.id == At(s, q).row.id
                   ==> Full(At(s, p).row) || Full(At(s, q).row)
  }

  ghost predicate Inv(s: System) {
    && WellFormed(s.db)
    && (forall p :: Knows(s.db, At(s, p)))
    && OneHolder(s) && CallsClaimed(s) && ReadersMeet(s)
  }

  // ---- Each action keeps it ----

  /** Statements of other commands leave what a process knows alone. */
  predicate SameReceipts(db: Db, later: Db) {
    |db.rows| <= |later.rows|
    && forall i :: 0 <= i < |db.rows| ==>
         (db.rows[i].finishedAt, db.rows[i].submission, db.rows[i].detail)
         == (later.rows[i].finishedAt, later.rows[i].submission, later.rows[i].detail)
  }

  lemma RowLater(db: Db, later: Db, id: Id)
    requires Extends(db, later) && Numbered(later) && Present(db, id)
    ensures Present(later, id) && LaterRow(RowOf(db, id), RowOf(later, id))
    ensures Find(later.rows, id) == Find(db.rows, id)
  {
    FindLater(db, later, id);
  }

  lemma StatementSameReceipts(db: Db, op: Op)
    requires !op.Claim? && !op.Finish?
    ensures SameReceipts(db, Apply(db, op))
  {
  }

  /** A statement that changes no receipt and no claim keeps the invariant. */
  lemma StatementKeepsInv(s: System, db: Db)
    requires Inv(s) && Extends(s.db, db) && WellFormed(db) && SameReceipts(s.db, db)
    ensures Inv(s.(db := db))
  {
    var t := s.(db := db);
    forall p
      ensures Knows(db, At(t, p))
    {
      var proc := At(s, p);
      assert Knows(s.db, proc) && At(t, p) == proc;
      if NotifierHas(proc) || AckerHas(proc) {
        RowLater(s.db, db, proc.row.id);
      } else if !proc.Idle? {
        RowLater(s.db, db, proc.id);
      }
    }
    CallsStay(s, db);
    assert forall p :: At(t, p) == At(s, p);
  }

  /** A process that moves without touching the mailbox. */
  lemma MoveKeepsInv(s: System, p: Pid, proc: Proc)
    requires Inv(s) && Knows(s.db, proc)
    requires forall id :: Holds(proc, id) ==> Holds(At(s, p), id)
    requires proc.Claimed? ==> At(s, p).Claimed?
    requires NotifierHas(proc) ==>
               (NotifierHas(At(s, p)) && proc.row == At(s, p).row)
               || (Present(s.db, proc.row.id) && proc.row == RowOf(s.db, proc.row.id))
    requires AckerHas(proc) ==>
               (AckerHas(At(s, p)) && proc.row == At(s, p).row)
               || (Present(s.db, proc.row.id) && proc.row == RowOf(s.db, proc.row.id))
    ensures Inv(Goes(s, p, proc))
  {
    var t := Goes(s, p, proc);
    assert forall q :: At(t, q) == if q == p then proc else At(s, q);
    assert proc.Claimed? ==> Holds(proc, proc.id);
    MoveKeepsReaders(s, p, proc);
    hide WellFormed, ReadersMeet, Knows;
  }

  lemma MoveKeepsReaders(s: System, p: Pid, proc: Proc)
    requires Inv(s) && Knows(s.db, proc)
    requires NotifierHas(proc) ==>
               (NotifierHas(At(s, p)) && proc.row == At(s, p).row)
               || (Present(s.db, proc.row.id) && proc.row == RowOf(s.db, proc.row.id))
    requires AckerHas(proc) ==>
               (AckerHas(At(s, p)) && proc.row == At(s, p).row)
               || (Present(s.db, proc.row.id) && proc.row == RowOf(s.db, proc.row.id))
    ensures ReadersMeet(Goes(s, p, proc))
  {
    var t := Goes(s, p, proc);
    hide WellFormed, OneHolder, CallsClaimed;
    assert forall q :: At(t, q) == if q == p then proc else At(s, q);
    forall a, b | NotifierHas(At(t, a)) && AckerHas(At(t, b)) && At(t, a).row.id == At(t, b).row.id
      ensures Full(At(t, a).row) || Full(At(t, b).row)
    {
      assert Knows(s.db, At(t, a)) && Knows(s.db, At(t, b));
      assert At(t, a) == At(s, a) || a == p;
      assert At(t, b) == At(s, b) || b == p;
    }
  }

  lemma CallsStay(s: System, db: Db)
    requires CallsClaimed(s) && Extends(s.db, db) && Numbered(db)
    ensures CallsClaimed(s.(db := db))
  {
    var t := s.(db := db);
    assert forall p :: At(t, p) == At(s, p);
    forall i | 0 <= i < |t.calls|
      ensures Present(db, t.calls[i].id) && RowOf(db, t.calls[i].id).startedAt.Some?
              && t.calls[i].recipient == RowOf(db, t.calls[i].id).recipient
    {
      RowLater(s.db, db, s.calls[i].id);
    }
  }

  /** What is known stays known when no receipt appears on a claim that is still held. */
  lemma KnowsLater(db: Db, later: Db, proc: Proc)
    requires Knows(db, proc) && Extends(db, later) && Numbered(later)
    requires forall i :: 0 <= i < |db.rows| && db.rows[i].finishedAt.Some? ==> later.rows[i].finishedAt.Some?
    requires proc.Claimed? || proc.Calling? || proc.Decided? ==>
               forall i :: 0 <= i < |db.rows| && db.rows[i].id == proc.id ==> later.rows[i].finishedAt == db.rows[i].finishedAt
    ensures Knows(later, proc)
  {
    if NotifierHas(proc) || AckerHas(proc) {
      RowLater(db, later, proc.row.id);
    } else if !proc.Idle? {
      RowLater(db, later, proc.id);
    }
  }

  lemma ClaimKeepsKnowledge(db: Db, op: Op, proc: Proc)
    requires WellFormed(db) && op.Claim? && Claims(db, op.id) && Knows(db, proc)
    ensures Knows(Apply(db, op), proc) && !Holds(proc, op.id)
  {
    ApplyExtends(db, op);
    ApplyKeepsShape(db, op);
    hide WellFormed, Extends, Apply;
    assert !Holds(proc, op.id);
    ClaimReceipts(db, op);
    KnowsLater(db, Apply(db, op), proc);
  }

  lemma ClaimReceipts(db: Db, op: Op)
    requires WellFormed(db) && op.Claim? && Claims(db, op.id)
    ensures var after := Apply(db, op);
            && Numbered(after) && Extends(db, after) && Present(after, op.id)
            && RowOf(after, op.id).startedAt.Some? && RowOf(after, op.id).finishedAt.None?
            && forall i :: 0 <= i < |db.rows| ==> after.rows[i].finishedAt == db.rows[i].finishedAt
  {
    ApplyExtends(db, op);
    ApplyKeepsShape(db, op);
    FindUnique(Apply(db, op), Find(db.rows, op.id));
    assert Receipt(RowOf(db, op.id));
  }

  lemma TakenIsKnown(s: System, p: Pid, id: Id, at: Time)
    requires Inv(s) && Enabled(s, p, TakeClaim(id, at)) && Claims(s.db, id)
    ensures var t := Do(s, p, TakeClaim(id, at));
            && WellFormed(t.db) && Numbered(t.db) && Extends(s.db, t.db) && t.calls == s.calls
            && forall q :: At(t, q) == (if q == p then Claimed(id) else At(s, q)) && Knows(t.db, At(t, q))
                           && (q != p ==> !Holds(At(s, q), id))
  {
    var t, op := Do(s, p, TakeClaim(id, at)), Claim(id, at);
    assert t.db == Apply(s.db, op);
    ApplyKeepsShape(s.db, op);
    ClaimReceipts(s.db, op);
    forall q
      ensures At(t, q) == (if q == p then Claimed(id) else At(s, q)) && Knows(t.db, At(t, q))
      ensures q != p ==> !Holds(At(s, q), id)
    {
      ClaimKeepsKnowledge(s.db, op, At(s, q));
    }
  }

  /** A new holder of a claim that nobody held. */
  lemma ClaimMoves(s: System, t: System, p: Pid, id: Id)
    requires OneHolder(s) && ReadersMeet(s)
    requires forall q :: At(t, q) == if q == p then Claimed(id) else At(s, q)
    requires forall q :: q != p ==> !Holds(At(s, q), id)
    ensures OneHolder(t) && ReadersMeet(t)
  {
  }

  lemma TakeClaimKeepsInv(s: System, p: Pid, id: Id, at: Time)
    requires Inv(s) && Enabled(s, p, TakeClaim(id, at))
    ensures Inv(Do(s, p, TakeClaim(id, at)))
  {
    if Claims(s.db, id) {
      var t := Do(s, p, TakeClaim(id, at));
      TakenIsKnown(s, p, id, at);
      CallsStay(s, t.db);
      ClaimAfterCalls(s, t, p, id);
      ClaimMoves(s, t, p, id);
      hide Do, Enabled, Claims, Knows, WellFormed, Extends, CallsClaimed, OneHolder, ReadersMeet, Holds;
    }
  }

  /** A claim that can be taken had no call. */
  lemma ClaimAfterCalls(s: System, t: System, p: Pid, id: Id)
    requires Inv(s) && Claims(s.db, id) && CallsClaimed(s.(db := t.db)) && t.calls == s.calls
    requires forall q :: At(t, q) == if q == p then Claimed(id) else At(s, q)
    ensures CallsClaimed(t)
  {
    assert forall q :: At(s.(db := t.db), q) == At(s, q);
    forall i | 0 <= i < |s.calls|
      ensures s.calls[i].id != id
    {
      assert RowOf(s.db, s.calls[i].id).startedAt.Some?;
    }
  }

  /** Saving a receipt changes nothing for a process that does not hold that claim. */
  lemma FinishKeepsKnowledge(db: Db, op: Op, proc: Proc)
    requires WellFormed(db) && op.Finish? && Proper(db, op) && Knows(db, proc) && !Holds(proc, op.id)
    ensures Knows(Apply(db, op), proc)
  {
    FinishReceipts(db, op);
    hide WellFormed, Apply, Extends, Proper;
    KnowsLater(db, Apply(db, op), proc);
  }

  lemma FinishReceipts(db: Db, op: Op)
    requires WellFormed(db) && op.Finish? && Proper(db, op)
    ensures var after := Apply(db, op);
            && WellFormed(after) && Numbered(after) && Extends(db, after) && Knows(after, Recorded(op.id))
            && forall i :: 0 <= i < |db.rows| ==>
                 (db.rows[i].finishedAt.Some? ==> after.rows[i].finishedAt.Some?)
                 && (db.rows[i].id != op.id ==> after.rows[i].finishedAt == db.rows[i].finishedAt)
  {
    ApplyExtends(db, op);
    ApplyKeepsShape(db, op);
    FindUnique(Apply(db, op), Find(db.rows, op.id));
  }

  lemma RecordKeepsKnowledge(s: System, p: Pid, at: Time)
    requires Inv(s) && Enabled(s, p, Record(at))
    ensures var t := Do(s, p, Record(at)); WellFormed(t.db) && Extends(s.db, t.db) && forall q :: Knows(t.db, At(t, q))
  {
    var t, proc := Do(s, p, Record(at)), At(s, p);
    var op := Finish(proc.id, proc.outcome, at);
    assert Knows(s.db, proc) && Holds(proc, proc.id);
    assert t.db == Apply(s.db, op) && forall q :: At(t, q) == if q == p then Recorded(proc.id) else At(s, q);
    FinishReceipts(s.db, op);
    forall q
      ensures Knows(t.db, At(t, q))
    {
      if q != p {
        assert !Holds(At(s, q), proc.id) && Knows(s.db, At(s, q));
        FinishKeepsKnowledge(s.db, op, At(s, q));
      }
    }
  }

  lemma RecordMoves(s: System, t: System, p: Pid, id: Id)
    requires OneHolder(s) && ReadersMeet(s) && CallsClaimed(s.(db := t.db)) && t.calls == s.calls
    requires forall q :: At(t, q) == if q == p then Recorded(id) else At(s, q)
    ensures OneHolder(t) && ReadersMeet(t) && CallsClaimed(t)
  {
    assert forall q :: At(s.(db := t.db), q) == At(s, q);
  }

  lemma RecordKeepsInv(s: System, p: Pid, at: Time)
    requires Inv(s) && Enabled(s, p, Record(at))
    ensures Inv(Do(s, p, Record(at)))
  {
    var t := Do(s, p, Record(at));
    RecordKeepsKnowledge(s, p, at);
    CallsStay(s, t.db);
    assert forall q :: At(t, q) == if q == p then Recorded(At(s, p).id) else At(s, q);
    assert t.calls == s.calls;
    hide WellFormed, Extends, Apply, Knows, OneHolder, ReadersMeet, CallsClaimed;
    RecordMoves(s, t, p, At(s, p).id);
  }

  lemma OpKeepsInv(s: System, op: Op)
    requires Inv(s) && Proper(s.db, op) && !op.Claim? && !op.Finish?
    ensures Inv(s.(db := Apply(s.db, op)))
  {
    ApplyExtends(s.db, op);
    ApplyKeepsShape(s.db, op);
    StatementSameReceipts(s.db, op);
    StatementKeepsInv(s, Apply(s.db, op));
  }

  /** The journal is only kept. */
  lemma JournalKeepsInv(s: System, journal: seq<Event>)
    requires Inv(s)
    ensures Inv(s.(journal := journal))
  {
    var t := s.(journal := journal);
    assert forall p :: At(t, p) == At(s, p);
    hide WellFormed, Knows;
  }

  lemma AckIsKnown(db: Db, op: Op)
    requires WellFormed(db) && op.Ack? && Present(db, op.id) && RowOf(db, op.id).recipient == op.actor
    ensures Knows(Apply(db, op), Acked(op.id))
  {
    ApplyExtends(db, op);
    ApplyKeepsShape(db, op);
    RowLater(db, Apply(db, op), op.id);
  }

  lemma AcknowledgeKeepsInv(s: System, p: Pid, id: Id, actor: Name, at: Time)
    requires Inv(s) && Enabled(s, p, Acknowledge(id, actor, at))
    ensures Inv(Do(s, p, Acknowledge(id, actor, at)))
  {
    var op := Ack(id, actor, at);
    if Present(s.db, id) && RowOf(s.db, id).recipient == actor {
      OpKeepsInv(s, op);
      AckIsKnown(s.db, op);
      MoveKeepsInv(s.(db := Apply(s.db, op)), p, Acked(id));
    }
  }

  lemma CallKeepsInv(s: System, p: Pid)
    requires Inv(s) && Enabled(s, p, CallAdapter)
    ensures Inv(Do(s, p, CallAdapter))
  {
    var id := At(s, p).id;
    assert Knows(s.db, At(s, p));
    MoveKeepsInv(s, p, Calling(id));
    assert Participants(s.db, RowOf(s.db, id));
    OneMoreCall(s, p, Goes(s, p, Calling(id)), Do(s, p, CallAdapter), id);
    assert forall q :: At(Do(s, p, CallAdapter), q) == At(Goes(s, p, Calling(id)), q);
  }

  lemma OneMoreCall(s: System, p: Pid, moved: System, t: System, id: Id)
    requires At(s, p) == Claimed(id) && CallsClaimed(s) && OneHolder(s)
    requires moved == Goes(s, p, Calling(id)) && CallsClaimed(moved)
    requires Present(s.db, id) && RowOf(s.db, id).startedAt.Some?
    requires var recipient := RowOf(s.db, id).recipient;
             && recipient in s.db.peers && s.db.peers[recipient].delivery == Native
             && t == moved.(calls := s.calls + [Call(p, id, recipient, s.db.peers[recipient])])
    ensures CallsClaimed(t)
  {
    assert forall q :: At(t, q) == if q == p then Calling(id) else At(s, q);
    assert Holds(At(s, p), id);
    forall q | At(t, q).Claimed?
      ensures At(t, q).id != id
    {
      assert !Holds(At(s, q), id);
    }
  }

  /** The steps around the native call that touch nothing but the process. */
  lemma DecidingKeepsInv(s: System, p: Pid, a: Action)
    requires Inv(s) && Enabled(s, p, a) && (a.Skip? || a.AddressUnreadable? || a.AdapterReturns? || a.Stop?)
    ensures Inv(Do(s, p, a))
  {
    var proc := At(s, p);
    assert Knows(s.db, proc);
    hide Inv;
    match a
    case Skip(reason) => MoveKeepsInv(s, p, Decided(proc.id, Outcome(NotSubmitted, SkipText(reason))));
    case AddressUnreadable(detail) => MoveKeepsInv(s, p, Decided(proc.id, Outcome(NotSubmitted, detail)));
    case AdapterReturns(outcome) => MoveKeepsInv(s, p, Decided(proc.id, outcome));
    case Stop => MoveKeepsInv(s, p, Idle);
  }

  /** Reading the row back, and acting on it. */
  lemma ReadingKeepsInv(s: System, p: Pid, a: Action)
    requires Inv(s) && Enabled(s, p, a) && (a.ReadBack? || a.CleanUp?)
    ensures Inv(Do(s, p, a))
  {
    var proc := At(s, p);
    assert Knows(s.db, proc);
    hide Inv;
    match a
    case ReadBack =>
      var row := RowOf(s.db, proc.id);
      MoveKeepsInv(s, p, if proc.Recorded? then NotifierRead(row) else AckerRead(row));
    case CleanUp(found) =>
      var cleanup := CleanupOf(proc.row, found);
      MoveKeepsInv(s, p, if proc.NotifierRead? then NotifierDone(proc.row, cleanup) else AckerDone(proc.row, cleanup));
  }

  lemma DoKeepsInv(s: System, p: Pid, a: Action)
    requires Inv(s) && Enabled(s, p, a)
    ensures Inv(Do(s, p, a))
  {
    hide Inv;
    match a
    case Statement(op) =>
      OpKeepsInv(s, op);
      JournalKeepsInv(s.(db := Apply(s.db, op)), Do(s, p, a).journal);
    case Try => JournalKeepsInv(s, Do(s, p, a).journal);
    case ReadText => JournalKeepsInv(s, Do(s, p, a).journal);
    case Begin(_) => JournalKeepsInv(s, Do(s, p, a).journal);
    case TakeClaim(id, at) => TakeClaimKeepsInv(s, p, id, at);
    case CallAdapter => CallKeepsInv(s, p);
    case Record(at) => RecordKeepsInv(s, p, at);
    case ReadBack => ReadingKeepsInv(s, p, a);
    case CleanUp(_) => ReadingKeepsInv(s, p, a);
    case Acknowledge(id, actor, at) => AcknowledgeKeepsInv(s, p, id, actor, at);
    case _ => DecidingKeepsInv(s, p, a);
  }

  // ---- Whole runs ----

  lemma {:induction false} RunKeepsInv(run: seq<System>, i: nat)
    requires Run(run) && i < |run|
    ensures Inv(run[i])
  {
    if i == 0 {
      assert forall p :: At(run[0], p) == Idle;
    } else {
      RunKeepsInv(run, i - 1);
      assert Step(run[i - 1], run[i]);
      var p, a :| Enabled(run[i - 1], p, a) && run[i] == Do(run[i - 1], p, a);
      DoKeepsInv(run[i - 1], p, a);
    }
  }

  /** In every reachable state, each message had at most one native call, always for a claimed
      message, and never for a pull recipient. Conversations have their shape. */
  lemma NotifiedAtMostOnce(run: seq<System>, i: nat)
    requires Run(run) && i < |run|
    ensures forall a, b :: 0 <= a < b < |run[i].calls| ==> run[i].calls[a].id != run[i].calls[b].id
    ensures forall a :: 0 <= a < |run[i].calls| ==>
              var call := run[i].calls[a];
              && Present(run[i].db, call.id) && RowOf(run[i].db, call.id).startedAt.Some?
              && RowOf(run[i].db, call.id).recipient == call.recipient
              && call.recipient in run[i].db.peers && run[i].db.peers[call.recipient].delivery == Native
    ensures WellFormed(run[i].db)
  {
    RunKeepsInv(run, i);
  }

  /** A saved receipt keeps its time, its outcome and its detail. */
  predicate ReceiptsKept(db: Db, later: Db) {
    |db.rows| <= |later.rows|
    && forall i :: 0 <= i < |db.rows| && db.rows[i].finishedAt.Some? ==>
         (db.rows[i].finishedAt, db.rows[i].submission, db.rows[i].detail)
         == (later.rows[i].finishedAt, later.rows[i].submission, later.rows[i].detail)
  }

  ghost predicate Grows(s: System, t: System) {
    Extends(s.db, t.db) && ReceiptsKept(s.db, t.db) && s.calls <= t.calls && s.journal <= t.journal
  }

  /** The statement that an action runs, if any. */
  function OpOf(s: System, p: Pid, a: Action): Option<Op>
    requires Enabled(s, p, a)
  {
    match a
    case Statement(op) => Some(op)
    case TakeClaim(id, at) => if Claims(s.db, id) then Some(Claim(id, at)) else None
    case Record(at) => Some(Finish(At(s, p).id, At(s, p).outcome, at))
    case Acknowledge(id, actor, at) =>
      if Present(s.db, id) && RowOf(s.db, id).recipient == actor then Some(Ack(id, actor, at)) else None
    case _ => None
  }

  lemma OpGrows(db: Db, op: Op)
    requires op.Finish? ==> Present(db, op.id) && RowOf(db, op.id).finishedAt.None?
    requires op.Claim? ==> forall i :: 0 <= i < |db.rows| ==> Receipt(db.rows[i])
    ensures Extends(db, Apply(db, op)) && ReceiptsKept(db, Apply(db, op))
  {
    ApplyExtends(db, op);
  }

  lemma DoGrows(s: System, p: Pid, a: Action)
    requires Inv(s) && Enabled(s, p, a)
    ensures Grows(s, Do(s, p, a))
  {
    assert Knows(s.db, At(s, p));
    var op, t := OpOf(s, p, a), Do(s, p, a);
    assert t.db == if op.Some? then Apply(s.db, op.value) else s.db;
    LogsGrow(s, p, a);
    if op.Some? {
      OpGrows(s.db, op.value);
      hide Do, Apply;
    } else {
      GrowsSelf(s);
      hide Do;
    }
  }

  lemma LogsGrow(s: System, p: Pid, a: Action)
    requires Enabled(s, p, a)
    ensures s.calls <= Do(s, p, a).calls && s.journal <= Do(s, p, a).journal
  {
  }

  lemma StepGrows(s: System, t: System)
    requires Inv(s) && Step(s, t)
    ensures Grows(s, t)
  {
    var p, a :| Enabled(s, p, a) && t == Do(s, p, a);
    DoGrows(s, p, a);
  }

  lemma GrowsTransitive(a: System, b: System, c: System)
    requires Grows(a, b) && Grows(b, c)
    ensures Grows(a, c)
  {
    ExtendsTransitive(a.db, b.db, c.db);
  }

  lemma RunStepGrows(run: seq<System>, i: nat)
    requires Run(run) && i + 1 < |run|
    ensures Grows(run[i], run[i + 1])
  {
    RunKeepsInv(run, i);
    StepGrows(run[i], run[i + 1]);
  }

  lemma GrowsSelf(s: System)
    ensures Grows(s, s)
  {
  }

  lemma {:induction false} GrowsAlong(run: seq<System>, i: nat, j: nat)
    requires forall k, l :: 0 <= k && l == k + 1 < |run| ==> Grows(run[k], run[l])
    requires i <= j < |run|
    ensures Grows(run[i], run[j])
    decreases j - i
  {
    if i == j {
      GrowsSelf(run[i]);
    } else {
      GrowsAlong(run, i, j - 1);
      GrowsTransitive(run[i], run[j - 1], run[j]);
    }
  }

  /** Over a run nothing saved is taken back: rows, bodies, addresses, acknowledgments, claims,
      receipts, recorded returns and calls. */
  lemma RunGrows(run: seq<System>, i: nat, j: nat)
    requires Run(run) && i <= j < |run|
    ensures Grows(run[i], run[j])
  {
    forall k, l | 0 <= k && l == k + 1 < |run|
      ensures Grows(run[k], run[l])
    {
      RunStepGrows(run, k);
    }
    GrowsAlong(run, i, j);
  }

  /** What other processes may do while `me` waits. */
  ghost predicate Meanwhile(s: System, t: System, me: Pid) {
    Grows(s, t) && At(t, me) == At(s, me) && Mine(t, me) == Mine(s, me)
    && forall i :: |s.calls| <= i < |t.calls| ==> t.calls[i].pid != me
  }

  lemma MeanwhileSelf(s: System, me: Pid)
    ensures Meanwhile(s, s, me)
  {
    GrowsSelf(s);
  }

  lemma DoIsOwn(s: System, p: Pid, a: Action, other: Pid)
    requires Enabled(s, p, a) && p != other
    ensures At(Do(s, p, a), other) == At(s, other)
    ensures s.calls <= Do(s, p, a).calls
    ensures forall i :: |s.calls| <= i < |Do(s, p, a).calls| ==> Do(s, p, a).calls[i].pid == p
    ensures Mine(Do(s, p, a), other) == Mine(s, other)
  {
    match a
    case Statement(op) => if Inserts(s.db, op) { OwnMore(s.journal, Inserted(p, op.id), other); }
    case Try => OwnMore(s.journal, Tried(p), other);
    case ReadText => OwnMore(s.journal, TextRead(p), other);
    case Begin(saving) => OwnMore(s.journal, Began(p, saving), other);
    case _ =>
  }

  lemma OwnMore(journal: seq<Event>, event: Event, p: Pid)
    ensures Own(journal + [event], p) == Own(journal, p) + if event.pid == p then [event] else []
  {
    assert (journal + [event])[..|journal|] == journal;
  }

  lemma MeanwhileStep(s: System, t: System, p: Pid, a: Action, me: Pid)
    requires Meanwhile(s, t, me) && Inv(t) && Enabled(t, p, a) && p != me
    ensures Meanwhile(s, Do(t, p, a), me)
  {
    DoGrows(t, p, a);
    GrowsTransitive(s, t, Do(t, p, a));
    DoIsOwn(t, p, a, me);
    hide Inv, Grows, Enabled, Do;
  }

  // ---- A claim without a receipt ----

  /** The message is claimed, and the process that claimed it is gone. */
  ghost predicate Abandoned(s: System, id: Id) {
    Present(s.db, id) && RowOf(s.db, id).startedAt.Some? && RowOf(s.db, id).finishedAt.None?
    && forall p :: !Holds(At(s, p), id)
  }

  lemma OpKeepsAbandoned(db: Db, op: Op, id: Id)
    requires WellFormed(db) && Proper(db, op) && (op.Finish? ==> op.id != id)
    requires Present(db, id) && RowOf(db, id).startedAt.Some? && RowOf(db, id).finishedAt.None?
    ensures Present(Apply(db, op), id) && RowOf(Apply(db, op), id).startedAt.Some? && RowOf(Apply(db, op), id).finishedAt.None?
  {
    ApplyExtends(db, op);
    ApplyKeepsShape(db, op);
    assert Numbered(Apply(db, op));
    OnlyFinishFinishes(db, op, Find(db.rows, id));
    hide WellFormed, Proper, Apply, Numbered;
    RowLater(db, Apply(db, op), id);
  }

  lemma OnlyFinishFinishes(db: Db, op: Op, k: nat)
    requires k < |db.rows| && (op.Finish? ==> op.id != db.rows[k].id)
    ensures k < |Apply(db, op).rows| && Apply(db, op).rows[k].finishedAt == db.rows[k].finishedAt
  {
  }

  lemma OpOfStep(s: System, p: Pid, a: Action)
    requires Inv(s) && Enabled(s, p, a)
    ensures var op := OpOf(s, p, a);
            && Do(s, p, a).db == (if op.Some? then Apply(s.db, op.value) else s.db)
            && (op.Some? ==> Proper(s.db, op.value) && (op.value.Finish? ==> Holds(At(s, p), op.value.id)))
  {
    assert Knows(s.db, At(s, p));
  }

  /** A native call is for a held claim, and only `TakeClaim` on an unclaimed message gives a process
      a claim. */
  lemma HoldersOfStep(s: System, p: Pid, a: Action, id: Id)
    requires Enabled(s, p, a) && (forall q :: !Holds(At(s, q), id)) && !Claims(s.db, id)
    ensures forall q :: !Holds(At(Do(s, p, a), q), id)
    ensures s.calls <= Do(s, p, a).calls
    ensures forall i :: |s.calls| <= i < |Do(s, p, a).calls| ==> Do(s, p, a).calls[i].id != id
  {
    assert !Holds(At(s, p), id);
    forall q
      ensures !Holds(At(Do(s, p, a), q), id)
    {
      assert q == p || At(Do(s, p, a), q) == At(s, q);
    }
  }

  lemma StepKeepsAbandoned(s: System, t: System, id: Id)
    requires Inv(s) && Step(s, t) && Abandoned(s, id)
    ensures Abandoned(t, id)
    ensures s.calls <= t.calls && forall i :: |s.calls| <= i < |t.calls| ==> t.calls[i].id != id
  {
    var p, a :| Enabled(s, p, a) && t == Do(s, p, a);
    assert !Claims(s.db, id) && !Holds(At(s, p), id);
    OpOfStep(s, p, a);
    HoldersOfStep(s, p, a, id);
    var op := OpOf(s, p, a);
    hide Enabled, Do, OpOf, Inv, Claims, Proper;
    if op.Some? {
      assert WellFormed(s.db) by { InvShape(s); }
      OpKeepsAbandoned(s.db, op.value, id);
    }
  }

  lemma InvShape(s: System)
    requires Inv(s)
    ensures WellFormed(s.db)
  {
  }

  /** Such a message stays `submission_unknown` for ever, and no one calls the client for it again. */
  lemma {:induction false} AbandonedClaimStaysUnknown(run: seq<System>, i: nat, j: nat, id: Id)
    requires Run(run) && i <= j < |run| && Abandoned(run[i], id)
    ensures Abandoned(run[j], id) && RowOf(run[j].db, id).submission == SubmissionUnknown
    ensures |run[i].calls| <= |run[j].calls| && forall k :: |run[i].calls| <= k < |run[j].calls| ==> run[j].calls[k].id != id
    decreases j - i
  {
    hide Inv, Step, Enabled, Do, WellFormed;
    RunKeepsInv(run, j);
    if i == j {
    } else {
      AbandonedClaimStaysUnknown(run, i, j - 1, id);
      RunKeepsInv(run, j - 1);
      assert Step(run[j - 1], run[j]);
      StepKeepsAbandoned(run[j - 1], run[j], id);
    }
    UnfinishedIsUnknown(run[j].db, id) by { InvShape(run[j]); }
  }

  lemma UnfinishedIsUnknown(db: Db, id: Id)
    requires WellFormed(db) && Present(db, id) && RowOf(db, id).startedAt.Some? && RowOf(db, id).finishedAt.None?
    ensures RowOf(db, id).submission == SubmissionUnknown
  {
    assert Receipt(RowOf(db, id));
  }

  // ---- No lost cleanup ----

  /** The process saw both the acknowledgment and the receipt, and acted on that row. */
  predicate CleansFullRow(proc: Proc) {
    Finished(proc) && Full(proc.row)
    && (proc.cleanup == Dismissed(proc.row) || proc.cleanup == LookupFailed(proc.row))
  }

  /** `dismiss` was called with a row of this message that shows both marks. */
  ghost predicate DismissedFull(p: Proc, q: Proc, id: Id)
    requires Finished(p) && Finished(q)
  {
    exists row :: Full(row) && row.id == id && (p.cleanup == Dismissed(row) || q.cleanup == Dismissed(row))
  }

  /** The process read a row with both marks, and could read the recipient's address. */
  predicate FoundAddress(proc: Proc)
    requires Finished(proc)
  {
    Full(proc.row) && !proc.cleanup.LookupFailed?
  }

  /** When the process that saved a receipt and a process that acknowledged have both finished without
      error, one of them worked on a row with both marks. `dismiss` was called with such a row exactly if
      one that read both marks found the recipient's address; otherwise it reported that it did not. */
  lemma NoLostCleanup(run: seq<System>, i: nat, p: Pid, q: Pid)
    requires Run(run) && i < |run|
    requires At(run[i], p).NotifierDone? && At(run[i], q).AckerDone? && At(run[i], p).row.id == At(run[i], q).row.id
    ensures CleansFullRow(At(run[i], p)) || CleansFullRow(At(run[i], q))
    ensures DismissedFull(At(run[i], p), At(run[i], q), At(run[i], p).row.id)
            <==> FoundAddress(At(run[i], p)) || FoundAddress(At(run[i], q))
  {
    RunKeepsInv(run, i);
    assert Knows(run[i].db, At(run[i], p)) && Knows(run[i].db, At(run[i], q));
    if Full(At(run[i], p).row) {
      assert CleansFullRow(At(run[i], p));
    } else {
      assert CleansFullRow(At(run[i], q));
    }
  }

  lemma RunMore(run: seq<System>, p: Pid, a: Action) returns (longer: seq<System>)
    requires Run(run) && Enabled(run[|run| - 1], p, a)
    ensures Run(longer) && longer == run + [Do(run[|run| - 1], p, a)] && longer[0] == run[0]
  {
    longer := run + [Do(run[|run| - 1], p, a)];
    assert Step(run[|run| - 1], longer[|run|]);
  }

  /** A statement that marks a row is on that row, also afterwards. */
  lemma MarkedRow(db: Db, op: Op)
    requires WellFormed(db) && (op.Claim? || op.Finish?) && Proper(db, op) && Present(db, op.id)
    ensures Present(Apply(db, op), op.id) && RowOf(Apply(db, op), op.id) == Marked(db, op)
  {
    ApplyExtends(db, op);
    ApplyKeepsShape(db, op);
    RowLater(db, Apply(db, op), op.id);
  }

  /** A process claims the message and calls the client. */
  lemma ClaimRun(db: Db, id: Id) returns (run: seq<System>)
    requires WellFormed(db) && Claims(db, id)
    ensures Run(run) && run[0].db == db
    ensures var s := run[|run| - 1];
            && At(s, 0) == Decided(id, Outcome(Submitted, "queued")) && At(s, 1) == Idle
            && WellFormed(s.db) && Present(s.db, id) && RowOf(s.db, id).startedAt.Some? && RowOf(s.db, id).ackAt.None?
  {
    run := [Start(db)];
    MarkedRow(db, Claim(id, 1));
    ApplyKeepsShape(db, Claim(id, 1));
    hide Run, WellFormed, Apply;
    run := RunMore(run, 0, TakeClaim(id, 1));
    RowMatters(run[|run| - 1].db, id);
    run := RunMore(run, 0, CallAdapter);
    run := RunMore(run, 0, AdapterReturns(Outcome(Submitted, "queued")));
  }

  /** And it saves the receipt. */
  lemma SubmitRun(db: Db, id: Id) returns (run: seq<System>)
    requires WellFormed(db) && Claims(db, id)
    ensures Run(run) && run[0].db == db
    ensures var s := run[|run| - 1];
            && At(s, 0) == Recorded(id) && At(s, 1) == Idle && Present(s.db, id) && RowOf(s.db, id).finishedAt.Some?
            && RowOf(s.db, id).ackAt.None?
  {
    run := ClaimRun(db, id);
    MarkedRow(run[|run| - 1].db, Finish(id, Outcome(Submitted, "queued"), 2));
    hide Run, WellFormed, Apply;
    run := RunMore(run, 0, Record(2));
  }

  lemma RowMatters(db: Db, id: Id)
    requires WellFormed(db) && Present(db, id)
    ensures RowOf(db, id).recipient in db.peers
  {
    assert Participants(db, RowOf(db, id));
  }

  /** One failed look for the address is enough: for every unclaimed open message to a native peer there
      is a run in which the notifier reads before the acknowledgment, both commands end without error,
      only the acknowledger fails to read the address, and `dismiss` is never called. */
  lemma CleanupCanBeMissed(db: Db, id: Id) returns (run: seq<System>)
    requires WellFormed(db) && Claims(db, id)
    ensures Run(run) && run[0].db == db && MissedCleanup(run[|run| - 1], id)
  {
    run := SubmitRun(db, id);
    hide Run, WellFormed, Knows;
    var row := RowOf(run[|run| - 1].db, id);
    run := RunMore(run, 0, ReadBack);
    run := RunMore(run, 0, CleanUp(true));
    assert At(run[|run| - 1], 0) == NotifierDone(row, NotAcknowledged);
    run := AcknowledgeWithoutAddress(run, id);
  }

  lemma AcknowledgeWithoutAddress(before: seq<System>, id: Id) returns (run: seq<System>)
    requires before != [] && Run(before)
    requires var s := before[|before| - 1];
             && At(s, 0).NotifierDone? && At(s, 0).row.id == id && At(s, 0).cleanup == NotAcknowledged
             && At(s, 1) == Idle && Present(s.db, id) && RowOf(s.db, id).finishedAt.Some?
    ensures Run(run) && run[0] == before[0] && MissedCleanup(run[|run| - 1], id)
  {
    hide Run, WellFormed, Knows;
    RunKeepsInv(before, |before| - 1);
    var s := before[|before| - 1];
    AckedIsFull(s, id, RowOf(s.db, id).recipient, 3);
    run := RunMore(before, 1, Acknowledge(id, RowOf(s.db, id).recipient, 3));
    run := RunMore(run, 1, ReadBack);
    run := RunMore(run, 1, CleanUp(false));
  }

  lemma AckedIsFull(s: System, id: Id, actor: Name, at: Time)
    requires Inv(s) && Present(s.db, id) && RowOf(s.db, id).finishedAt.Some? && RowOf(s.db, id).recipient == actor
    ensures var db := Apply(s.db, Ack(id, actor, at)); Present(db, id) && Full(RowOf(db, id))
  {
    var op := Ack(id, actor, at);
    ApplyExtends(s.db, op);
    ApplyKeepsShape(s.db, op);
    RowLater(s.db, Apply(s.db, op), id);
  }

  /** Both have finished, one of them saw both marks, and no one called `dismiss`. */
  ghost predicate MissedCleanup(s: System, id: Id) {
    && At(s, 0).NotifierDone? && At(s, 1).AckerDone? && At(s, 0).row.id == At(s, 1).row.id == id
    && At(s, 0).cleanup == NotAcknowledged
    && Full(At(s, 1).row) && At(s, 1).cleanup.LookupFailed?
  }
}
