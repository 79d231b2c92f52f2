/** The commands of one process on the shared mailbox (src/store.rs), statement by statement, while
    any other processes run between the statements. `sys` is the world; `run` is how it got there. */
module Store {
  import opened Common
  import opened Mailbox
  import opened MailboxRuns
  import opened SaveRules
  import opened WriteTurn

  /** A row with its answer, as commands return it. */
  datatype Message = Message(row: Row, reply: Option<Row>)

  function ReplyOf(db: Db, row: Row): Option<Row> {
    if Answered(db.rows, row.id) then Some(db.rows[FindAnswer(db.rows, row.id)]) else None
  }

  function Load(db: Db, id: Id, actor: Option<Name>): Result<Message> {
    if !Present(db, id) then Err(UnknownMessage)
    else
      var row := RowOf(db, id);
      if actor.Some? && actor.value != row.sender && actor.value != row.recipient then Err(NotAddressed)
      else Ok(Message(row, ReplyOf(db, row)))
  }

  /** The message with this id, by the rows: its row, and the row that answers it if there is one. */
  ghost predicate IsMessage(db: Db, id: Id, m: Message) {
    m.row in db.rows && m.row.id == id
    && match m.reply
       case None => Unanswered(db, id)
       case Some(reply) => reply in db.rows && reply.inReplyTo == Some(id)
  }

  lemma OneMessage(db: Db, id: Id, m: Message, n: Message)
    requires WellFormed(db) && IsMessage(db, id, m) && IsMessage(db, id, n)
    ensures m == n
  {
    SameRow(db, m.row, n.row);
    if m.reply.Some? && n.reply.Some? {
      SameRow(db, m.reply.value, n.reply.value);
    }
    hide WellFormed;
  }

  lemma FoundIsMessage(db: Db, id: Id)
    requires Present(db, id)
    ensures IsMessage(db, id, Message(RowOf(db, id), ReplyOf(db, RowOf(db, id))))
  {
    FoundOrUnanswered(db, id);
    var k, a := Find(db.rows, id), FindAnswer(db.rows, id);
    assert db.rows[k] in db.rows;
    assert a < |db.rows| ==> db.rows[a] in db.rows;
  }

  /** What `load` finds: the message with this id, for its sender, its recipient, or anyone who gives no
      name; anyone else is told that it is not theirs. */
  lemma LoadByRows(db: Db, id: Id, actor: Option<Name>, m: Message)
    requires WellFormed(db)
    ensures Load(db, id, actor) == Err(UnknownMessage) <==> Unused(db, id)
    ensures IsMessage(db, id, m) ==>
              Load(db, id, actor) == if actor in {None, Some(m.row.sender), Some(m.row.recipient)} then Ok(m) else Err(NotAddressed)
    ensures Load(db, id, actor) == Ok(m) ==> IsMessage(db, id, m)
  {
    FoundOrUnused(db, id);
    if Present(db, id) {
      FoundIsMessage(db, id);
      if IsMessage(db, id, m) {
        OneMessage(db, id, m, Message(RowOf(db, id), ReplyOf(db, RowOf(db, id))));
      }
    }
    hide WellFormed, Find, FindAnswer, ReplyOf;
  }

  /** At this place in the run the process took this step. */
  ghost predicate Stepped(run: seq<System>, at: nat, me: Pid, a: Action) {
    at + 1 < |run| && Enabled(run[at], me, a) && run[at + 1] == Do(run[at], me, a)
  }

  lemma SteppedLater(run: seq<System>, longer: seq<System>, at: nat, me: Pid, a: Action)
    requires run <= longer && Stepped(run, at, me, a)
    ensures Stepped(longer, at, me, a)
  {
    assert longer[at] == run[at] && longer[at + 1] == run[at + 1];
  }

  /** At this place in the run the process ran this statement. */
  ghost predicate Ran(run: seq<System>, at: nat, me: Pid, op: Op) {
    Stepped(run, at, me, Statement(op))
  }

  lemma RanLater(run: seq<System>, longer: seq<System>, at: nat, me: Pid, op: Op)
    requires run <= longer && Ran(run, at, me, op)
    ensures Ran(longer, at, me, op)
  {
    SteppedLater(run, longer, at, me, Statement(op));
  }

  // ---- When a notice is not needed, by the marks ----

  /** The recipient acknowledged the message, it is an answer that the recipient's own wait returned, or
      the recipient is retired. */
  predicate Needless(db: Db, row: Row) {
    row.ackAt.Some? || (row.inReplyTo.Some? && row.returnedAt.Some?) || row.recipient in db.retired
  }

  /** The detail of the receipt names the first of these causes. */
  predicate NamesCause(db: Db, row: Row, detail: string) {
    if row.ackAt.Some? then detail == "acknowledged_before_notification"
    else if row.inReplyTo.Some? && row.returnedAt.Some? then detail == "returned_by_recipient_wait"
    else row.recipient in db.retired && detail == "recipient_retired"
  }

  /** A notice is needless once its recipient acknowledged the message, had it returned by its own wait if
      it is an answer, or was retired. */
  lemma NeedlessAfter(db: Db, id: Id, actor: Name, at: Time)
    requires WellFormed(db) && Present(db, id) && RowOf(db, id).recipient == actor
    ensures var acked := Apply(db, Mailbox.Op.Ack(id, actor, at)); Present(acked, id) && Needless(acked, RowOf(acked, id))
    ensures var returned := Apply(db, Returned(id, actor, at));
            && Present(returned, id)
            && (Needless(returned, RowOf(returned, id)) <==> Needless(db, RowOf(db, id)) || RowOf(db, id).inReplyTo.Some?)
    ensures var retired := Apply(db, Retire(actor, at)); Present(retired, id) && Needless(retired, RowOf(retired, id))
  {
    AcknowledgedRow(db, id, actor, at);
    var k := Find(db.rows, id);
    assert Participants(db, db.rows[k]);
    var returned := Apply(db, Returned(id, actor, at));
    assert returned.rows[k].id == id && forall i :: 0 <= i < k ==> returned.rows[i].id != id;
  }

  /** Nobody else acknowledges a message or records its return. */
  lemma OnlyRecipientMarks(db: Db, id: Id, actor: Name, at: Time)
    requires !(Present(db, id) && RowOf(db, id).recipient == actor)
    ensures Apply(db, Mailbox.Op.Ack(id, actor, at)) == db && Apply(db, Returned(id, actor, at)) == db
  {
    var k := Find(db.rows, id);
    if k < |db.rows| {
      assert db.rows[k := db.rows[k]] == db.rows;
    }
  }

  lemma SkipHasCause(db: Db, row: Row)
    ensures SkipReasonOf(db, row).Some? <==> Needless(db, row)
    ensures SkipReasonOf(db, row).Some? ==> NamesCause(db, row, SkipText(SkipReasonOf(db, row).value))
  {
  }

  /** What a claimed notification that ended without error did. `looked` is the last look at the marks, if it
      could be read, and `decided` the step that decided: a message that was needless then was not
      submitted, and the receipt names the cause; any other was given to the client, or its address could
      not be read. */
  ghost predicate Justified(run: seq<System>, me: Pid, id: Id, looked: Option<nat>, decided: nat, called: bool, outcome: Outcome) {
    && (looked.Some? ==> looked.value < |run| && Present(run[looked.value].db, id))
    && if looked.Some? && Needless(run[looked.value].db, RowOf(run[looked.value].db, id))
       then !called && outcome.submission == NotSubmitted
            && NamesCause(run[looked.value].db, RowOf(run[looked.value].db, id), outcome.detail)
       else if called then Stepped(run, decided, me, CallAdapter)
       else outcome.submission == NotSubmitted && Stepped(run, decided, me, AddressUnreadable(outcome.detail))
  }

  lemma SkipJustified(run: seq<System>, me: Pid, id: Id, looked: nat, reason: SkipReason)
    requires looked < |run| && Present(run[looked].db, id) && SkipReasonOf(run[looked].db, RowOf(run[looked].db, id)) == Some(reason)
    ensures Justified(run, me, id, Some(looked), looked, false, Outcome(NotSubmitted, SkipText(reason)))
  {
    SkipHasCause(run[looked].db, RowOf(run[looked].db, id));
  }

  lemma AskJustified(run: seq<System>, me: Pid, id: Id, looked: Option<nat>, decided: nat, called: bool, outcome: Outcome)
    requires looked.Some? ==> looked.value < |run| && Present(run[looked.value].db, id)
                              && !Needless(run[looked.value].db, RowOf(run[looked.value].db, id))
    requires !called ==> outcome.submission == NotSubmitted
    requires Stepped(run, decided, me, if called then CallAdapter else AddressUnreadable(outcome.detail))
    ensures Justified(run, me, id, looked, decided, called, outcome)
  {
  }

  lemma JustifiedLater(run: seq<System>, longer: seq<System>, me: Pid, id: Id, looked: Option<nat>, decided: nat, called: bool,
                       outcome: Outcome)
    requires run <= longer && Justified(run, me, id, looked, decided, called, outcome)
    ensures Justified(longer, me, id, looked, decided, called, outcome)
  {
    assert forall i :: 0 <= i < |run| ==> longer[i] == run[i];
  }

  /** The native calls since `before` are none of `me`'s. */
  ghost predicate NoCall(before: seq<Call>, after: seq<Call>, me: Pid) {
    before <= after && forall i :: |before| <= i < |after| ==> after[i].pid != me
  }

  lemma NoCallTransitive(a: seq<Call>, b: seq<Call>, c: seq<Call>, me: Pid)
    requires NoCall(a, b, me) && NoCall(b, c, me)
    ensures NoCall(a, c, me)
  {
  }

  /** Exactly one of the native calls since `before` is `me`'s, for message `id`. */
  ghost predicate OneCall(before: seq<Call>, after: seq<Call>, me: Pid, id: Id) {
    && before <= after
    && exists k :: |before| <= k < |after| && after[k].pid == me && after[k].id == id
                   && forall i :: |before| <= i < |after| && i != k ==> after[i].pid != me
  }

  lemma MeanwhileNoCall(s: System, t: System, me: Pid)
    requires Meanwhile(s, t, me)
    ensures NoCall(s.calls, t.calls, me) && At(t, me) == At(s, me) && Extends(s.db, t.db)
    ensures Mine(t, me) == Mine(s, me)
  {
  }

  class Store {
    const me: Pid
    /** The mode of the thread that runs the command. */
    const turn: Turn
    var sys: System
    ghost var run: seq<System>

    ghost predicate Valid()
      reads this
    {
      run != [] && Run(run) && run[|run| - 1] == sys && Inv(sys)
    }

    constructor (me: Pid, turn: Turn, db: Db)
      requires WellFormed(db)
      ensures this.me == me && this.turn == turn && Valid() && sys == Start(db)
    {
      this.me, this.turn := me, turn;
      sys := Start(db);
      run := [Start(db)];
      RunKeepsInv([Start(db)], 0);
    }

    /** One statement or one call of this process. */
    method Act(a: Action)
      requires Valid() && Enabled(sys, me, a)
      modifies this`sys, this`run
      ensures Valid() && sys == Do(old(sys), me, a) && run == old(run) + [sys]
    {
      Advance(me, a);
    }

    /** Any number of steps of other processes. */
    method Others()
      requires Valid()
      modifies this`sys, this`run
      ensures Valid() && old(run) <= run && Meanwhile(old(sys), sys, me)
      ensures At(sys, me) == At(old(sys), me) && NoCall(old(sys.calls), sys.calls, me)
      ensures Mine(sys, me) == Mine(old(sys), me)
    {
      hide Run, Inv, Meanwhile, NoCall;
      var steps: nat :| true;
      MeanwhileSelf(sys, me);
      for n := 0 to steps
        invariant Valid() && old(run) <= run && Meanwhile(old(sys), sys, me)
      {
        var p: Pid :| true;
        var a: Action :| true;
        if p != me && Enabled(sys, p, a) {
          MeanwhileStep(old(sys), sys, p, a, me);
          Advance(p, a);
        }
      }
      MeanwhileNoCall(old(sys), sys, me);
    }

    /** One step of any process. */
    method Advance(p: Pid, a: Action)
      requires Valid() && Enabled(sys, p, a)
      modifies this`sys, this`run
      ensures Valid() && sys == Do(old(sys), p, a) && run == old(run) + [sys]
    {
      hide Run, Inv, Enabled, Do;
      ghost var longer := RunMore(run, p, a);
      RunKeepsInv(longer, |longer| - 1);
      sys := Do(sys, p, a);
      run := longer;
    }

    /** `load` on a fresh connection, which may find the mailbox busy or unreadable. */
    method Get(id: Id, actor: Option<Name>) returns (r: Result<Message>)
      requires Valid()
      modifies this`sys, this`run
      ensures Valid() && old(run) <= run && Meanwhile(old(sys), sys, me)
      ensures At(sys, me) == At(old(sys), me) && NoCall(old(sys.calls), sys.calls, me)
      ensures Mine(sys, me) == Mine(old(sys), me)
      ensures (r.Err? && r.error.DbFailure?) || r == Load(sys.db, id, actor)
    {
      hide Run, Inv;
      Others();
      if * {
        var busy: bool :| true;
        return Err(DbFailure(busy));
      }
      r := Load(sys.db, id, actor);
    }

    /** `save`. `at` is where in the run its transaction decided: what it returns and whether it wrote
        follow from the tables at that moment, whatever others did before and after. `work` is what it
        did, by the journal. Unless the database fails, a first request is inserted exactly if no peer is
        retired, and a first answer whoever is. */
    method Save(sender: Name, recipient: Name, body: string, id: Id, inReplyTo: Option<Id>)
      returns (r: Result<(Message, bool)>, ghost at: nat, ghost work: Work)
      requires Valid() && At(sys, me).Idle?
      modifies this`sys, this`run, turn
      ensures Valid() && old(run) <= run && At(sys, me).Idle? && NoCall(old(sys.calls), sys.calls, me)
      ensures at < |run| && |old(run)| <= at + 1
      ensures Mine(sys, me) == Mine(old(sys), me) + Events(me, work) && !work.upgraded && !work.read
      ensures Saving(run, at, me, sender, recipient, body, id, inReplyTo, work)
      ensures turn.mode == if work.saving then Normal else old(turn.mode)
      ensures r.Ok? ==> work.saving && (r.value.1 <==> work.inserted.Some?)
      ensures r.Ok? ==> SavedAs(run, at, sender, recipient, body, id, inReplyTo, r.value.0, r.value.1)
                        && Present(sys.db, r.value.0.row.id)
      ensures r.Err? ==> r.error.DbFailure? || SaveError(run[at].db, sender, recipient, body, id, inReplyTo, r.error)
      ensures r.Err? && sender != recipient && id != "" && Allowed(run[at].db, sender, recipient, id, inReplyTo) ==> r.error.DbFailure?
    {
      hide Run, Inv, Meanwhile, Decide, SavedAs, Own, Saving, Refuses, Allowed, Extends;
      work := NO_WORK;
      Others();
      at := |run| - 1;
      NothingSaved(run, at, me, sender, recipient, body, id, inReplyTo);
      if * {
        var busy: bool :| true;
        return Err(DbFailure(busy)), at, work;
      }
      if sender !in sys.db.peers || recipient !in sys.db.peers {
        NeedsPeers(sys, sender, recipient, id, inReplyTo);
        return Err(UnknownPeer), at, work;
      }
      var pull := sys.db.peers[recipient].delivery == Pull;
      if sender == recipient {
        return Err(SenderIsRecipient), at, work;
      }
      if id == "" {
        return Err(InvalidId), at, work;
      }
      ghost var before := sys.calls;
      r, at, work := SaveTransaction(sender, recipient, body, id, inReplyTo, pull);
      NoCallTransitive(old(sys.calls), before, sys.calls, me);
    }

    /** The write transaction of `save`. */
    method SaveTransaction(sender: Name, recipient: Name, body: string, id: Id, inReplyTo: Option<Id>, pull: bool)
      returns (r: Result<(Message, bool)>, ghost at: nat, ghost work: Work)
      requires Valid() && At(sys, me).Idle? && sender != recipient && id != ""
      requires BothRegistered(sys.db, sender, recipient) && pull == (sys.db.peers[recipient].delivery == Pull)
      modifies this`sys, this`run, turn
      ensures Valid() && old(run) <= run && At(sys, me).Idle? && NoCall(old(sys.calls), sys.calls, me)
      ensures at < |run| && |old(run)| <= at + 1
      ensures Mine(sys, me) == Mine(old(sys), me) + Events(me, work) && !work.upgraded && !work.read
      ensures Saving(run, at, me, sender, recipient, body, id, inReplyTo, work)
      ensures turn.mode == if work.saving then Normal else old(turn.mode)
      ensures r.Ok? ==> work.saving && (r.value.1 <==> work.inserted.Some?)
      ensures r.Ok? ==> SavedAs(run, at, sender, recipient, body, id, inReplyTo, r.value.0, r.value.1)
                        && Present(sys.db, r.value.0.row.id)
      ensures BothRegistered(run[at].db, sender, recipient)
      ensures r.Err? ==> r.error.DbFailure? || Refuses(run[at].db, sender, recipient, body, id, inReplyTo, r.error)
      ensures r.Err? && Allowed(run[at].db, sender, recipient, id, inReplyTo) ==> r.error.DbFailure?
    {
      hide Run, Inv, Meanwhile, Decide, ReplyOf, Own, Saving, SavedAs, Refuses, Allowed, Extends;
      work := NO_WORK;
      Others();
      MeanwhileNoCall(old(sys), sys, me);
      PeersStay(old(sys.db), sys.db, recipient);
      PeersStay(old(sys.db), sys.db, sender);
      // BEGIN IMMEDIATE
      if * {
        at := |run| - 1;
        NothingSaved(run, at, me, sender, recipient, body, id, inReplyTo);
        var busy: bool :| true;
        return Err(DbFailure(busy)), at, work;
      }
      OwnMore(sys.journal, Began(me, true), me);
      Act(Begin(true));
      at := |run| - 1;
      work := Work(false, false, true, None);
      TransactionBegan(run, me, sender, recipient, body, id, inReplyTo);
      turn.StartedWrite();
      var outcome := Decide(sys.db, sender, recipient, body, id, inReplyTo);
      DecidedNow(sys, sender, recipient, body, id, inReplyTo);
      match outcome
      case Refused(error) => return Err(error), at, work;
      case Existing(row) =>
        ExistingPresent(sys.db, sender, recipient, body, id, inReplyTo);
        FoundAs(run, sender, recipient, body, id, inReplyTo, Message(row, ReplyOf(sys.db, row)));
        return Ok((Message(row, ReplyOf(sys.db, row)), false)), at, work;
      case Insert =>
        // INSERT or COMMIT may fail; then nothing is written.
        if * {
          var busy: bool :| true;
          return Err(DbFailure(busy)), at, work;
        }
        var now: Time :| true;
        ghost var before := sys.calls;
        r := InsertRow(sender, recipient, body, id, inReplyTo, now, pull);
        NoCallTransitive(old(sys.calls), before, sys.calls, me);
        work := Work(false, false, true, Some(id));
    }

    /** The INSERT, and reading the row back after COMMIT. */
    method InsertRow(sender: Name, recipient: Name, body: string, id: Id, inReplyTo: Option<Id>, now: Time, pull: bool)
      returns (r: Result<(Message, bool)>)
      requires Valid() && At(sys, me).Idle? && id != "" && sender != recipient
      requires Decide(sys.db, sender, recipient, body, id, inReplyTo).Insert?
      requires recipient in sys.db.peers && pull == (sys.db.peers[recipient].delivery == Pull)
      requires Saving(run, |run| - 1, me, sender, recipient, body, id, inReplyTo, Work(false, false, true, None))
      modifies this`sys, this`run
      ensures Valid() && old(run) <= run && At(sys, me).Idle? && NoCall(old(sys.calls), sys.calls, me)
      ensures Mine(sys, me) == Mine(old(sys), me) + [Inserted(me, id)]
      ensures Saving(run, |old(run)| - 1, me, sender, recipient, body, id, inReplyTo, Work(false, false, true, Some(id)))
      ensures r.Ok? ==> r.value.1 && SavedAs(run, |old(run)| - 1, sender, recipient, body, id, inReplyTo, r.value.0, true)
                        && Present(sys.db, r.value.0.row.id)
      ensures r.Err? ==> r.error.DbFailure?
    {
      hide Run, Inv, Decide, Enabled, Meanwhile, Extends, WellFormed, LaterRow, Own, Allowed, Saving, SavedAs;
      var op := Mailbox.Op.Save(sender, recipient, body, id, inReplyTo, now, pull);
      assert WellFormed(sys.db) by { InvShape(sys); }
      DecidedNow(sys, sender, recipient, body, id, inReplyTo);
      SavedRow(sys.db, op);
      assert Enabled(sys, me, Statement(op)) by { StatementEnabled(sys, me, op); }
      OwnMore(sys.journal, Inserted(me, id), me);
      Act(Statement(op));
      var loaded := Reread(id);
      if loaded.Err? {
        InsertedAs(old(run), run, me, op, None);
        return Err(loaded.error);
      }
      InsertedAs(old(run), run, me, op, Some(loaded.value));
      return Ok((loaded.value, true));
    }

    /** Reads a message back that is in the mailbox: it is there, with all its marks. */
    method Reread(id: Id) returns (r: Result<Message>)
      requires Valid() && Present(sys.db, id)
      modifies this`sys, this`run
      ensures Valid() && old(run) <= run && At(sys, me) == At(old(sys), me) && NoCall(old(sys.calls), sys.calls, me)
      ensures Mine(sys, me) == Mine(old(sys), me)
      ensures Present(sys.db, id)
      ensures r.Ok? ==> LaterRow(RowOf(old(sys.db), id), r.value.row) && r.value.row == RowOf(sys.db, id)
      ensures r.Err? ==> r.error.DbFailure?
    {
      hide Run, Inv, Meanwhile, Extends, LaterRow;
      r := Get(id, None);
      assert Numbered(sys.db) by { InvShape(sys); }
      MeanwhileNoCall(old(sys), sys, me);
      RowLater(old(sys.db), sys.db, id);
    }

    /** `skip_after_grace`: look for a reason to skip, again and again while the recipient's poll may
        return the answer. A reason that is found holds at that moment. */
    method SkipAfterGrace(id: Id) returns (r: Result<Option<SkipReason>>)
      requires Valid() && At(sys, me) == Claimed(id)
      modifies this`sys, this`run
      ensures Valid() && old(run) <= run && At(sys, me) == old(At(sys, me)) && NoCall(old(sys.calls), sys.calls, me)
      ensures Mine(sys, me) == Mine(old(sys), me)
      ensures r.Ok? ==> Present(sys.db, id) && r.value == SkipReasonOf(sys.db, RowOf(sys.db, id))
      ensures r.Ok? ==> (r.value.Some? <==> Needless(sys.db, RowOf(sys.db, id)))
      ensures r.Ok? && r.value.Some? ==> NamesCause(sys.db, RowOf(sys.db, id), SkipText(r.value.value))
      ensures r.Err? ==> r.error.DbFailure?
    {
      hide Run, Inv, Meanwhile, Needless, NamesCause;
      var polls: nat :| true;
      var left := polls;
      while true
        invariant Valid() && old(run) <= run && At(sys, me) == old(At(sys, me)) && NoCall(old(sys.calls), sys.calls, me)
        invariant Mine(sys, me) == Mine(old(sys), me)
        decreases left
      {
        ghost var before := sys.calls;
        Others();
        NoCallTransitive(old(sys.calls), before, sys.calls, me);
        if * {
          var busy: bool :| true;
          return Err(DbFailure(busy));
        }
        assert Present(sys.db, id) by { HolderPresent(sys, me); }
        var reason := SkipReasonOf(sys.db, RowOf(sys.db, id));
        SkipHasCause(sys.db, RowOf(sys.db, id));
        if reason.Some? || left == 0 {
          return Ok(reason);
        }
        left := left - 1;
      }
    }

    /** `dismiss_acknowledged`, after the mark of this process is durable: read the row, and act on the
        queued notice if it shows an acknowledgment. */
    method DismissAcknowledged(id: Id) returns (r: Result<Message>)
      requires Valid() && (At(sys, me) == Recorded(id) || At(sys, me) == Acked(id))
      modifies this`sys, this`run
      ensures Valid() && old(run) <= run && NoCall(old(sys.calls), sys.calls, me)
      ensures Mine(sys, me) == Mine(old(sys), me)
      ensures r.Err? ==> At(sys, me) == Idle && (r.error.DbFailure? || !Present(old(sys.db), id))
      ensures r.Ok? ==>
                Finished(At(sys, me)) && At(sys, me).row == r.value.row && r.value.row.id == id
                && (At(sys, me).NotifierDone? <==> old(At(sys, me)).Recorded?)
                && CleanedAs(At(sys, me).cleanup, r.value.row)
      ensures r.Ok? && Present(old(sys.db), id) ==> LaterRow(RowOf(old(sys.db), id), r.value.row)
      ensures forall outcome :: r.Ok? && HasReceipt(old(sys.db), id, outcome) ==> RowReceipt(r.value.row, outcome)
    {
      hide Run, Inv, Meanwhile, Own, NoCall, HasReceipt, RowReceipt, LaterRow;
      ghost var first := sys;
      var message := Get(id, None);
      ghost var before := sys.calls;
      MeanwhilePresent(first, sys, id, me);
      if message.Err? || !Present(sys.db, id) {
        Act(Stop);
        return Err(if message.Err? then message.error else UnknownMessage);
      }
      var row := RowOf(sys.db, id);
      ReadLater(first, sys, id, me);
      Act(ReadBack);
      CleanUpNotice(row);
      NoCallTransitive(old(sys.calls), before, sys.calls, me);
      return Ok(Message(row, message.value.reply));
    }

    /** The queued notice of a row that shows an acknowledgment is dismissed, if the recipient's address
        can be read. */
    method CleanUpNotice(row: Row)
      requires Valid() && (At(sys, me) == NotifierRead(row) || At(sys, me) == AckerRead(row))
      modifies this`sys, this`run
      ensures Valid() && old(run) <= run && NoCall(old(sys.calls), sys.calls, me)
      ensures Mine(sys, me) == Mine(old(sys), me)
      ensures Finished(At(sys, me)) && At(sys, me).row == row
      ensures At(sys, me).NotifierDone? <==> old(At(sys, me)).NotifierRead?
      ensures CleanedAs(At(sys, me).cleanup, row)
    {
      hide Run, Inv, Meanwhile, Own;
      Others();
      var addressFound: bool :| true;
      Act(CleanUp(addressFound));
    }

    /** The UPDATE of `notify_once` that claims the message. */
    method Claim(id: Id) returns (claimed: bool)
      requires Valid() && At(sys, me).Idle?
      modifies this`sys, this`run
      ensures Valid() && old(run) < run && NoCall(old(sys.calls), sys.calls, me)
      ensures Mine(sys, me) == Mine(old(sys), me)
      ensures At(sys, me) == if claimed then Claimed(id) else At(old(sys), me)
      ensures At(old(sys), me).Idle?
      ensures claimed <==> Unclaimed(run[|run| - 2].db, id)
      ensures claimed ==> Present(sys.db, id)
      ensures Present(old(sys.db), id) ==> Present(sys.db, id) && !Claims(sys.db, id)
    {
      hide Run, Inv, Meanwhile, Claims;
      Others();
      assert WellFormed(sys.db) by { InvShape(sys); }
      MeanwhilePresent(old(sys), sys, id, me);
      var now: Time :| true;
      claimed := Claims(sys.db, id);
      ClaimsUnclaimed(sys.db, id);
      if claimed {
        ClaimsPresent(sys.db, id);
      }
      if Present(sys.db, id) {
        TakenIsClaimed(sys, me, id, now);
      }
      hide WellFormed, Apply;
      ghost var before := sys.calls;
      Act(TakeClaim(id, now));
    }

    /** `notify_once`. `called` tells whether the adapter was called, and `outcome` what was saved; there
        is one, with the row, unless the UPDATE claimed nothing (`claimed`) or the command fails. */
    method NotifyOnce(id: Id)
      returns (r: Result<Message>, called: bool, outcome: Option<Outcome>, claimed: bool,
               ghost looked: Option<nat>, ghost decided: nat)
      requires Valid() && At(sys, me).Idle?
      modifies this`sys, this`run
      ensures Valid() && old(run) <= run
      ensures CalledSince(old(sys.calls), sys.calls, me, id, called)
      ensures Mine(sys, me) == Mine(old(sys), me)
      ensures !claimed ==> !called && outcome.None?
      ensures r.Ok? && claimed ==>
                && outcome.Some? && Justified(run, me, id, looked, decided, called, outcome.value)
                && (looked.Some? ==> |old(run)| <= looked.value + 1) && |old(run)| <= decided + 1
      ensures r.Ok? && outcome.Some? ==> RowReceipt(r.value.row, outcome.value)
      ensures r.Ok? ==> r.value.row.id == id
      ensures r.Ok? && Present(old(sys.db), id) ==> Present(sys.db, id) && !Claims(sys.db, id)
      ensures At(sys, me).Idle? || At(sys, me).NotifierDone?
      ensures r.Ok? && outcome.Some? ==> At(sys, me).NotifierDone? && At(sys, me).row == r.value.row && r.value.row.id == id
      ensures outcome.None? ==> At(sys, me).Idle?
    {
      hide Run, Inv, Meanwhile, Claims, RowReceipt, NoCall, OneCall, CalledSince, Justified, Unclaimed;
      called, outcome, claimed, looked, decided := false, None, false, None, 0;
      CalledSinceSelf(sys.calls, me, id);
      if * {
        var busy: bool :| true;
        return Err(DbFailure(busy)), false, None, false, None, 0;
      }
      claimed := Claim(id);
      StillCalled(old(sys.calls), old(sys.calls), sys.calls, me, id, false);
      ghost var at, start := |run| - 1, sys.calls;
      if claimed {
        r, called, outcome, looked, decided := Notify(id, old(sys.calls));
      } else {
        r := Get(id, None);
        StillCalled(old(sys.calls), start, sys.calls, me, id, false);
      }
      RunKeepsUnclaimable(run, at, id);
    }

    /** `notify_once` after its claim. */
    method Notify(id: Id, ghost start: seq<Call>)
      returns (r: Result<Message>, called: bool, outcome: Option<Outcome>, ghost looked: Option<nat>, ghost decided: nat)
      requires Valid() && At(sys, me) == Claimed(id) && NoCall(start, sys.calls, me)
      modifies this`sys, this`run
      ensures Valid() && old(run) <= run
      ensures CalledSince(start, sys.calls, me, id, called)
      ensures Mine(sys, me) == Mine(old(sys), me)
      ensures r.Ok? <==> outcome.Some?
      ensures r.Ok? ==> Justified(run, me, id, looked, decided, called, outcome.value)
      ensures r.Ok? ==> (looked.Some? ==> |old(run)| <= looked.value + 1) && |old(run)| <= decided + 1
      ensures r.Ok? ==> RowReceipt(r.value.row, outcome.value)
      ensures r.Ok? ==> At(sys, me).NotifierDone? && At(sys, me).row == r.value.row && r.value.row.id == id
      ensures r.Err? ==> At(sys, me).Idle?
    {
      hide Run, Inv, Meanwhile, RowReceipt, NoCall, OneCall, Justified, Needless, NamesCause;
      called, outcome, looked, decided := false, None, None, 0;
      ghost var before := sys.calls;
      var found := Get(id, None);
      NoCallTransitive(start, before, sys.calls, me);
      if found.Err? {
        Act(Stop);
        return Err(found.error), false, None, looked, decided;
      }
      before := sys.calls;
      var reason := SkipAfterGrace(id);
      NoCallTransitive(start, before, sys.calls, me);
      if * {
        Act(Stop);
        return Err(Interrupted), false, None, looked, decided;
      }
      // A reason that cannot be read is no reason: the adapter looks again before it writes.
      looked := if reason.Ok? then Some(|run| - 1) else None;
      r, called, outcome, decided := Submit(id, if reason.Ok? then reason.value else None, start, looked);
    }

    /** The rest of `notify_once`, from the reason to skip to the cleanup. */
    method Submit(id: Id, reason: Option<SkipReason>, ghost start: seq<Call>, ghost looked: Option<nat>)
      returns (r: Result<Message>, called: bool, outcome: Option<Outcome>, ghost decided: nat)
      requires Valid() && At(sys, me) == Claimed(id) && NoCall(start, sys.calls, me)
      requires reason.Some? ==> Present(sys.db, id) && SkipReasonOf(sys.db, RowOf(sys.db, id)) == reason
      requires looked.Some? ==>
                 looked.value == |run| - 1 && Present(sys.db, id) && (reason.Some? <==> Needless(sys.db, RowOf(sys.db, id)))
      requires looked.None? ==> reason.None?
      modifies this`sys, this`run
      ensures Valid() && old(run) <= run
      ensures CalledSince(start, sys.calls, me, id, called)
      ensures Mine(sys, me) == Mine(old(sys), me)
      ensures reason.Some? ==> !called
      ensures r.Ok? <==> outcome.Some?
      ensures r.Ok? ==> At(sys, me).NotifierDone? && At(sys, me).row == r.value.row && r.value.row.id == id
      ensures r.Err? ==> At(sys, me) == Idle
      ensures reason.Some? && r.Ok? ==> outcome == Some(Outcome(NotSubmitted, SkipText(reason.value)))
      ensures r.Ok? ==> Justified(run, me, id, looked, decided, called, outcome.value)
      ensures |old(run)| <= decided + 1
      ensures r.Ok? ==> RowReceipt(r.value.row, outcome.value)
    {
      hide Run, Inv, Meanwhile, NoCall, OneCall, RowReceipt, Needless, NamesCause, Stepped, Justified;
      var result: Outcome;
      called := false;
      if reason.Some? {
        decided := |run| - 1;
        result := Outcome(NotSubmitted, SkipText(reason.value));
        SkipJustified(run, me, id, decided, reason.value);
        Act(Skip(reason.value));
        JustifiedLater(old(run), run, me, id, looked, decided, called, result);
      } else {
        result, called, decided := AskClient(id, start);
        AskJustified(run, me, id, looked, decided, called, result);
      }
      ghost var shorter := run;
      r := SaveReceipt(id, result, called, start);
      JustifiedLater(shorter, run, me, id, looked, decided, called, result);
      outcome := if r.Ok? then Some(result) else None;
    }

    /** Reads the recipient's address and calls the adapter, which may answer anything. */
    method AskClient(id: Id, ghost start: seq<Call>) returns (result: Outcome, called: bool, ghost decided: nat)
      requires Valid() && At(sys, me) == Claimed(id) && NoCall(start, sys.calls, me)
      modifies this`sys, this`run
      ensures Valid() && old(run) <= run && At(sys, me) == Decided(id, result)
      ensures CalledSince(start, sys.calls, me, id, called)
      ensures Mine(sys, me) == Mine(old(sys), me)
      ensures !called ==> result.submission == NotSubmitted
      ensures |old(run)| <= decided + 1
      ensures Stepped(run, decided, me, if called then CallAdapter else AddressUnreadable(result.detail))
    {
      hide Run, Inv, Meanwhile, NoCall, OneCall;
      ghost var before := sys.calls;
      Others();
      NoCallTransitive(start, before, sys.calls, me);
      if * {
        var detail: string :| true;
        decided := |run| - 1;
        Act(AddressUnreadable(detail));
        return Outcome(NotSubmitted, detail), false, decided;
      }
      called := true;
      result, decided := CallClient(id, start);
    }

    /** The native call, and whatever the client answers. */
    method CallClient(id: Id, ghost start: seq<Call>) returns (result: Outcome, ghost decided: nat)
      requires Valid() && At(sys, me) == Claimed(id) && NoCall(start, sys.calls, me)
      modifies this`sys, this`run
      ensures Valid() && old(run) <= run && At(sys, me) == Decided(id, result)
      ensures OneCall(start, sys.calls, me, id) && Mine(sys, me) == Mine(old(sys), me)
      ensures |old(run)| <= decided + 1 && Stepped(run, decided, me, CallAdapter)
    {
      hide Run, Inv, Meanwhile, NoCall, OneCall;
      assert Enabled(sys, me, CallAdapter) by { HolderCanCall(sys, me); }
      ghost var before := sys.calls;
      decided := |run| - 1;
      Act(CallAdapter);
      ghost var shorter := run;
      CalledOnce(start, before, sys.calls, me, id);
      before := sys.calls;
      Others();
      CalledThenNone(start, before, sys.calls, me, id);
      result :| true;
      Act(AdapterReturns(result));
      SteppedLater(shorter, run, decided, me, CallAdapter);
    }

    /** The receipt and the cleanup. */
    method SaveReceipt(id: Id, result: Outcome, called: bool, ghost start: seq<Call>) returns (r: Result<Message>)
      requires Valid() && At(sys, me) == Decided(id, result) && CalledSince(start, sys.calls, me, id, called)
      modifies this`sys, this`run
      ensures Valid() && old(run) <= run
      ensures CalledSince(start, sys.calls, me, id, called)
      ensures Mine(sys, me) == Mine(old(sys), me)
      ensures r.Ok? ==> At(sys, me).NotifierDone? && At(sys, me).row == r.value.row && r.value.row.id == id
      ensures r.Err? ==> At(sys, me) == Idle
      ensures r.Ok? ==> RowReceipt(r.value.row, result)
    {
      hide Run, Inv, Meanwhile, NoCall, OneCall, CalledSince, HasReceipt, RowReceipt, Apply;
      if * {
        Act(Stop);
        return Err(Interrupted);
      }
      ghost var before := sys.calls;
      Others();
      StillCalled(start, before, sys.calls, me, id, called);
      if * {
        var busy: bool :| true;
        Act(Stop);
        return Err(DbFailure(busy));
      }
      var now: Time :| true;
      assert Numbered(sys.db) by { InvShape(sys); }
      assert Present(sys.db, id) by { HolderPresent(sys, me); }
      RecordedReceipt(sys.db, id, result, now);
      Act(Record(now));
      before := sys.calls;
      r := DismissAcknowledged(id);
      StillCalled(start, before, sys.calls, me, id, called);
    }

    /** `ack`: the recipient's acknowledgment is refused for no other reason than a failing mailbox. */
    method Ack(id: Id, actor: Name) returns (r: Result<Message>)
      requires Valid() && At(sys, me).Idle?
      modifies this`sys, this`run
      ensures Valid() && old(run) <= run && NoCall(old(sys.calls), sys.calls, me)
      ensures Mine(sys, me) == Mine(old(sys), me)
      ensures r.Ok? ==> At(sys, me).AckerDone? && At(sys, me).row == r.value.row && r.value.row.id == id
      ensures r.Ok? ==> r.value.row.ackAt.Some? && r.value.row.recipient == actor
      ensures r.Err? ==> At(sys, me).Idle?
      ensures r.Err? && !r.error.DbFailure? ==>
                r.error.OnlyRecipientCanAck? && !(Present(old(sys.db), id) && RowOf(old(sys.db), id).recipient == actor)
    {
      hide Run, Inv, Meanwhile, Apply, HasReceipt, RowReceipt;
      Others();
      MeanwhileRow(old(sys), sys, id, me);
      if * {
        var busy: bool :| true;
        return Err(DbFailure(busy));
      }
      var now: Time :| true;
      var changes := Present(sys.db, id) && RowOf(sys.db, id).recipient == actor;
      ghost var before := sys.calls;
      assert Numbered(sys.db) by { InvShape(sys); }
      if changes {
        AcknowledgedRow(sys.db, id, actor, now);
      }
      Act(Acknowledge(id, actor, now));
      if !changes {
        return Err(OnlyRecipientCanAck);
      }
      r := DismissAcknowledged(id);
      NoCallTransitive(old(sys.calls), before, sys.calls, me);
    }

    /** `register`: a name keeps its first address, and a session its first name. The peer that is
        returned is the one that was given, also if it was there before. `at` is where in the run its
        transaction ran, or where it gave up before that. */
    method Register(name: Name, peer: Mailbox.Peer) returns (r: Result<Mailbox.Peer>, ghost at: nat)
      requires Valid() && (At(sys, me).Idle? || Finished(At(sys, me)))
      modifies this`sys, this`run
      ensures Valid() && old(run) <= run && At(sys, me) == old(At(sys, me)) && NoCall(old(sys.calls), sys.calls, me)
      ensures Mine(sys, me) == Mine(old(sys), me)
      ensures |old(run)| <= at + 1 && at < |run|
      ensures r.Ok? ==>
                && Ran(run, at, me, Mailbox.Op.Register(name, peer))
                && (name in run[at].db.peers ==> run[at].db.peers[name] == peer)
                && (name !in run[at].db.peers ==> SessionFree(run[at].db, peer))
                && name in sys.db.peers && sys.db.peers[name] == r.value == peer
      ensures r.Err? ==>
                || r.error.DbFailure?
                || (r.error.PeerHasAnotherAddress? && name in run[at].db.peers && run[at].db.peers[name] != peer)
                || (r.error.SessionHasAnotherName? && name !in run[at].db.peers && !SessionFree(run[at].db, peer))
    {
      hide Run, Inv, Meanwhile, RegisterError, SessionFree, Ran, NoCall, Extends, Apply;
      Others();
      at := |run| - 1;
      if * {
        var busy: bool :| true;
        return Err(DbFailure(busy)), at;
      }
      var error := RegisterError(sys.db, name, peer);
      RegisterRefused(sys.db, name, peer);
      if error.None? {
        Registered(sys.db, name, peer);
      }
      ghost var earlier := sys.calls;
      at := Change(Mailbox.Op.Register(name, peer));
      NoCallTransitive(old(sys.calls), earlier, sys.calls, me);
      if error.Some? {
        return Err(error.value), at;
      }
      earlier := sys.calls;
      ghost var shorter := run;
      r := PeerNow(name);
      NoCallTransitive(old(sys.calls), earlier, sys.calls, me);
      RanLater(shorter, run, at, me, Mailbox.Op.Register(name, peer));
    }

    /** `peer` on a fresh connection, for one that is registered. */
    method PeerNow(name: Name) returns (r: Result<Mailbox.Peer>)
      requires Valid() && name in sys.db.peers
      modifies this`sys, this`run
      ensures Valid() && old(run) <= run && At(sys, me) == old(At(sys, me)) && NoCall(old(sys.calls), sys.calls, me)
      ensures Mine(sys, me) == Mine(old(sys), me)
      ensures name in sys.db.peers && sys.db.peers[name] == old(sys.db).peers[name]
      ensures r.Err? ==> r.error.DbFailure?
      ensures r.Ok? ==> r.value == sys.db.peers[name]
    {
      hide Run, Inv, Meanwhile, Extends;
      Others();
      MeanwhileNoCall(old(sys), sys, me);
      PeersStay(old(sys.db), sys.db, name);
      if * {
        var busy: bool :| true;
        return Err(DbFailure(busy));
      }
      r := Ok(sys.db.peers[name]);
    }

    /** `retire` and `restore`: a peer that is not registered is refused. Else the mark is made by a step of
        this process, at `at` in the run. */
    method SetRetired(name: Name, retired: bool, now: Time) returns (r: Result<Mailbox.Peer>, ghost at: nat)
      requires Valid() && (At(sys, me).Idle? || Finished(At(sys, me)))
      modifies this`sys, this`run
      ensures Valid() && old(run) <= run && At(sys, me) == old(At(sys, me)) && NoCall(old(sys.calls), sys.calls, me)
      ensures Mine(sys, me) == Mine(old(sys), me)
      ensures |old(run)| <= at + 1 && at < |run|
      ensures r.Err? ==> r.error.DbFailure? || (r.error.UnknownPeer? && name !in run[at].db.peers)
      ensures r.Ok? ==>
                && Ran(run, at, me, RetireOp(name, retired, now))
                && (name in run[at + 1].db.retired <==> retired)
                && (retired && name in run[at].db.retired ==> run[at + 1].db.retired[name] == run[at].db.retired[name])
                && name in run[at].db.peers && r.value == run[at].db.peers[name]
    {
      hide Run, Inv, Meanwhile, Extends, Apply, Ran;
      Others();
      at := |run| - 1;
      if * {
        var busy: bool :| true;
        return Err(DbFailure(busy)), at;
      }
      if name !in sys.db.peers {
        return Err(UnknownPeer), at;
      }
      ghost var first := sys;
      at := LaterChange(RetireOp(name, retired, now));
      PeersStay(first.db, run[at].db, name);
      RetiredAfter(run[at].db, name, retired, now);
      NoCallTransitive(old(sys.calls), first.calls, sys.calls, me);
      ghost var changed, shorter := sys.calls, run;
      r := PeerNow(name);
      NoCallTransitive(old(sys.calls), changed, sys.calls, me);
      RanLater(shorter, run, at, me, RetireOp(name, retired, now));
    }

    /** One statement in this state of the run. */
    method Change(op: Op) returns (ghost at: nat)
      requires Valid() && (At(sys, me).Idle? || Finished(At(sys, me)))
      requires !op.Claim? && !op.Finish? && !op.Ack? && !op.Save?
      modifies this`sys, this`run
      ensures Valid() && run == old(run) + [sys] && At(sys, me) == old(At(sys, me)) && NoCall(old(sys.calls), sys.calls, me)
      ensures Mine(sys, me) == Mine(old(sys), me)
      ensures at + 2 == |run| && Ran(run, at, me, op)
      ensures run[at] == old(sys) && sys.db == Apply(old(sys.db), op) && Extends(old(sys.db), sys.db)
    {
      hide Run, Inv;
      at := |run| - 1;
      ApplyExtends(sys.db, op);
      NoCallSelf(sys.calls, me);
      hide Extends, Apply;
      Act(Statement(op));
    }

    /** One statement, after whatever others do before it. */
    method LaterChange(op: Op) returns (ghost at: nat)
      requires Valid() && (At(sys, me).Idle? || Finished(At(sys, me)))
      requires !op.Claim? && !op.Finish? && !op.Ack? && !op.Save?
      modifies this`sys, this`run
      ensures Valid() && old(run) <= run && At(sys, me) == old(At(sys, me)) && NoCall(old(sys.calls), sys.calls, me)
      ensures Mine(sys, me) == Mine(old(sys), me)
      ensures |old(run)| <= at + 1 && at + 2 == |run| && Ran(run, at, me, op)
      ensures Extends(old(sys.db), run[at].db) && sys.db == Apply(run[at].db, op) && Extends(old(sys.db), sys.db)
    {
      hide Run, Inv, Meanwhile, Ran, Extends, Apply, NoCall;
      Others();
      MeanwhileNoCall(old(sys), sys, me);
      ghost var before := sys;
      at := Change(op);
      NoCallTransitive(old(sys.calls), before.calls, sys.calls, me);
      ExtendsTransitive(old(sys.db), before.db, sys.db);
    }

    /** `wait` on one's own request: what its last look found, an answer included, or why it could not
        look. `looked` is where in the run that look was. */
    method WaitFor(id: Id, actor: Name, seconds: nat) returns (r: Result<Message>, ghost looked: nat)
      requires Valid() && (At(sys, me).Idle? || Finished(At(sys, me)))
      modifies this`sys, this`run
      ensures Valid() && old(run) <= run && At(sys, me) == old(At(sys, me)) && NoCall(old(sys.calls), sys.calls, me)
      ensures Mine(sys, me) == Mine(old(sys), me)
      ensures |old(run)| <= looked + 1 && looked < |run|
      ensures r.Ok? ==> OwnRequest(r.value, id, actor) && FromLook(run[looked].db, id, actor, r.value)
      ensures r.Err? ==> r.error.DbFailure? || r.error.Interrupted? || WaitRefused(run[looked].db, id, actor, r.error)
    {
      hide Run, Inv, Meanwhile, Own, NoCall, Load, Extends, OwnRequest, FromLook, WaitRefused;
      r := Get(id, Some(actor));
      looked := |run| - 1;
      Looked(sys.db, id, actor);
      if r.Err? {
        return;
      }
      if r.value.row.sender != actor || r.value.row.inReplyTo.Some? {
        return Err(WaitRequiresOwnRequest), looked;
      }
      ghost var before := sys.calls;
      if r.value.reply.Some? {
        ghost var found := r.value;
        r := ReturnAnswer(r.value, id, actor);
        NoCallTransitive(old(sys.calls), before, sys.calls, me);
        MarkedFromLook(run[looked].db, id, actor, found, r);
        return;
      }
      var token: Token :| true;
      if seconds > 0 {
        if * {
          var busy: bool :| true;
          return Err(DbFailure(busy)), looked;
        }
        var now: Time :| true;
        ghost var found := sys.db;
        ghost var changed := LaterChange(AddWait(token, Wait(id, actor, now + seconds), now));
        NoCallTransitive(old(sys.calls), before, sys.calls, me);
        LoadLater(found, sys, id, actor);
        before := sys.calls;
      }
      r, looked := PollForAnswer(id, actor);
      NoCallTransitive(old(sys.calls), before, sys.calls, me);
      if seconds > 0 {
        // The registration is removed on every way out, unless the mailbox cannot be written.
        if * {
          before := sys.calls;
          ghost var dropped := LaterChange(DropWait(token));
          NoCallTransitive(old(sys.calls), before, sys.calls, me);
        }
      }
    }

    /** The poll of `wait` after its first look: until a look finds an answer or time is up. */
    method PollForAnswer(id: Id, actor: Name) returns (r: Result<Message>, ghost looked: nat)
      requires Valid() && (At(sys, me).Idle? || Finished(At(sys, me)))
      requires Load(sys.db, id, Some(actor)).Ok? && OwnRequest(Load(sys.db, id, Some(actor)).value, id, actor)
      modifies this`sys, this`run
      ensures Valid() && old(run) <= run && At(sys, me) == old(At(sys, me)) && NoCall(old(sys.calls), sys.calls, me)
      ensures Mine(sys, me) == Mine(old(sys), me)
      ensures |old(run)| <= looked + 1 && looked < |run|
      ensures r.Ok? ==> OwnRequest(r.value, id, actor) && FromLook(run[looked].db, id, actor, r.value)
      ensures r.Err? ==> r.error.DbFailure? || r.error.Interrupted?
    {
      hide Run, Inv, Meanwhile, NoCall, Load, OwnRequest, Extends, FromLook;
      NoCallSelf(sys.calls, me);
      looked := |run| - 1;
      var polls: nat :| true;
      var left := polls;
      while true
        invariant Valid() && old(run) <= run && At(sys, me) == old(At(sys, me)) && NoCall(old(sys.calls), sys.calls, me)
        invariant Mine(sys, me) == Mine(old(sys), me)
        invariant Load(sys.db, id, Some(actor)).Ok? && OwnRequest(Load(sys.db, id, Some(actor)).value, id, actor)
        invariant |old(run)| <= looked + 1 && looked < |run|
        decreases left
      {
        if * {
          return Err(Interrupted), looked;
        }
        ghost var before := sys;
        r := Get(id, Some(actor));
        looked := |run| - 1;
        NoCallTransitive(old(sys.calls), before.calls, sys.calls, me);
        MeanwhileNoCall(before, sys, me);
        LoadLater(before.db, sys, id, actor);
        Looked(sys.db, id, actor);
        if r.Err? {
          return;
        }
        if r.value.reply.Some? {
          before := sys;
          ghost var found := r.value;
          r := ReturnAnswer(r.value, id, actor);
          NoCallTransitive(old(sys.calls), before.calls, sys.calls, me);
          MarkedFromLook(run[looked].db, id, actor, found, r);
          return;
        }
        if left == 0 {
          return;
        }
        left := left - 1;
      }
    }

    /** `return_wait_answer`: the answer that was read is returned, and that is recorded. A busy writer must
        not delay it, so a mark that fails is no error. */
    method ReturnAnswer(request: Message, id: Id, actor: Name) returns (r: Result<Message>)
      requires Valid() && (At(sys, me).Idle? || Finished(At(sys, me)))
      requires OwnRequest(request, id, actor) && request.reply.Some?
      modifies this`sys, this`run
      ensures Valid() && old(run) <= run && At(sys, me) == old(At(sys, me)) && NoCall(old(sys.calls), sys.calls, me)
      ensures Mine(sys, me) == Mine(old(sys), me)
      ensures r.Ok? ==> OwnRequest(r.value, id, actor) && SameButMark(request, r.value)
      ensures r.Err? ==> r.error.Interrupted?
    {
      hide Run, Inv, Meanwhile, NoCall;
      NoCallSelf(sys.calls, me);
      if * {
        return Err(Interrupted);
      }
      var answer := request.reply.value;
      if answer.returnedAt.None? {
        if * {
          var now: Time :| true;
          ghost var marked := LaterChange(Returned(answer.id, actor, now));
          if Present(sys.db, answer.id) && RowOf(sys.db, answer.id).recipient == actor {
            answer := answer.(returnedAt := RowOf(sys.db, answer.id).returnedAt);
          }
        }
      }
      r := Ok(request.(reply := Some(answer)));
    }
  }

  /** The same request with the same answer, which may carry a newer mark of its return. */
  predicate SameButMark(found: Message, returned: Message) {
    && found.row == returned.row && (found.reply.Some? <==> returned.reply.Some?)
    && (found.reply.Some? ==>
          returned.reply.value == found.reply.value.(returnedAt := returned.reply.value.returnedAt))
  }

  /** A look at this mailbox found this message, with an answer exactly if there was one. */
  predicate FromLook(db: Db, id: Id, actor: Name, m: Message) {
    && Load(db, id, Some(actor)).Ok? && SameButMark(Load(db, id, Some(actor)).value, m)
    && (m.reply.Some? <==> Answered(db.rows, id))
  }

  /** Why `wait` refuses what a look at this mailbox found. */
  predicate WaitRefused(db: Db, id: Id, actor: Name, error: Error) {
    match Load(db, id, Some(actor))
    case Err(e) => error == e
    case Ok(m) => error.WaitRequiresOwnRequest? && (m.row.sender != actor || m.row.inReplyTo.Some?)
  }

  lemma Looked(db: Db, id: Id, actor: Name)
    ensures var r := Load(db, id, Some(actor));
            match r
            case Err(e) => WaitRefused(db, id, actor, e)
            case Ok(m) =>
              FromLook(db, id, actor, m)
              && (if m.row.sender == actor && m.row.inReplyTo.None? then OwnRequest(m, id, actor)
                  else WaitRefused(db, id, actor, WaitRequiresOwnRequest))
  {
  }

  lemma MarkedFromLook(db: Db, id: Id, actor: Name, found: Message, r: Result<Message>)
    requires FromLook(db, id, actor, found) && (r.Ok? ==> SameButMark(found, r.value))
    ensures r.Ok? ==> FromLook(db, id, actor, r.value)
  {
  }

  /** No name is registered for the session of this peer. A pull peer has none. */
  ghost predicate SessionFree(db: Db, peer: Mailbox.Peer) {
    peer.session.None?
    || forall n :: n in db.peers ==> db.peers[n].harness != peer.harness || db.peers[n].session != peer.session
  }

  lemma RegisterRefused(db: Db, name: Name, peer: Mailbox.Peer)
    ensures RegisterError(db, name, peer)
         == if name in db.peers then if db.peers[name] == peer then None else Some(PeerHasAnotherAddress)
            else if SessionFree(db, peer) then None else Some(SessionHasAnotherName)
  {
  }

  lemma Registered(db: Db, name: Name, peer: Mailbox.Peer)
    requires RegisterError(db, name, peer).None?
    ensures var after := Apply(db, Mailbox.Op.Register(name, peer)); name in after.peers && after.peers[name] == peer
  {
  }

  function RetireOp(name: Name, retired: bool, now: Time): Op {
    if retired then Retire(name, now) else Restore(name)
  }

  lemma RetiredAfter(db: Db, name: Name, retired: bool, now: Time)
    requires name in db.peers
    ensures var after := Apply(db, RetireOp(name, retired, now));
            && (name in after.retired <==> retired) && name in after.peers && after.peers[name] == db.peers[name]
            && (retired ==> after.retired[name] == if name in db.retired then db.retired[name] else now)
            && (forall other :: other != name ==> (other in after.retired <==> other in db.retired))
  {
  }

  lemma PeersStay(db: Db, later: Db, name: Name)
    requires Extends(db, later) && name in db.peers
    ensures name in later.peers && later.peers[name] == db.peers[name]
  {
  }

  /** What `save` is asked to save is there: the id of a request, or the answer to one. */
  predicate SavedAlready(db: Db, id: Id, inReplyTo: Option<Id>) {
    match inReplyTo
    case None => Present(db, id)
    case Some(request) => request != "" && Answered(db.rows, request)
  }

  lemma SavedAlreadyStays(db: Db, later: Db, id: Id, inReplyTo: Option<Id>)
    requires Extends(db, later) && Numbered(later) && SavedAlready(db, id, inReplyTo)
    ensures SavedAlready(later, id, inReplyTo)
  {
    match inReplyTo
    case None => RowLater(db, later, id);
    case Some(request) =>
      var k := FindAnswer(db.rows, request);
      assert LaterRow(db.rows[k], later.rows[k]);
  }

  /** Nothing new is saved at any later moment of the run. */
  lemma NothingNew(run: seq<System>, i: nat, j: nat, sender: Name, recipient: Name, body: string, id: Id, inReplyTo: Option<Id>)
    requires Run(run) && i <= j < |run| && SavedAlready(run[i].db, id, inReplyTo)
    ensures SavedAlready(run[j].db, id, inReplyTo) && !Decide(run[j].db, sender, recipient, body, id, inReplyTo).Insert?
    ensures !Allowed(run[j].db, sender, recipient, id, inReplyTo)
  {
    assert Numbered(run[j].db) by { RunKeepsInv(run, j); }
    assert Extends(run[i].db, run[j].db) by { RunGrows(run, i, j); }
    hide Run, Numbered, Extends, SavedAlready;
    SavedAlreadyStays(run[i].db, run[j].db, id, inReplyTo);
    InsertsNothing(run[j].db, sender, recipient, body, id, inReplyTo);
  }

  lemma InsertsNothing(db: Db, sender: Name, recipient: Name, body: string, id: Id, inReplyTo: Option<Id>)
    requires SavedAlready(db, id, inReplyTo)
    ensures !Decide(db, sender, recipient, body, id, inReplyTo).Insert? && !Allowed(db, sender, recipient, id, inReplyTo)
  {
    FoundOrUnused(db, id);
    if inReplyTo.Some? {
      FoundOrUnanswered(db, inReplyTo.value);
    }
  }

  /** A request of the actor's own, with its answer if it has one. */
  predicate OwnRequest(m: Message, id: Id, actor: Name) {
    m.row.id == id && m.row.sender == actor && m.row.inReplyTo.None?
    && (m.reply.Some? ==> m.reply.value.inReplyTo == Some(id))
  }

  lemma NoCallSelf(calls: seq<Call>, me: Pid)
    ensures NoCall(calls, calls, me)
  {
  }

  lemma LoadedOwn(db: Db, id: Id, actor: Name)
    requires var r := Load(db, id, Some(actor)); r.Ok? && r.value.row.sender == actor && r.value.row.inReplyTo.None?
    ensures OwnRequest(Load(db, id, Some(actor)).value, id, actor)
  {
  }

  lemma LoadLater(db: Db, t: System, id: Id, actor: Name)
    requires Extends(db, t.db) && Inv(t)
    requires Load(db, id, Some(actor)).Ok? && OwnRequest(Load(db, id, Some(actor)).value, id, actor)
    ensures Load(t.db, id, Some(actor)).Ok? && OwnRequest(Load(t.db, id, Some(actor)).value, id, actor)
  {
    RowLater(db, t.db, id);
    LoadedOwn(t.db, id, actor);
  }

  /** Since `start`, `me` made the one call for `id` if `called`, and none otherwise. */
  ghost predicate CalledSince(start: seq<Call>, calls: seq<Call>, me: Pid, id: Id, called: bool) {
    if called then OneCall(start, calls, me, id) else NoCall(start, calls, me)
  }

  lemma MeanwhilePresent(s: System, t: System, id: Id, me: Pid)
    requires Meanwhile(s, t, me) && Inv(t)
    ensures Present(s.db, id) ==> Present(t.db, id)
  {
    if Present(s.db, id) {
      RowLater(s.db, t.db, id);
    }
  }

  lemma MeanwhileRow(s: System, t: System, id: Id, me: Pid)
    requires Meanwhile(s, t, me) && Inv(t)
    ensures Present(s.db, id) ==> Present(t.db, id) && RowOf(t.db, id).recipient == RowOf(s.db, id).recipient
  {
    if Present(s.db, id) {
      RowLater(s.db, t.db, id);
    }
  }

  /** After the UPDATE of `notify_once` nobody can claim the message any more. */
  lemma TakenIsClaimed(s: System, p: Pid, id: Id, at: Time)
    requires Enabled(s, p, TakeClaim(id, at)) && WellFormed(s.db) && Present(s.db, id)
    ensures var t := Do(s, p, TakeClaim(id, at)); Present(t.db, id) && !Claims(t.db, id)
  {
    if Claims(s.db, id) {
      ClaimReceipts(s.db, Claim(id, at));
    }
  }

  /** The message is there, nobody claimed it, it is not acknowledged, and its recipient is not a pull peer. */
  predicate Unclaimed(db: Db, id: Id) {
    && Present(db, id) && RowOf(db, id).startedAt.None? && RowOf(db, id).ackAt.None?
    && RowOf(db, id).recipient in db.peers && !db.peers[RowOf(db, id).recipient].delivery.Pull?
  }

  lemma ClaimsUnclaimed(db: Db, id: Id)
    ensures Claims(db, id) <==> Unclaimed(db, id)
  {
  }

  lemma ClaimsPresent(db: Db, id: Id)
    requires Claims(db, id)
    ensures Present(db, id)
  {
  }

  lemma CalledSinceSelf(calls: seq<Call>, me: Pid, id: Id)
    ensures CalledSince(calls, calls, me, id, false)
  {
  }

  lemma UnclaimableStays(db: Db, later: Db, id: Id)
    requires WellFormed(db) && WellFormed(later) && Extends(db, later) && Present(db, id) && !Claims(db, id)
    ensures Present(later, id) && !Claims(later, id)
  {
    RowLater(db, later, id);
    assert Participants(db, RowOf(db, id));
  }

  lemma RunKeepsUnclaimable(run: seq<System>, i: nat, id: Id)
    requires Run(run) && i < |run|
    ensures Present(run[i].db, id) && !Claims(run[i].db, id) ==> Present(run[|run| - 1].db, id) && !Claims(run[|run| - 1].db, id)
  {
    hide Run, Inv, WellFormed, Extends, Claims, Present;
    var j := |run| - 1;
    RunKeepsInv(run, i);
    InvShape(run[i]);
    RunKeepsInv(run, j);
    InvShape(run[j]);
    RunGrows(run, i, j);
    if Present(run[i].db, id) && !Claims(run[i].db, id) {
      UnclaimableStays(run[i].db, run[j].db, id);
    }
  }

  /** What is done about the queued notice of this row. */
  predicate CleanedAs(cleanup: Cleanup, row: Row) {
    if row.ackAt.None? then cleanup == NotAcknowledged else cleanup == Dismissed(row) || cleanup == LookupFailed(row)
  }

  predicate RowReceipt(row: Row, outcome: Outcome) {
    row.finishedAt.Some? && row.submission == outcome.submission && row.detail == Some(outcome.detail)
  }

  predicate HasReceipt(db: Db, id: Id, outcome: Outcome) {
    Present(db, id) && RowReceipt(RowOf(db, id), outcome)
  }

  /** What was saved before is in the row that is read later. */
  lemma ReadLater(s: System, t: System, id: Id, me: Pid)
    requires Meanwhile(s, t, me) && Inv(t) && Present(t.db, id)
    ensures Present(s.db, id) ==> LaterRow(RowOf(s.db, id), RowOf(t.db, id))
    ensures forall outcome :: HasReceipt(s.db, id, outcome) ==> RowReceipt(RowOf(t.db, id), outcome)
  {
    if Present(s.db, id) {
      RowLater(s.db, t.db, id);
    }
  }

  lemma RecordedReceipt(db: Db, id: Id, outcome: Outcome, at: Time)
    requires Numbered(db) && Present(db, id)
    ensures HasReceipt(Apply(db, Finish(id, outcome, at)), id, outcome)
  {
    var after := Apply(db, Finish(id, outcome, at));
    var k := Find(db.rows, id);
    assert after.rows[k].id == id && forall i :: 0 <= i < k ==> after.rows[i].id != id;
  }

  lemma AcknowledgedRow(db: Db, id: Id, actor: Name, at: Time)
    requires Numbered(db) && Present(db, id) && RowOf(db, id).recipient == actor
    ensures var after := Apply(db, Mailbox.Op.Ack(id, actor, at));
            Present(after, id) && RowOf(after, id).ackAt.Some? && RowOf(after, id).recipient == actor
  {
    var after := Apply(db, Mailbox.Op.Ack(id, actor, at));
    var k := Find(db.rows, id);
    assert after.rows[k].id == id && forall i :: 0 <= i < k ==> after.rows[i].id != id;
  }

  lemma HolderPresent(s: System, p: Pid)
    requires Inv(s) && (At(s, p).Claimed? || At(s, p).Decided?)
    ensures Present(s.db, At(s, p).id)
  {
    assert Knows(s.db, At(s, p));
  }

  lemma HolderCanCall(s: System, p: Pid)
    requires Inv(s) && At(s, p).Claimed?
    ensures Enabled(s, p, CallAdapter)
  {
    assert Knows(s.db, At(s, p));
    assert Participants(s.db, RowOf(s.db, At(s, p).id));
  }

  lemma CalledOnce(start: seq<Call>, before: seq<Call>, after: seq<Call>, me: Pid, id: Id)
    requires NoCall(start, before, me)
    requires |after| == |before| + 1 && after[..|before|] == before && after[|before|].pid == me && after[|before|].id == id
    ensures OneCall(start, after, me, id)
  {
    assert forall i :: 0 <= i < |before| ==> after[i] == before[i];
    assert after[|before|].pid == me;
  }

  lemma CalledThenNone(start: seq<Call>, before: seq<Call>, after: seq<Call>, me: Pid, id: Id)
    requires OneCall(start, before, me, id) && NoCall(before, after, me)
    ensures OneCall(start, after, me, id)
  {
    var k :| |start| <= k < |before| && before[k].pid == me && before[k].id == id
             && forall i :: |start| <= i < |before| && i != k ==> before[i].pid != me;
    assert after[k] == before[k];
  }

  lemma StillCalled(start: seq<Call>, before: seq<Call>, after: seq<Call>, me: Pid, id: Id, called: bool)
    requires CalledSince(start, before, me, id, called) && NoCall(before, after, me)
    ensures CalledSince(start, after, me, id, called)
  {
    if called {
      CalledThenNone(start, before, after, me, id);
    } else {
      NoCallTransitive(start, before, after, me);
    }
  }

  lemma StatementEnabled(s: System, p: Pid, op: Op)
    requires At(s, p).Idle? && op.Save? && Proper(s.db, op)
    ensures Enabled(s, p, Statement(op))
  {
  }

  /** A row as `save` writes it: the given content under the next number, no mark, and "pull_only" as the
      detail of a receipt if the recipient is a pull peer. */
  predicate Fresh(db: Db, row: Row, sender: Name, recipient: Name, body: string, id: Id, inReplyTo: Option<Id>) {
    && (row.id, row.sender, row.recipient, row.body, row.inReplyTo) == (id, sender, recipient, body, inReplyTo)
    && row.number == db.next && row.submission == NotSubmitted
    && row.ackAt.None? && row.startedAt.None? && row.finishedAt.None? && row.returnedAt.None?
    && recipient in db.peers
    && row.detail == if db.peers[recipient].delivery.Pull? then Some("pull_only") else None
  }

  /** What `save` returns, by the state in which its transaction decided: a message that was there is
      returned as it was, and a new one is appended with the content that was given. */
  ghost predicate SavedAs(run: seq<System>, at: nat, sender: Name, recipient: Name, body: string, id: Id,
                          inReplyTo: Option<Id>, message: Message, created: bool)
  {
    && at < |run|
    && var db := run[at].db;
    && (created <==> Allowed(db, sender, recipient, id, inReplyTo))
    && if created then
         && at + 1 < |run| && |run[at + 1].db.rows| == |db.rows| + 1 && run[at + 1].db.rows[..|db.rows|] == db.rows
         && Fresh(db, run[at + 1].db.rows[|db.rows|], sender, recipient, body, id, inReplyTo)
         && LaterRow(run[at + 1].db.rows[|db.rows|], message.row)
       else
         Repeats(db, sender, recipient, body, id, inReplyTo, message.row) && message.reply == ReplyOf(db, message.row)
  }

  /** What a transaction of `save` did, in the run: at `at` it had just begun, and in the next state its row
      is inserted; only if the tables at `at` allow it. */
  ghost predicate Saving(run: seq<System>, at: nat, me: Pid, sender: Name, recipient: Name, body: string, id: Id,
                         inReplyTo: Option<Id>, work: Work)
  {
    && at < |run|
    && (work.saving ==> |run[at].journal| > 0 && run[at].journal[|run[at].journal| - 1] == Began(me, true))
    && (work.inserted.Some? ==>
          && work.saving && work.inserted == Some(id)
          && Allowed(run[at].db, sender, recipient, id, inReplyTo)
          && at + 1 < |run| && run[at + 1].journal == run[at].journal + [Inserted(me, id)])
  }

  lemma NothingSaved(run: seq<System>, at: nat, me: Pid, sender: Name, recipient: Name, body: string, id: Id, inReplyTo: Option<Id>)
    requires at < |run|
    ensures Saving(run, at, me, sender, recipient, body, id, inReplyTo, NO_WORK)
  {
  }

  lemma TransactionBegan(run: seq<System>, me: Pid, sender: Name, recipient: Name, body: string, id: Id, inReplyTo: Option<Id>)
    requires run != [] && var journal := run[|run| - 1].journal; |journal| > 0 && journal[|journal| - 1] == Began(me, true)
    ensures Saving(run, |run| - 1, me, sender, recipient, body, id, inReplyTo, Work(false, false, true, None))
  {
  }

  /** What the transaction decides now, by the tables. */
  lemma DecidedNow(s: System, sender: Name, recipient: Name, body: string, id: Id, inReplyTo: Option<Id>)
    requires Inv(s)
    ensures var outcome := Decide(s.db, sender, recipient, body, id, inReplyTo);
            && (outcome.Insert? <==> Allowed(s.db, sender, recipient, id, inReplyTo))
            && (outcome.Existing? ==> Repeats(s.db, sender, recipient, body, id, inReplyTo, outcome.row))
            && (outcome.Refused? ==> Refuses(s.db, sender, recipient, body, id, inReplyTo, outcome.error))
  {
    InvShape(s);
    SavedByRules(s.db, sender, recipient, body, id, inReplyTo, Decide(s.db, sender, recipient, body, id, inReplyTo));
    SavedByRules(s.db, sender, recipient, body, id, inReplyTo, Insert);
    hide Inv, WellFormed, Decide, Allowed, Repeats, Refuses;
  }

  /** What is written has registered peers. */
  lemma NeedsPeers(s: System, sender: Name, recipient: Name, id: Id, inReplyTo: Option<Id>)
    requires Inv(s)
    ensures Allowed(s.db, sender, recipient, id, inReplyTo) ==> BothRegistered(s.db, sender, recipient)
  {
    InvShape(s);
    if inReplyTo.Some? && Asked(s.db, inReplyTo.value, sender, recipient) {
      AskedRegistered(s.db, inReplyTo.value, sender, recipient);
    }
  }

  lemma FoundAs(run: seq<System>, sender: Name, recipient: Name, body: string, id: Id, inReplyTo: Option<Id>, message: Message)
    requires run != [] && var db := run[|run| - 1].db;
             && !Allowed(db, sender, recipient, id, inReplyTo) && Repeats(db, sender, recipient, body, id, inReplyTo, message.row)
             && message.reply == ReplyOf(db, message.row)
    ensures SavedAs(run, |run| - 1, sender, recipient, body, id, inReplyTo, message, false)
  {
  }

  /** The INSERT in the run, and the row as it was read back. */
  lemma InsertedAs(before: seq<System>, run: seq<System>, me: Pid, op: Op, message: Option<Message>)
    requires before != [] && before < run && op.Save?
    requires Saving(before, |before| - 1, me, op.sender, op.recipient, op.body, op.id, op.inReplyTo, Work(false, false, true, None))
    requires var db := before[|before| - 1].db; var after := run[|before|];
             && Allowed(db, op.sender, op.recipient, op.id, op.inReplyTo)
             && after.db.rows == db.rows + [NewRow(db, op.sender, op.recipient, op.body, op.id, op.inReplyTo, op.at, op.pull)]
             && after.journal == before[|before| - 1].journal + [Inserted(me, op.id)]
             && op.recipient in db.peers && op.pull == (db.peers[op.recipient].delivery == Pull)
             && (message.Some? ==> LaterRow(after.db.rows[|db.rows|], message.value.row))
    ensures var at := |before| - 1;
            && Saving(run, at, me, op.sender, op.recipient, op.body, op.id, op.inReplyTo, Work(false, false, true, Some(op.id)))
            && (message.Some? ==>
                  SavedAs(run, at, op.sender, op.recipient, op.body, op.id, op.inReplyTo, message.value, true))
  {
    assert run[|before| - 1] == before[|before| - 1];
    hide Allowed;
  }

  /** Why `save` refuses, in this state of the mailbox, first reason first. */
  ghost predicate SaveError(db: Db, sender: Name, recipient: Name, body: string, id: Id, inReplyTo: Option<Id>, error: Error) {
    if !BothRegistered(db, sender, recipient) then error.UnknownPeer?
    else if sender == recipient then error.SenderIsRecipient?
    else if id == "" then error.InvalidId?
    else Refuses(db, sender, recipient, body, id, inReplyTo, error)
  }

  lemma ExistingPresent(db: Db, sender: Name, recipient: Name, body: string, id: Id, inReplyTo: Option<Id>)
    requires Decide(db, sender, recipient, body, id, inReplyTo).Existing?
    ensures Present(db, Decide(db, sender, recipient, body, id, inReplyTo).row.id)
  {
  }

  lemma SavedRow(db: Db, op: Op)
    requires WellFormed(db) && op.Save? && Proper(db, op)
    requires Decide(db, op.sender, op.recipient, op.body, op.id, op.inReplyTo).Insert?
    ensures var after := Apply(db, op);
            var row := NewRow(db, op.sender, op.recipient, op.body, op.id, op.inReplyTo, op.at, op.pull);
            && WellFormed(after) && after.rows == db.rows + [row] && Present(after, op.id) && RowOf(after, op.id) == row
  {
    ApplyKeepsShape(db, op);
    FindUnique(Apply(db, op), |db.rows|);
  }
}
