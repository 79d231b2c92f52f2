/** Repeating `send` and `reply` (src/store.rs, src/commands/mail.rs): in every later state the saved
    message comes back, and different content is refused. */
module Retries {
  import opened Common
  import opened Mailbox
  import opened MailboxRuns

  /** The transaction of `save` leaves the mailbox as it is. */
  ghost predicate Unchanged(db: Db, sender: Name, recipient: Name, body: string, id: Id, inReplyTo: Option<Id>) {
    forall at, pull :: Apply(db, Save(sender, recipient, body, id, inReplyTo, at, pull)) == db
  }

  /** `save` gets as far as its transaction: what it reads before has its way. */
  predicate Admitted(db: Db, sender: Name, recipient: Name) {
    sender in db.peers && recipient in db.peers && sender != recipient
  }

  lemma SavedStays(db: Db, later: Db, row: Row) returns (k: nat)
    requires WellFormed(db) && WellFormed(later) && Extends(db, later) && row in db.rows
    ensures k < |db.rows| && db.rows[k] == row
    ensures Present(later, row.id) && Find(later.rows, row.id) == k && LaterRow(row, RowOf(later, row.id))
    ensures Admitted(later, row.sender, row.recipient)
  {
    k :| 0 <= k < |db.rows| && db.rows[k] == row;
    assert LaterRow(db.rows[k], later.rows[k]) && Participants(later, later.rows[k]);
    FindUnique(later, k);
  }

  /** A saved request, sent again under its id: the saved row if all is the same, a conflict otherwise;
      whoever was retired, acknowledged or answered since. */
  lemma RepeatedSend(db: Db, later: Db, row: Row, sender: Name, recipient: Name, body: string)
    requires WellFormed(db) && WellFormed(later) && Extends(db, later) && row in db.rows && row.inReplyTo.None?
    ensures Admitted(later, row.sender, row.recipient)
    ensures Present(later, row.id) && LaterRow(row, RowOf(later, row.id))
    ensures Decide(later, sender, recipient, body, row.id, None)
         == (if (sender, recipient, body) == (row.sender, row.recipient, row.body)
             then Existing(RowOf(later, row.id)) else Refused(MessageIdConflict))
    ensures Unchanged(later, sender, recipient, body, row.id, None)
  {
    var k := SavedStays(db, later, row);
  }

  /** The answer to a request, given again under any id: the saved answer if the text is the same, a
      conflict otherwise. */
  lemma RepeatedReply(db: Db, later: Db, answer: Row, body: string, id: Id)
    requires WellFormed(db) && WellFormed(later) && Extends(db, later) && answer in db.rows && answer.inReplyTo.Some?
    ensures Admitted(later, answer.sender, answer.recipient)
    ensures Present(later, answer.id) && LaterRow(answer, RowOf(later, answer.id))
    ensures Decide(later, answer.sender, answer.recipient, body, id, answer.inReplyTo)
         == (if body == answer.body then Existing(RowOf(later, answer.id)) else Refused(ReplyConflict))
    ensures Unchanged(later, answer.sender, answer.recipient, body, id, answer.inReplyTo)
  {
    var k := SavedStays(db, later, answer);
    AnswerFound(later, k);
    ReplyDecided(later, k, body, id);
    hide WellFormed, Extends, Decide, Unchanged, Find, FindAnswer;
  }

  lemma ReplyDecided(db: Db, k: nat, body: string, id: Id)
    requires k < |db.rows| && db.rows[k].inReplyTo.Some?
    requires var request := db.rows[k].inReplyTo.value;
             request != "" && FindAnswer(db.rows, request) == k && Present(db, request) && Answers(db.rows[k], RowOf(db, request))
    ensures var answer := db.rows[k];
            && Decide(db, answer.sender, answer.recipient, body, id, answer.inReplyTo)
               == (if body == answer.body then Existing(answer) else Refused(ReplyConflict))
            && Unchanged(db, answer.sender, answer.recipient, body, id, answer.inReplyTo)
  {
  }

  /** In a well-formed mailbox the answer and its request are found by the request's id. */
  lemma AnswerFound(db: Db, k: nat)
    requires WellFormed(db) && k < |db.rows| && db.rows[k].inReplyTo.Some?
    ensures var request := db.rows[k].inReplyTo.value;
            && request != "" && FindAnswer(db.rows, request) == k && Present(db, request)
            && Answers(db.rows[k], RowOf(db, request))
  {
    assert HasRequest(db.rows, k);
    var i :| 0 <= i < k && Answers(db.rows[k], db.rows[i]);
    FindUnique(db, i);
    var j := FindAnswer(db.rows, db.rows[k].inReplyTo.value);
    assert j <= k;
  }

  /** Over a run: repeating what was saved in state `i` changes nothing in any later state `j`. */
  lemma RepeatsInRun(run: seq<System>, i: nat, j: nat, row: Row, sender: Name, recipient: Name, body: string, id: Id)
    requires Run(run) && i <= j < |run| && row in run[i].db.rows
    ensures Present(run[j].db, row.id) && LaterRow(row, RowOf(run[j].db, row.id))
    ensures Admitted(run[j].db, row.sender, row.recipient)
    ensures row.inReplyTo.None? ==>
              && Decide(run[j].db, sender, recipient, body, row.id, None)
                 == (if (sender, recipient, body) == (row.sender, row.recipient, row.body)
                     then Existing(RowOf(run[j].db, row.id)) else Refused(MessageIdConflict))
              && Unchanged(run[j].db, sender, recipient, body, row.id, None)
    ensures row.inReplyTo.Some? ==>
              && Decide(run[j].db, row.sender, row.recipient, body, id, row.inReplyTo)
                 == (if body == row.body then Existing(RowOf(run[j].db, row.id)) else Refused(ReplyConflict))
              && Unchanged(run[j].db, row.sender, row.recipient, body, id, row.inReplyTo)
  {
    hide Run, Decide, Unchanged;
    RunKeepsInv(run, i);
    RunKeepsInv(run, j);
    RunGrows(run, i, j);
    if row.inReplyTo.None? {
      RepeatedSend(run[i].db, run[j].db, row, sender, recipient, body);
    } else {
      RepeatedReply(run[i].db, run[j].db, row, body, id);
    }
  }

  /** What the journal says was inserted is in the mailbox, and was inserted once. */
  ghost predicate InsertedOnce(db: Db, journal: seq<Event>) {
    && (forall i :: 0 <= i < |journal| && journal[i].Inserted? ==> Present(db, journal[i].id))
    && (forall i, j :: 0 <= i < j < |journal| && journal[i].Inserted? && journal[j].Inserted? ==> journal[i].id != journal[j].id)
  }

  lemma InsertIsNew(db: Db, op: Op)
    requires WellFormed(db) && Proper(db, op) && Inserts(db, op)
    ensures !Present(db, op.id) && Present(Apply(db, op), op.id)
  {
    ApplyKeepsShape(db, op);
    FindUnique(Apply(db, op), |db.rows|);
  }

  lemma JournalGrows(db: Db, later: Db, journal: seq<Event>)
    requires InsertedOnce(db, journal) && Extends(db, later) && Numbered(later)
    ensures InsertedOnce(later, journal)
  {
    forall i | 0 <= i < |journal| && journal[i].Inserted?
      ensures Present(later, journal[i].id)
    {
      RowLater(db, later, journal[i].id);
    }
  }

  lemma NoteInserted(db: Db, later: Db, journal: seq<Event>, event: Event)
    requires InsertedOnce(db, journal) && InsertedOnce(later, journal)
    requires event.Inserted? ==> !Present(db, event.id) && Present(later, event.id)
    ensures InsertedOnce(later, journal + [event])
  {
  }

  lemma StepKeepsInsertedOnce(s: System, p: Pid, a: Action)
    requires Inv(s) && Enabled(s, p, a) && InsertedOnce(s.db, s.journal)
    ensures InsertedOnce(Do(s, p, a).db, Do(s, p, a).journal)
  {
    var t := Do(s, p, a);
    assert Numbered(t.db) by { DoKeepsInv(s, p, a); }
    assert Extends(s.db, t.db) by { DoGrows(s, p, a); }
    JournalGrows(s.db, t.db, s.journal);
    match a
    case Statement(op) =>
      if Inserts(s.db, op) {
        assert WellFormed(s.db) by { InvShape(s); }
        InsertIsNew(s.db, op);
        hide InsertedOnce, Inv, WellFormed, Extends, Numbered, Present, Apply;
        NoteInserted(s.db, t.db, s.journal, Inserted(p, op.id));
      }
    case Try => NoteInserted(s.db, t.db, s.journal, Tried(p));
    case ReadText => NoteInserted(s.db, t.db, s.journal, TextRead(p));
    case Begin(saving) => NoteInserted(s.db, t.db, s.journal, Began(p, saving));
    case _ =>
  }

  /** Over a run no message id is inserted twice, by any number of senders that repeat themselves. */
  lemma {:induction false} EachIdInsertedOnce(run: seq<System>, i: nat)
    requires Run(run) && i < |run|
    ensures InsertedOnce(run[i].db, run[i].journal)
  {
    hide Inv, Do, Enabled, InsertedOnce;
    if i == 0 {
      assert InsertedOnce(run[0].db, run[0].journal) by { EmptyJournal(run[0]); }
    } else {
      EachIdInsertedOnce(run, i - 1);
      RunKeepsInv(run, i - 1);
      assert Step(run[i - 1], run[i]);
      var p, a :| Enabled(run[i - 1], p, a) && run[i] == Do(run[i - 1], p, a);
      StepKeepsInsertedOnce(run[i - 1], p, a);
    }
  }

  lemma EmptyJournal(s: System)
    requires Init(s)
    ensures InsertedOnce(s.db, s.journal)
  {
  }
}
