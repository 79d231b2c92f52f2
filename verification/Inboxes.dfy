/** What the statements of the mailbox do to the inbox of a peer (src/store.rs): which of them put a
    message in, and which take one out. */
module Inboxes {
  import opened Common
  import opened Mailbox
  import Paging
  import SaveRules

  /** The ids that `inbox` lists for this peer. */
  ghost function InboxIds(db: Db, actor: Name): set<Id> {
    set row | row in Paging.Matching(db, actor, Paging.Inbox) :: row.id
  }

  /** The row with this id is an answer. */
  ghost predicate IsAnswer(db: Db, id: Id) {
    exists row :: row in db.rows && row.id == id && row.inReplyTo.Some?
  }

  /** What one statement makes of the list: a saved message goes into the list of its recipient, a saved
      answer takes its request out of the list of the peer that answers, and an acknowledgment takes an
      answer out, never a request. Nothing else changes the list. */
  ghost function InboxAfter(db: Db, op: Op, actor: Name): set<Id> {
    match op
    case Save(sender, recipient, _, id, inReplyTo, _, _) =>
      if !SaveRules.Allowed(db, sender, recipient, id, inReplyTo) then InboxIds(db, actor)
      else
        InboxIds(db, actor) - (if actor == sender && inReplyTo.Some? then {inReplyTo.value} else {})
        + (if actor == recipient then {id} else {})
    case Ack(id, reader, _) =>
      if actor == reader && IsAnswer(db, id) then InboxIds(db, actor) - {id} else InboxIds(db, actor)
    case _ => InboxIds(db, actor)
  }

  lemma ListedIds(db: Db, actor: Name, id: Id)
    ensures id in InboxIds(db, actor) <==> exists row :: Paging.Listed(db, Paging.Inbox, actor, row) && row.id == id
  {
    forall row
      ensures row in Paging.Matching(db, actor, Paging.Inbox) <==> Paging.Listed(db, Paging.Inbox, actor, row)
    {
      Paging.MatchingIsListed(db, actor, Paging.Inbox, row);
    }
    hide Paging.Matching, Paging.Listed;
  }

  /** Row `k` is in the inbox. */
  ghost predicate InAt(db: Db, actor: Name, k: nat)
    requires k < |db.rows|
  {
    db.rows[k].recipient == actor
    && if db.rows[k].inReplyTo.None? then SaveRules.Unanswered(db, db.rows[k].id) else db.rows[k].ackAt.None?
  }

  lemma IdAt(db: Db, actor: Name, k: nat)
    requires WellFormed(db) && k < |db.rows|
    ensures db.rows[k].id in InboxIds(db, actor) <==> InAt(db, actor, k)
  {
    var id := db.rows[k].id;
    ListedIds(db, actor, id);
    assert db.rows[k] in db.rows;
    if id in InboxIds(db, actor) {
      var row :| Paging.Listed(db, Paging.Inbox, actor, row) && row.id == id;
      SaveRules.SameRow(db, row, db.rows[k]);
    } else {
      hide WellFormed;
      assert !Paging.Listed(db, Paging.Inbox, actor, db.rows[k]);
    }
  }

  lemma IdPlace(db: Db, actor: Name, id: Id)
    ensures id in InboxIds(db, actor) ==> exists k :: 0 <= k < |db.rows| && db.rows[k].id == id
  {
    ListedIds(db, actor, id);
  }

  /** Two mailboxes with the same rows but for marks have the same lists, except for rows whose
      acknowledgment differs. */
  lemma SameLists(db: Db, after: Db, actor: Name, out: set<Id>)
    requires WellFormed(db) && WellFormed(after) && |after.rows| == |db.rows|
    requires forall i :: 0 <= i < |db.rows| ==> SameMail(db.rows[i], after.rows[i])
    requires forall i :: 0 <= i < |db.rows| && db.rows[i].recipient == actor && db.rows[i].inReplyTo.Some? ==>
               (after.rows[i].ackAt.None? <==> db.rows[i].ackAt.None? && db.rows[i].id !in out)
    requires forall i :: 0 <= i < |db.rows| && db.rows[i].id in out ==> db.rows[i].inReplyTo.Some?
    ensures InboxIds(after, actor) == InboxIds(db, actor) - out
  {
    assert forall request :: SaveRules.Unanswered(after, request) <==> SaveRules.Unanswered(db, request);
    forall id
      ensures id in InboxIds(after, actor) <==> id in InboxIds(db, actor) && id !in out
    {
      IdPlace(db, actor, id);
      IdPlace(after, actor, id);
      if k: nat :| k < |db.rows| && db.rows[k].id == id {
        assert SameMail(db.rows[k], after.rows[k]);
        IdAt(db, actor, k);
        IdAt(after, actor, k);
      }
    }
  }

  /** An answer comes after its request. */
  lemma LastUnanswered(db: Db)
    requires WellFormed(db) && |db.rows| > 0 && db.rows[|db.rows| - 1].inReplyTo.None?
    ensures SaveRules.Unanswered(db, db.rows[|db.rows| - 1].id)
  {
    var last := |db.rows| - 1;
    forall row | row in db.rows
      ensures row.inReplyTo != Some(db.rows[last].id)
    {
      var j :| 0 <= j < |db.rows| && db.rows[j] == row;
      if row.inReplyTo.Some? {
        assert HasRequest(db.rows, j);
        var i :| 0 <= i < j && Answers(db.rows[j], db.rows[i]);
        assert db.rows[i].id != db.rows[last].id;
      }
    }
  }

  /** The row that was there at `k`, after a new last row. */
  lemma ListedBefore(db: Db, after: Db, row: Row, actor: Name, k: nat)
    requires WellFormed(db) && after.rows == db.rows + [row] && k < |db.rows|
    requires row.inReplyTo.Some? ==> SaveRules.Asked(db, row.inReplyTo.value, row.sender, row.recipient)
    ensures InAt(after, actor, k)
            <==> InAt(db, actor, k) && !(actor == row.sender && row.inReplyTo == Some(db.rows[k].id))
  {
    var id := db.rows[k].id;
    assert SaveRules.Unanswered(after, id) <==> SaveRules.Unanswered(db, id) && row.inReplyTo != Some(id);
    if row.inReplyTo == Some(id) {
      SaveRules.AskedFound(db, id, row.sender, row.recipient);
      FindUnique(db, k);
    }
  }

  /** The new last row is in the list of its recipient. */
  lemma LastListed(db: Db, after: Db, row: Row, actor: Name)
    requires WellFormed(after) && after.rows == db.rows + [row] && row.ackAt.None?
    ensures row.id in InboxIds(after, actor) <==> actor == row.recipient
    ensures forall k :: 0 <= k < |db.rows| ==> db.rows[k].id != row.id
  {
    var n := |db.rows|;
    assert after.rows[n] == row;
    IdAt(after, actor, n);
    if row.inReplyTo.None? {
      LastUnanswered(after);
    }
    forall k | 0 <= k < n
      ensures db.rows[k].id != row.id
    {
      assert after.rows[k] == db.rows[k];
    }
  }

  /** One id, after a new last row. */
  lemma ListedAfter(db: Db, after: Db, row: Row, actor: Name, id: Id)
    requires WellFormed(db) && WellFormed(after) && after.rows == db.rows + [row] && row.ackAt.None?
    requires row.inReplyTo.Some? ==> SaveRules.Asked(db, row.inReplyTo.value, row.sender, row.recipient)
    ensures id in InboxIds(after, actor)
            <==> (id in InboxIds(db, actor) && !(actor == row.sender && row.inReplyTo == Some(id)))
                 || (actor == row.recipient && id == row.id)
  {
    IdPlace(db, actor, id);
    IdPlace(after, actor, id);
    LastListed(db, after, row, actor);
    hide WellFormed, InAt, InboxIds, SaveRules.Asked;
    if k: nat :| k < |db.rows| && db.rows[k].id == id {
      assert after.rows[k] == db.rows[k];
      IdAt(db, actor, k);
      IdAt(after, actor, k);
      ListedBefore(db, after, row, actor, k);
    }
  }

  /** A new last row. */
  lemma ListsWithRow(db: Db, after: Db, row: Row, actor: Name)
    requires WellFormed(db) && WellFormed(after) && after.rows == db.rows + [row] && row.ackAt.None?
    requires row.inReplyTo.Some? ==> SaveRules.Asked(db, row.inReplyTo.value, row.sender, row.recipient)
    ensures InboxIds(after, actor)
         == InboxIds(db, actor) - (if actor == row.sender && row.inReplyTo.Some? then {row.inReplyTo.value} else {})
            + (if actor == row.recipient then {row.id} else {})
  {
    hide WellFormed, InboxIds, SaveRules.Asked;
    forall id
      ensures id in InboxIds(after, actor)
              <==> (id in InboxIds(db, actor) && !(actor == row.sender && row.inReplyTo == Some(id)))
                   || (actor == row.recipient && id == row.id)
    {
      ListedAfter(db, after, row, actor, id);
    }
  }

  lemma SaveChanges(db: Db, op: Op, actor: Name)
    requires WellFormed(db) && Proper(db, op) && op.Save?
    ensures InboxIds(Apply(db, op), actor) == InboxAfter(db, op, actor)
  {
    var after := Apply(db, op);
    ApplyKeepsShape(db, op);
    SaveRules.SavedByRules(db, op.sender, op.recipient, op.body, op.id, op.inReplyTo, Insert);
    var row := NewRow(db, op.sender, op.recipient, op.body, op.id, op.inReplyTo, op.at, op.pull);
    var inserted := SaveRules.Allowed(db, op.sender, op.recipient, op.id, op.inReplyTo);
    assert after.rows == if inserted then db.rows + [row] else db.rows;
    assert inserted && op.inReplyTo.Some? ==> SaveRules.Asked(db, op.inReplyTo.value, op.sender, op.recipient);
    hide Decide, WellFormed, Apply, SaveRules.Allowed, SaveRules.Asked;
    if inserted {
      ListsWithRow(db, after, row, actor);
    } else {
      assert after == db;
    }
  }

  lemma MarksSame(db: Db, op: Op)
    requires !op.Save? && !op.Ack?
    ensures var after := Apply(db, op);
            |after.rows| == |db.rows|
            && forall i :: 0 <= i < |db.rows| ==> SameMail(db.rows[i], after.rows[i]) && after.rows[i].ackAt == db.rows[i].ackAt
  {
  }

  /** Only the recipient's acknowledgment of this row is new. */
  ghost predicate Acknowledged(db: Db, after: Db, id: Id, reader: Name) {
    |after.rows| == |db.rows|
    && forall i :: 0 <= i < |db.rows| ==>
         && SameMail(db.rows[i], after.rows[i])
         && (after.rows[i].ackAt.None?
             <==> db.rows[i].ackAt.None? && !(db.rows[i].id == id && db.rows[i].recipient == reader))
  }

  lemma AckMarks(db: Db, op: Op)
    requires WellFormed(db) && op.Ack?
    ensures Acknowledged(db, Apply(db, op), op.id, op.actor)
  {
    var k := Find(db.rows, op.id);
    if k < |db.rows| {
      assert forall i :: 0 <= i < |db.rows| && i != k ==> db.rows[i].id != op.id;
    }
  }

  lemma AnswerAt(db: Db, id: Id, k: nat)
    requires WellFormed(db) && k < |db.rows| && db.rows[k].id == id
    ensures IsAnswer(db, id) <==> db.rows[k].inReplyTo.Some?
  {
    assert db.rows[k] in db.rows;
    if row: Row :| row in db.rows && row.id == id && row.inReplyTo.Some? {
      SaveRules.SameRow(db, row, db.rows[k]);
    }
  }

  lemma AckedLists(db: Db, after: Db, id: Id, reader: Name, actor: Name)
    requires WellFormed(db) && WellFormed(after) && Acknowledged(db, after, id, reader)
    ensures InboxIds(after, actor) == InboxIds(db, actor) - (if actor == reader && IsAnswer(db, id) then {id} else {})
  {
    forall i | 0 <= i < |db.rows| && db.rows[i].id == id
      ensures IsAnswer(db, id) <==> db.rows[i].inReplyTo.Some?
    {
      AnswerAt(db, id, i);
    }
    hide WellFormed, IsAnswer, InboxIds, SameMail;
    if actor == reader && IsAnswer(db, id) {
      SameLists(db, after, actor, {id});
    } else {
      SameLists(db, after, actor, {});
    }
  }

  /** Every statement changes the inbox of every peer in this way and no other. */
  lemma InboxChanges(db: Db, op: Op, actor: Name)
    requires WellFormed(db) && Proper(db, op)
    ensures InboxIds(Apply(db, op), actor) == InboxAfter(db, op, actor)
  {
    ApplyKeepsShape(db, op);
    hide WellFormed, Apply, Proper;
    if op.Save? {
      SaveChanges(db, op, actor);
    } else if op.Ack? {
      AckMarks(db, op);
      AckedLists(db, Apply(db, op), op.id, op.actor, actor);
    } else {
      MarksSame(db, op);
      SameLists(db, Apply(db, op), actor, {});
    }
  }
}
