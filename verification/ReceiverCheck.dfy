/** The check that the remote receiver makes before it submits a notice (src/adapters/codex/receive.rs):
    it reads the message from the mailbox again. */
module ReceiverCheck {
  import opened Common
  import opened Mailbox
  import opened MailboxRuns
  import Inboxes
  import Paging
  import SaveRules
  import opened Store

  /** The answer of `show`: the connection failed, it has no result, the mailbox refused, the state of the
      message is left out, or the message. */
  datatype Response = ReadFailed | NoResult | Refused | Incomplete | Shown(message: Message)

  datatype Need = Reconnect | Broken | Needed(yes: bool)

  function NeedsNotification(response: Response, peer: Name, id: Id, number: nat): Need {
    match response
    case ReadFailed => Reconnect
    case Shown(m) =>
      if m.row.id != id || m.row.recipient != peer || m.row.number != number then Broken
      else if m.reply.Some?
              && (m.reply.value.inReplyTo != Some(id) || m.reply.value.sender != m.row.recipient
                  || m.reply.value.recipient != m.row.sender) then Broken
      else Needed(if m.row.inReplyTo.Some? then m.row.ackAt.None? else m.reply.None?)
    case _ => Broken
  }

  lemma ReplyIsOwn(db: Db, id: Id, m: Message)
    requires WellFormed(db) && IsMessage(db, id, m)
    ensures m.reply.Some? ==>
              && m.reply.value.sender == m.row.recipient && m.reply.value.recipient == m.row.sender
              && m.row.inReplyTo.None?
  {
    if m.reply.Some? {
      var j :| 0 <= j < |db.rows| && db.rows[j] == m.reply.value;
      assert HasRequest(db.rows, j);
      var i :| 0 <= i < j && Answers(db.rows[j], db.rows[i]);
      SaveRules.SameRow(db, db.rows[i], m.row);
    }
  }

  /** What a mailbox shows to the peer of its own message is enough: a notice is needed exactly if the
      message is in the inbox of the peer at that moment. A message to someone else, or a watched number
      that is not this message's, is an error. */
  lemma NeededIsOpen(db: Db, peer: Name, id: Id, number: nat, m: Message)
    requires WellFormed(db) && Load(db, id, Some(peer)) == Ok(m)
    ensures NeedsNotification(Shown(m), peer, id, number)
         == if m.row.recipient == peer && m.row.number == number then Needed(id in Inboxes.InboxIds(db, peer)) else Broken
  {
    LoadByRows(db, id, Some(peer), m);
    ReplyIsOwn(db, id, m);
    var k :| 0 <= k < |db.rows| && db.rows[k] == m.row;
    Inboxes.IdAt(db, peer, k);
    hide WellFormed;
  }
}
