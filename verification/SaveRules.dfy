/** The rules by which `save` decides (src/store.rs), as conditions on the tables: which first requests
    and first answers are written, what counts as a repetition, and what each refusal means. */
module SaveRules {
  import opened Common
  import opened Mailbox

  ghost predicate Unused(db: Db, id: Id) {
    forall row :: row in db.rows ==> row.id != id
  }

  ghost predicate Unanswered(db: Db, request: Id) {
    forall row :: row in db.rows ==> row.inReplyTo != Some(request)
  }

  predicate NoneRetired(db: Db, sender: Name, recipient: Name) {
    sender !in db.retired && recipient !in db.retired
  }

  predicate BothRegistered(db: Db, sender: Name, recipient: Name) {
    sender in db.peers && recipient in db.peers
  }

  /** There is a request with this id, from `recipient` to `sender`. */
  ghost predicate Asked(db: Db, request: Id, sender: Name, recipient: Name) {
    exists row :: row in db.rows && row.id == request && row.inReplyTo.None? && (row.sender, row.recipient) == (recipient, sender)
  }

  /** A first request is written if none of its peers is retired; a first answer to a saved request,
      whoever is retired. */
  ghost predicate Allowed(db: Db, sender: Name, recipient: Name, id: Id, inReplyTo: Option<Id>) {
    match inReplyTo
    case None => BothRegistered(db, sender, recipient) && Unused(db, id) && NoneRetired(db, sender, recipient)
    case Some(request) => Asked(db, request, sender, recipient) && Unanswered(db, request) && Unused(db, id)
  }

  /** A request is repeated under its id, with the same addresses and body; an answer is repeated by its
      own sender with the same body, under any id. */
  ghost predicate Repeats(db: Db, sender: Name, recipient: Name, body: string, id: Id, inReplyTo: Option<Id>, row: Row) {
    row in db.rows && row.inReplyTo == inReplyTo && row.body == body
    && match inReplyTo
       case None => row.id == id && (row.sender, row.recipient) == (sender, recipient)
       case Some(request) => Asked(db, request, sender, recipient)
  }

  /** A saved row carries this id with another content. */
  ghost predicate IdTaken(db: Db, sender: Name, recipient: Name, body: string, id: Id) {
    exists row :: row in db.rows && row.id == id
                  && !(row.inReplyTo.None? && (row.sender, row.recipient, row.body) == (sender, recipient, body))
  }

  /** What each refusal means. An empty request id counts as none until the foreign key refuses it. */
  ghost predicate Refuses(db: Db, sender: Name, recipient: Name, body: string, id: Id, inReplyTo: Option<Id>, error: Error) {
    match inReplyTo
    case None =>
      if error.MessageIdConflict? then IdTaken(db, sender, recipient, body, id)
      else if error.PeerRetired? then Unused(db, id) && !NoneRetired(db, sender, recipient)
      else error.Constraint? && Unused(db, id) && NoneRetired(db, sender, recipient) && !BothRegistered(db, sender, recipient)
    case Some(request) =>
      if request == "" then if Unused(db, id) then error.Constraint? else error.MessageIdConflict?
      else if error.UnknownRequest? then Unused(db, request)
      else if error.ReplyRequiresRequest? then exists row :: row in db.rows && row.id == request && row.inReplyTo.Some?
      else if error.ReplyAddressMismatch? then
        exists row :: row in db.rows && row.id == request && row.inReplyTo.None?
                      && (row.sender, row.recipient) != (recipient, sender)
      else if error.ReplyConflict? then
        Asked(db, request, sender, recipient) && exists row :: row in db.rows && row.inReplyTo == inReplyTo && row.body != body
      else
        error.MessageIdConflict? && Asked(db, request, sender, recipient) && Unanswered(db, request) && !Unused(db, id)
  }

  /** The decision, as conditions on the tables. */
  ghost predicate ByRules(db: Db, sender: Name, recipient: Name, body: string, id: Id, inReplyTo: Option<Id>, outcome: SaveOutcome) {
    match outcome
    case Insert => Allowed(db, sender, recipient, id, inReplyTo)
    case Existing(row) => Repeats(db, sender, recipient, body, id, inReplyTo, row)
    case Refused(error) => Refuses(db, sender, recipient, body, id, inReplyTo, error)
  }

  lemma FoundOrUnused(db: Db, id: Id)
    ensures Unused(db, id) <==> Find(db.rows, id) == |db.rows|
  {
  }

  lemma FoundOrUnanswered(db: Db, request: Id)
    ensures Unanswered(db, request) <==> !Answered(db.rows, request)
  {
  }

  lemma SameRow(db: Db, r: Row, s: Row)
    requires WellFormed(db) && r in db.rows && s in db.rows
    ensures r.id == s.id ==> r == s
    ensures r.inReplyTo.Some? && r.inReplyTo == s.inReplyTo ==> r == s
  {
  }

  lemma AnswersNamed(db: Db, row: Row)
    requires WellFormed(db) && row in db.rows
    ensures row.id != "" && row.inReplyTo != Some("")
  {
    var k :| 0 <= k < |db.rows| && db.rows[k] == row;
    if row.inReplyTo.Some? {
      assert HasRequest(db.rows, k);
    }
  }

  lemma AskedRegistered(db: Db, request: Id, sender: Name, recipient: Name)
    requires WellFormed(db) && Asked(db, request, sender, recipient)
    ensures BothRegistered(db, sender, recipient)
  {
    var row :| row in db.rows && row.id == request && row.inReplyTo.None? && (row.sender, row.recipient) == (recipient, sender);
    assert Participants(db, row);
  }

  /** A request is decided by its id, the register and the retired peers. */
  lemma RequestDecided(db: Db, sender: Name, recipient: Name, body: string, id: Id)
    requires WellFormed(db)
    ensures ByRules(db, sender, recipient, body, id, None, Decide(db, sender, recipient, body, id, None))
  {
    FoundOrUnused(db, id);
    var k := Find(db.rows, id);
    if k < |db.rows| {
      assert db.rows[k] in db.rows;
    }
    hide WellFormed;
  }

  /** The checks before the id: the request is there, is a request, is the sender's to answer. */
  lemma RequestChecked(db: Db, sender: Name, recipient: Name, body: string, id: Id, request: Id)
    requires WellFormed(db) && request != "" && !Asked(db, request, sender, recipient)
    ensures ByRules(db, sender, recipient, body, id, Some(request), Decide(db, sender, recipient, body, id, Some(request)))
  {
    FoundOrUnused(db, request);
    var r := Find(db.rows, request);
    assert r < |db.rows| ==> db.rows[r] in db.rows;
    hide WellFormed;
  }

  /** The answer that is there already decides. */
  lemma AnswerRepeated(db: Db, sender: Name, recipient: Name, body: string, id: Id, request: Id)
    requires WellFormed(db) && request != "" && Asked(db, request, sender, recipient) && !Unanswered(db, request)
    ensures ByRules(db, sender, recipient, body, id, Some(request), Decide(db, sender, recipient, body, id, Some(request)))
  {
    AskedFound(db, request, sender, recipient);
    FoundOrUnanswered(db, request);
    var a := FindAnswer(db.rows, request);
    assert db.rows[a] in db.rows;
    hide WellFormed;
  }

  lemma AskedFound(db: Db, request: Id, sender: Name, recipient: Name)
    requires WellFormed(db) && Asked(db, request, sender, recipient)
    ensures var k := Find(db.rows, request);
            && k < |db.rows| && db.rows[k].inReplyTo.None?
            && (db.rows[k].sender, db.rows[k].recipient) == (recipient, sender)
  {
    var row :| row in db.rows && row.id == request && row.inReplyTo.None? && (row.sender, row.recipient) == (recipient, sender);
    var k :| 0 <= k < |db.rows| && db.rows[k] == row;
    FindUnique(db, k);
  }

  /** A first answer, or an answer to the empty id: the id and the foreign keys decide. */
  lemma AnswerById(db: Db, sender: Name, recipient: Name, body: string, id: Id, request: Id)
    requires WellFormed(db) && (request != "" ==> Asked(db, request, sender, recipient) && Unanswered(db, request))
    ensures ByRules(db, sender, recipient, body, id, Some(request), DecideById(db, sender, recipient, body, id, Some(request)))
  {
    FoundOrUnused(db, id);
    FoundOrUnused(db, request);
    var k, r := Find(db.rows, id), Find(db.rows, request);
    if k < |db.rows| {
      AnswersNamed(db, db.rows[k]);
      assert db.rows[k] in db.rows;
    }
    if request == "" {
      forall row | row in db.rows
        ensures row.id != request
      {
        AnswersNamed(db, row);
      }
    } else {
      AskedRegistered(db, request, sender, recipient);
      AskedFound(db, request, sender, recipient);
    }
    hide WellFormed;
  }

  /** An answer is decided by the request it names. */
  lemma AnswerDecided(db: Db, sender: Name, recipient: Name, body: string, id: Id, request: Id)
    requires WellFormed(db)
    ensures ByRules(db, sender, recipient, body, id, Some(request), Decide(db, sender, recipient, body, id, Some(request)))
  {
    if request != "" && !Asked(db, request, sender, recipient) {
      RequestChecked(db, sender, recipient, body, id, request);
    } else if request != "" && !Unanswered(db, request) {
      AnswerRepeated(db, sender, recipient, body, id, request);
    } else {
      AnswerById(db, sender, recipient, body, id, request);
      if request != "" {
        AskedFound(db, request, sender, recipient);
        FoundOrUnanswered(db, request);
      }
      hide WellFormed, ByRules, DecideById;
    }
  }

  /** No two outcomes fit the tables. */
  lemma OneOutcome(db: Db, sender: Name, recipient: Name, body: string, id: Id, inReplyTo: Option<Id>, o: SaveOutcome, p: SaveOutcome)
    requires WellFormed(db)
    requires ByRules(db, sender, recipient, body, id, inReplyTo, o) && ByRules(db, sender, recipient, body, id, inReplyTo, p)
    ensures o == p
  {
    forall r, s | r in db.rows && s in db.rows
      ensures r.id == s.id ==> r == s
      ensures r.inReplyTo.Some? && r.inReplyTo == s.inReplyTo ==> r == s
      ensures r.id != "" && r.inReplyTo != Some("")
    {
      SameRow(db, r, s);
      AnswersNamed(db, r);
    }
    hide WellFormed;
  }

  /** In every well-formed mailbox the transaction of `save` decides by these rules and no others. */
  lemma SavedByRules(db: Db, sender: Name, recipient: Name, body: string, id: Id, inReplyTo: Option<Id>, outcome: SaveOutcome)
    requires WellFormed(db)
    ensures Decide(db, sender, recipient, body, id, inReplyTo) == outcome
            <==> ByRules(db, sender, recipient, body, id, inReplyTo, outcome)
  {
    var decided := Decide(db, sender, recipient, body, id, inReplyTo);
    match inReplyTo
    case None => RequestDecided(db, sender, recipient, body, id);
    case Some(request) => AnswerDecided(db, sender, recipient, body, id, request);
    hide Decide, WellFormed;
    if ByRules(db, sender, recipient, body, id, inReplyTo, outcome) {
      OneOutcome(db, sender, recipient, body, id, inReplyTo, decided, outcome);
    }
  }
}
