/** The shared mailbox (src/store.rs): its tables, and what one statement or transaction does to
    them. SQLite runs each of these atomically, in some order, for any number of processes. */
module Mailbox {
  import opened Common

  type Name = string
  type Id = string
  type Time = int
  type Token = string

  datatype Submission = NotSubmitted | SubmissionUnknown | Submitted
  datatype Delivery = Native | Pull

  datatype Peer = Peer(harness: string, session: Option<string>, workspace: Option<string>,
                       socket: Option<string>, url: Option<string>, delivery: Delivery)

  /** A row of `messages`. `number` is the column `seq`. */
  datatype Row = Row(number: nat, id: Id, sender: Name, recipient: Name, inReplyTo: Option<Id>, body: string,
                     createdAt: Time, ackAt: Option<Time>, submission: Submission, startedAt: Option<Time>,
                     finishedAt: Option<Time>, detail: Option<string>, returnedAt: Option<Time>)

  datatype Wait = Wait(message: Id, actor: Name, until: Time)

  /** `next` is the number AUTOINCREMENT gives to the next row. */
  datatype Db = Db(peers: map<Name, Peer>, retired: map<Name, Time>, rows: seq<Row>, waits: map<Token, Wait>, next: nat)

  datatype Outcome = Outcome(submission: Submission, detail: string)

  datatype Error =
    | UnknownPeer | PeerHasAnotherAddress | SessionHasAnotherName
    | SenderIsRecipient | UnknownRequest | ReplyRequiresRequest | ReplyAddressMismatch
    | ReplyConflict | MessageIdConflict | PeerRetired | Constraint
    | UnknownMessage | NotAddressed | OnlyRecipientCanAck | WaitRequiresOwnRequest
    | InvalidId | FileFailure | SessionFailure | Interrupted | DbFailure(busy: bool)

  datatype Result<+T> = Ok(value: T) | Err(error: Error)

  // ---- Looking up rows ----

  /** The position of the row with this id, or the number of rows. */
  function Find(rows: seq<Row>, id: Id): (k: nat)
    ensures k <= |rows|
    ensures k < |rows| ==> rows[k].id == id
    ensures forall i :: 0 <= i < k ==> rows[i].id != id
  {
    if rows == [] || rows[0].id == id then 0 else 1 + Find(rows[1..], id)
  }

  /** The position of the answer to this request, or the number of rows. */
  function FindAnswer(rows: seq<Row>, request: Id): (k: nat)
    ensures k <= |rows|
    ensures k < |rows| ==> rows[k].inReplyTo == Some(request)
    ensures forall i :: 0 <= i < k ==> rows[i].inReplyTo != Some(request)
  {
    if rows == [] || rows[0].inReplyTo == Some(request) then 0 else 1 + FindAnswer(rows[1..], request)
  }

  predicate Answered(rows: seq<Row>, request: Id) {
    FindAnswer(rows, request) < |rows|
  }

  // ---- Statements ----

  datatype SaveOutcome = Refused(error: Error) | Existing(row: Row) | Insert

  /** The transaction of `save` up to its INSERT. A random id is any id. */
  function Decide(db: Db, sender: Name, recipient: Name, body: string, id: Id, inReplyTo: Option<Id>): SaveOutcome {
    var rows := db.rows;
    if inReplyTo.Some? && inReplyTo.value != "" then
      var request := Find(rows, inReplyTo.value);
      if request == |rows| then Refused(UnknownRequest)
      else if rows[request].inReplyTo.Some? then Refused(ReplyRequiresRequest)
      else if (sender, recipient) != (rows[request].recipient, rows[request].sender) then Refused(ReplyAddressMismatch)
      else
        var answer := FindAnswer(rows, inReplyTo.value);
        if answer < |rows| then if rows[answer].body != body then Refused(ReplyConflict) else Existing(rows[answer])
        else DecideById(db, sender, recipient, body, id, inReplyTo)
    else DecideById(db, sender, recipient, body, id, inReplyTo)
  }

  function DecideById(db: Db, sender: Name, recipient: Name, body: string, id: Id, inReplyTo: Option<Id>): SaveOutcome {
    var rows := db.rows;
    var k := Find(rows, id);
    if k < |rows| then
      if (rows[k].sender, rows[k].recipient, rows[k].body, rows[k].inReplyTo) != (sender, recipient, body, inReplyTo)
      then Refused(MessageIdConflict) else Existing(rows[k])
    else if inReplyTo.None? && (sender in db.retired || recipient in db.retired) then Refused(PeerRetired)
    // Foreign keys of the INSERT.
    else if sender !in db.peers || recipient !in db.peers
            || (inReplyTo.Some? && Find(rows, inReplyTo.value) == |rows|) then Refused(Constraint)
    else Insert
  }

  function NewRow(db: Db, sender: Name, recipient: Name, body: string, id: Id, inReplyTo: Option<Id>, at: Time, pull: bool): Row {
    Row(db.next, id, sender, recipient, inReplyTo, body, at, None, NotSubmitted, None, None,
        if pull then Some("pull_only") else None, None)
  }

  /** The statements that change the mailbox. `Register` and `AddWait` are whole transactions. */
  datatype Op =
    | Register(name: Name, peer: Peer)
    | Retire(name: Name, at: Time)
    | Restore(name: Name)
    | Save(sender: Name, recipient: Name, body: string, id: Id, inReplyTo: Option<Id>, at: Time, pull: bool)
    | Claim(id: Id, at: Time)
    | Finish(id: Id, outcome: Outcome, at: Time)
    | Ack(id: Id, actor: Name, at: Time)
    | Returned(id: Id, actor: Name, at: Time)
    | AddWait(token: Token, wait: Wait, now: Time)
    | DropWait(token: Token)

  function RegisterError(db: Db, name: Name, peer: Peer): Option<Error> {
    if name in db.peers then if db.peers[name] != peer then Some(PeerHasAnotherAddress) else None
    // NULL equals nothing: a pull peer has no session.
    else if peer.session.Some?
            && exists n :: n in db.peers && db.peers[n].harness == peer.harness && db.peers[n].session == peer.session
    then Some(SessionHasAnotherName)
    else None
  }

  predicate Claims(db: Db, id: Id) {
    var k := Find(db.rows, id);
    k < |db.rows| && db.rows[k].startedAt.None? && db.rows[k].ackAt.None?
    && db.rows[k].recipient in db.peers && db.peers[db.rows[k].recipient].delivery == Native
  }

  function WithRow(db: Db, k: nat, row: Row): Db
    requires k < |db.rows|
  {
    db.(rows := db.rows[k := row])
  }

  function First<T>(saved: Option<T>, given: T): Option<T> {
    if saved.Some? then saved else Some(given)
  }

  /** What a statement on one row makes of it. */
  function Marked(db: Db, op: Op): Row
    requires op.Claim? || op.Finish? || op.Ack? || op.Returned?
    requires Find(db.rows, op.id) < |db.rows|
  {
    var row := db.rows[Find(db.rows, op.id)];
    match op
    case Claim(id, at) => if Claims(db, id) then row.(submission := SubmissionUnknown, startedAt := Some(at)) else row
    case Finish(_, outcome, at) => row.(submission := outcome.submission, detail := Some(outcome.detail), finishedAt := Some(at))
    case Ack(_, actor, at) => if row.recipient == actor then row.(ackAt := First(row.ackAt, at)) else row
    case Returned(_, actor, at) => if row.recipient == actor then row.(returnedAt := First(row.returnedAt, at)) else row
  }

  function Apply(db: Db, op: Op): Db {
    match op
    case Register(name, peer) => if RegisterError(db, name, peer).Some? then db else db.(peers := db.peers[name := peer])
    // INSERT OR IGNORE with a foreign key to peers.
    case Retire(name, at) => if name in db.retired || name !in db.peers then db else db.(retired := db.retired[name := at])
    case Restore(name) => db.(retired := db.retired - {name})
    case Save(sender, recipient, body, id, inReplyTo, at, pull) =>
      if Decide(db, sender, recipient, body, id, inReplyTo).Insert?
      then db.(rows := db.rows + [NewRow(db, sender, recipient, body, id, inReplyTo, at, pull)], next := db.next + 1)
      else db
    case AddWait(token, wait, now) =>
      var kept := map t | t in db.waits && db.waits[t].until >= now - 60 :: db.waits[t];
      if Find(db.rows, wait.message) == |db.rows| then db else db.(waits := kept[token := wait])
    case DropWait(token) => db.(waits := db.waits - {token})
    case _ =>
      // UPDATE ... WHERE id=?, with what each statement sets and its further conditions.
      var k := Find(db.rows, op.id);
      if k == |db.rows| then db else WithRow(db, k, Marked(db, op))
  }

  // ---- Registered polls ----

  /** A poll is registered exactly if there is a message to wait for. */
  lemma WaitAdded(db: Db, token: Token, wait: Wait, now: Time)
    requires token !in db.waits
    ensures var after := Apply(db, AddWait(token, wait, now));
            if exists row :: row in db.rows && row.id == wait.message then token in after.waits && after.waits[token] == wait
            else after == db
  {
    var k := Find(db.rows, wait.message);
    assert k < |db.rows| ==> db.rows[k] in db.rows;
  }

  /** It stays registered until it is dropped, or replaced under its token, or until another poll is
      registered more than a minute after its end; no other statement changes it. */
  lemma WaitStays(db: Db, op: Op, token: Token)
    requires token in db.waits
    ensures var after := Apply(db, op);
            (token in after.waits && after.waits[token] == db.waits[token])
            <==> (op.DropWait? ==> op.token != token)
                 && (op.AddWait? && (exists row :: row in db.rows && row.id == op.wait.message) ==>
                       if op.token == token then op.wait == db.waits[token] else op.now <= db.waits[token].until + 60)
  {
    if op.AddWait? {
      var k := Find(db.rows, op.wait.message);
      assert k < |db.rows| ==> db.rows[k] in db.rows;
    }
  }

  // ---- The shape of conversations ----

  /** `answer` is the answer to the request `request`, with sender and recipient swapped. */
  predicate Answers(answer: Row, request: Row) {
    answer.inReplyTo == Some(request.id) && request.inReplyTo.None?
    && answer.sender == request.recipient && answer.recipient == request.sender
  }

  predicate Participants(db: Db, row: Row) {
    row.sender in db.peers && row.recipient in db.peers && row.sender != row.recipient
    && (row.startedAt.Some? ==> db.peers[row.recipient].delivery == Native)
  }

  /** A message that no one claimed was not submitted; a claim without a receipt stays unknown. */
  predicate Receipt(row: Row) {
    && (row.startedAt.None? ==> row.finishedAt.None? && row.submission == NotSubmitted)
    && (row.startedAt.Some? && row.finishedAt.None? ==> row.submission == SubmissionUnknown)
  }

  ghost predicate Numbered(db: Db) {
    && (forall i :: 0 <= i < |db.rows| ==> 0 < db.rows[i].number < db.next && db.rows[i].id != "")
    && (forall i, j :: 0 <= i < j < |db.rows| ==> db.rows[i].number < db.rows[j].number)
    && (forall i, j :: 0 <= i < j < |db.rows| ==> db.rows[i].id != db.rows[j].id)
    && db.next > 0
  }

  /** An earlier row is the request that row `j` answers. */
  ghost predicate HasRequest(rows: seq<Row>, j: nat)
    requires j < |rows|
  {
    exists i :: 0 <= i < j && Answers(rows[j], rows[i])
  }

  ghost predicate Conversations(db: Db) {
    && (forall i :: 0 <= i < |db.rows| ==> Participants(db, db.rows[i]))
    && (forall j :: 0 <= j < |db.rows| && db.rows[j].inReplyTo.Some? ==> HasRequest(db.rows, j))
    && (forall i, j :: 0 <= i < j < |db.rows| && db.rows[i].inReplyTo.Some? ==> db.rows[i].inReplyTo != db.rows[j].inReplyTo)
  }

  ghost predicate WellFormed(db: Db) {
    Numbered(db) && Conversations(db) && (forall i :: 0 <= i < |db.rows| ==> Receipt(db.rows[i]))
    && (forall name :: name in db.retired ==> name in db.peers)
  }

  // ---- What no statement takes back ----

  predicate SameMail(r: Row, s: Row) {
    (r.number, r.id, r.sender, r.recipient) == (s.number, s.id, s.sender, s.recipient)
    && (r.inReplyTo, r.body, r.createdAt) == (s.inReplyTo, s.body, s.createdAt)
  }

  predicate Kept<T(==)>(before: Option<T>, after: Option<T>) {
    before.Some? ==> after == before
  }

  predicate LaterRow(r: Row, s: Row) {
    SameMail(r, s) && Kept(r.ackAt, s.ackAt) && Kept(r.startedAt, s.startedAt) && Kept(r.returnedAt, s.returnedAt)
  }

  /** Rows keep their place, body and addresses; marks on them stay; new rows come after old ones. */
  ghost predicate Extends(db: Db, later: Db) {
    && |db.rows| <= |later.rows| && db.next <= later.next
    && (forall i :: 0 <= i < |db.rows| ==> LaterRow(db.rows[i], later.rows[i]))
    && (forall i :: |db.rows| <= i < |later.rows| ==> db.next <= later.rows[i].number)
    && (forall name :: name in db.peers ==> name in later.peers && later.peers[name] == db.peers[name])
  }

  lemma ExtendsTransitive(a: Db, b: Db, c: Db)
    requires Extends(a, b) && Extends(b, c)
    ensures Extends(a, c)
  {
    forall i | 0 <= i < |a.rows|
      ensures LaterRow(a.rows[i], c.rows[i])
    {
      assert LaterRow(a.rows[i], b.rows[i]) && LaterRow(b.rows[i], c.rows[i]);
    }
    forall i | |a.rows| <= i < |c.rows|
      ensures a.next <= c.rows[i].number
    {
      if i < |b.rows| {
        assert LaterRow(b.rows[i], c.rows[i]);
      }
    }
  }

  lemma MarkExtends(db: Db, k: nat, row: Row)
    requires k < |db.rows| && LaterRow(db.rows[k], row)
    ensures Extends(db, WithRow(db, k, row))
  {
  }

  lemma ExtendsSelf(db: Db)
    ensures Extends(db, db)
  {
  }

  lemma MarksExtend(db: Db, op: Op)
    requires op.Claim? || op.Finish? || op.Ack? || op.Returned?
    ensures Extends(db, Apply(db, op))
  {
    var k := Find(db.rows, op.id);
    if k < |db.rows| {
      MarkExtends(db, k, Marked(db, op));
    } else {
      ExtendsSelf(db);
    }
  }

  lemma ApplyExtends(db: Db, op: Op)
    ensures Extends(db, Apply(db, op))
  {
    if op.Claim? || op.Finish? || op.Ack? || op.Returned? {
      MarksExtend(db, op);
    } else {
      hide Decide, Marked, Find;
      ExtendsSelf(db);
    }
  }

  lemma FindUnique(db: Db, k: nat)
    requires Numbered(db) && k < |db.rows|
    ensures Find(db.rows, db.rows[k].id) == k
  {
  }

  lemma FindLater(db: Db, later: Db, id: Id)
    requires Extends(db, later) && Numbered(later) && Find(db.rows, id) < |db.rows|
    ensures Find(later.rows, id) == Find(db.rows, id)
  {
    var k := Find(db.rows, id);
    assert LaterRow(db.rows[k], later.rows[k]);
    FindUnique(later, k);
  }

  // ---- Every statement keeps the shape ----

  /** Marks do not touch what a request is found by. */
  lemma RequestsStay(rows: seq<Row>, later: seq<Row>, j: nat)
    requires j < |rows| <= |later| && HasRequest(rows, j)
    requires forall i :: 0 <= i < |rows| ==> SameMail(rows[i], later[i])
    ensures HasRequest(later, j)
  {
    var i :| 0 <= i < j && Answers(rows[j], rows[i]);
    assert Answers(later[j], later[i]);
  }

  /** One row changed in its marks only. */
  lemma MarkKeepsShape(db: Db, k: nat, row: Row)
    requires WellFormed(db) && k < |db.rows| && SameMail(db.rows[k], row) && Receipt(row)
    requires row.startedAt.Some? ==> db.peers[row.recipient].delivery == Native
    ensures WellFormed(WithRow(db, k, row))
  {
    var after := WithRow(db, k, row);
    assert forall i :: 0 <= i < |after.rows| ==> SameMail(db.rows[i], after.rows[i]);
    assert Participants(db, db.rows[k]);
    forall j | 0 <= j < |after.rows| && after.rows[j].inReplyTo.Some?
      ensures HasRequest(after.rows, j)
    {
      RequestsStay(db.rows, after.rows, j);
    }
    forall i | 0 <= i < |after.rows|
      ensures Participants(after, after.rows[i])
    {
      assert i != k ==> Participants(db, db.rows[i]);
    }
  }

  lemma AppendKeepsConversations(db: Db, row: Row)
    requires Conversations(db) && Participants(db, row)
    requires row.inReplyTo.Some? ==>
               !Answered(db.rows, row.inReplyTo.value) && exists i :: 0 <= i < |db.rows| && Answers(row, db.rows[i])
    ensures Conversations(db.(rows := db.rows + [row], next := db.next + 1))
  {
    var after := db.(rows := db.rows + [row], next := db.next + 1);
    var n := |db.rows|;
    assert forall i :: 0 <= i < n ==> after.rows[i] == db.rows[i];
    assert after.rows[n] == row;
    forall j | 0 <= j <= n && after.rows[j].inReplyTo.Some?
      ensures HasRequest(after.rows, j)
    {
      if j < n {
        RequestsStay(db.rows, after.rows, j);
      } else {
        var i :| 0 <= i < n && Answers(row, db.rows[i]);
        assert Answers(after.rows[j], after.rows[i]);
      }
    }
    forall i | 0 <= i <= n
      ensures Participants(after, after.rows[i])
    {
      assert i < n ==> Participants(db, db.rows[i]);
    }
  }

  lemma AppendKeepsShape(db: Db, row: Row)
    requires WellFormed(db) && row.number == db.next && row.id != "" && Find(db.rows, row.id) == |db.rows|
    requires Participants(db, row) && Receipt(row)
    requires row.inReplyTo.Some? ==>
               !Answered(db.rows, row.inReplyTo.value) && exists i :: 0 <= i < |db.rows| && Answers(row, db.rows[i])
    ensures WellFormed(db.(rows := db.rows + [row], next := db.next + 1))
  {
    AppendKeepsConversations(db, row);
    hide Conversations, Answered, Participants;
  }

  /** `save` gives the row an id that is a UUID, and refuses a message to oneself before it writes. */
  lemma SaveKeepsShape(db: Db, op: Op)
    requires WellFormed(db) && op.Save? && op.sender != op.recipient && op.id != ""
    ensures WellFormed(Apply(db, op))
  {
    if Decide(db, op.sender, op.recipient, op.body, op.id, op.inReplyTo).Insert? {
      var row := NewRow(db, op.sender, op.recipient, op.body, op.id, op.inReplyTo, op.at, op.pull);
      if op.inReplyTo.Some? {
        var i := Find(db.rows, op.inReplyTo.value);
        assert Answers(row, db.rows[i]);
      }
      AppendKeepsShape(db, row);
    }
  }

  /** What the commands pass to their statements: `save` refuses a message to oneself before it
      writes and names rows by UUIDs, and `notify_once` saves a receipt only for its own claim. */
  predicate Proper(db: Db, op: Op) {
    && (op.Save? ==> op.sender != op.recipient && op.id != "")
    && (op.Finish? ==> var k := Find(db.rows, op.id); k < |db.rows| && db.rows[k].startedAt.Some?)
  }

  lemma RosterKeepsShape(db: Db, after: Db)
    requires WellFormed(db) && after.rows == db.rows && after.next == db.next && Extends(db, after)
    requires forall name :: name in after.retired ==> name in after.peers
    ensures WellFormed(after)
  {
    forall i | 0 <= i < |after.rows|
      ensures Participants(after, after.rows[i])
    {
      assert Participants(db, db.rows[i]);
    }
  }

  lemma MarksKeepShape(db: Db, op: Op)
    requires WellFormed(db) && Proper(db, op) && (op.Claim? || op.Finish? || op.Ack? || op.Returned?)
    ensures WellFormed(Apply(db, op))
  {
    var k := Find(db.rows, op.id);
    if k < |db.rows| {
      assert Participants(db, db.rows[k]) && Receipt(db.rows[k]);
      MarkKeepsShape(db, k, Marked(db, op));
    }
  }

  lemma ApplyKeepsShape(db: Db, op: Op)
    requires WellFormed(db) && Proper(db, op)
    ensures WellFormed(Apply(db, op))
  {
    if op.Save? {
      SaveKeepsShape(db, op);
    } else if op.Claim? || op.Finish? || op.Ack? || op.Returned? {
      MarksKeepShape(db, op);
    } else {
      ApplyExtends(db, op);
      RosterKeepsShape(db, Apply(db, op));
    }
  }
}
