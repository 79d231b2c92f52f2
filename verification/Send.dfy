/** `send` and `reply` (src/commands/mail.rs): save a message, notify its recipient once, wait for the
    answer. A busy mailbox is tried again only while no write transaction began. */
module Send {
  import opened Common
  import opened Mailbox
  import opened MailboxRuns
  import opened SaveRules
  import opened WriteTurn
  import opened Store

  /** Where a message goes: to a peer as a new request, or back as the answer to a request. A request
      without an id of its own gets a random UUID. */
  datatype To = ToPeer(recipient: Name, id: Option<Id>) | ToRequest(request: Id)

  datatype Answer = Answer(message: Message, created: bool, exit: nat)

  /** The exit status 2 says that the message is saved and its notification is not confirmed. */
  function ExitOf(message: Message, notifies: bool): nat {
    var row := message.row;
    if notifies && message.reply.None? && row.submission != Submitted && row.ackAt.None?
       && !(row.detail.Some? && exists reason :: row.detail.value == SkipText(reason))
    then 2 else 0
  }

  /** No answer, no acknowledgment, no receipt that the client was given the notice, and no receipt that
      says why none was needed. */
  predicate Unconfirmed(message: Message) {
    && message.reply.None? && message.row.ackAt.None? && !message.row.submission.Submitted?
    && message.row.detail != Some("acknowledged_before_notification")
    && message.row.detail != Some("returned_by_recipient_wait")
    && message.row.detail != Some("recipient_retired")
  }

  lemma ExitUnconfirmed(message: Message, notifies: bool)
    ensures ExitOf(message, notifies) == if notifies && Unconfirmed(message) then 2 else 0
  {
    assert SkipText(AcknowledgedBeforeNotification) == "acknowledged_before_notification";
    assert SkipText(ReturnedByRecipientWait) == "returned_by_recipient_wait";
    assert SkipText(RecipientRetired) == "recipient_retired";
  }

  /** What an attempt says of the message it saved: `at` is where in the run its transaction decided. */
  datatype Saved = Saved(at: nat, sender: Name, recipient: Name, id: Id, inReplyTo: Option<Id>, message: Message)

  predicate Addressed(to: To, recipient: Name, inReplyTo: Option<Id>) {
    match to
    case ToPeer(peer, _) => recipient == peer && inReplyTo.None?
    case ToRequest(request) => inReplyTo == Some(request)
  }

  /** `name` sent the message with this id. */
  ghost predicate SenderOf(db: Db, id: Id, name: Name) {
    exists row :: row in db.rows && row.id == id && row.sender == name
  }

  lemma SenderStays(run: seq<System>, i: nat, j: nat, id: Id, name: Name)
    requires Run(run) && i <= j < |run| && SenderOf(run[i].db, id, name)
    ensures SenderOf(run[j].db, id, name)
  {
    RunGrows(run, i, j);
    var row :| row in run[i].db.rows && row.id == id && row.sender == name;
    var k :| 0 <= k < |run[i].db.rows| && run[i].db.rows[k] == row;
    assert LaterRow(row, run[j].db.rows[k]);
    assert run[j].db.rows[k] in run[j].db.rows;
  }

  lemma FoundSender(s: System, id: Id, actor: Name, m: Message)
    requires Inv(s) && Load(s.db, id, Some(actor)) == Ok(m)
    ensures SenderOf(s.db, id, m.row.sender)
  {
    InvShape(s);
    LoadByRows(s.db, id, Some(actor), m);
  }

  /** What `save` was asked for in the name of a command: a request to the peer, under the id if there is
      one, or an answer to the request, to whoever sent it. */
  ghost predicate AsksFor(run: seq<System>, saved: Saved, to: To) {
    saved.at < |run|
    && match to
       case ToPeer(recipient, id) =>
         saved.recipient == recipient && saved.inReplyTo.None? && (id.Some? ==> saved.id == id.value)
       case ToRequest(request) => saved.inReplyTo == Some(request) && SenderOf(run[saved.at].db, request, saved.recipient)
  }

  /** The tables of the moment at which `save` decided refuse this message for this reason. */
  ghost predicate MailRefused(run: seq<System>, saved: Saved, text: string, error: Error) {
    saved.at < |run| && SaveError(run[saved.at].db, saved.sender, saved.recipient, text, saved.id, saved.inReplyTo, error)
  }

  ghost predicate SavedFor(run: seq<System>, saved: Saved, to: To, text: string, created: bool) {
    && SavedAs(run, saved.at, saved.sender, saved.recipient, text, saved.id, saved.inReplyTo, saved.message, created)
    && match to
       case ToPeer(recipient, id) =>
         saved.recipient == recipient && saved.inReplyTo.None? && (id.Some? ==> saved.id == id.value)
       case ToRequest(request) => saved.inReplyTo == Some(request)
  }

  /** The request under its own id, or an answer to the request, is there. */
  predicate AlreadySaved(db: Db, to: To) {
    match to
    case ToPeer(_, id) => id.Some? && SavedAlready(db, id.value, None)
    case ToRequest(request) => SavedAlready(db, "", Some(request))
  }

  /** Then `save` decides to insert nothing, at every later moment of the run. */
  lemma RepeatedInsertsNothing(run: seq<System>, i: nat, j: nat, saved: Saved, to: To, text: string)
    requires Run(run) && i <= j < |run| && AlreadySaved(run[i].db, to)
    requires match to
             case ToPeer(_, id) => id == Some(saved.id) && saved.inReplyTo.None?
             case ToRequest(request) => saved.inReplyTo == Some(request)
    ensures AlreadySaved(run[j].db, to)
    ensures !Allowed(run[j].db, saved.sender, saved.recipient, saved.id, saved.inReplyTo)
  {
    NothingNew(run, i, j, saved.sender, saved.recipient, text, saved.id, saved.inReplyTo);
    hide Run, Decide, Allowed;
  }

  lemma CreatedUnderId(run: seq<System>, at: nat, sender: Name, recipient: Name, body: string, id: Id,
                       inReplyTo: Option<Id>, message: Message, created: bool)
    requires SavedAs(run, at, sender, recipient, body, id, inReplyTo, message, created)
    ensures created ==> message.row.id == id
  {
  }

  lemma StillSaved(before: seq<System>, run: seq<System>, to: To)
    requires Run(run) && before != [] && before <= run && AlreadySaved(before[|before| - 1].db, to)
    ensures AlreadySaved(run[|run| - 1].db, to)
  {
    var i, j := |before| - 1, |run| - 1;
    match to
    case ToPeer(_, id) => NothingNew(run, i, j, "", "", "", id.value, None);
    case ToRequest(request) => NothingNew(run, i, j, "", "", "", "", Some(request));
  }

  /** `me` made no call, or one for the message `id`. */
  ghost predicate CalledAtMost(start: seq<Call>, calls: seq<Call>, me: Pid, id: Id) {
    NoCall(start, calls, me) || OneCall(start, calls, me, id)
  }

  lemma QuietThenCalled(start: seq<Call>, before: seq<Call>, after: seq<Call>, me: Pid, id: Id)
    requires NoCall(start, before, me) && CalledAtMost(before, after, me, id)
    ensures CalledAtMost(start, after, me, id)
  {
    if OneCall(before, after, me, id) {
      var k :| |before| <= k < |after| && after[k].pid == me && after[k].id == id
               && forall i :: |before| <= i < |after| && i != k ==> after[i].pid != me;
      forall i | |start| <= i < |after| && i != k
        ensures after[i].pid != me
      {
        assert i < |before| ==> after[i] == before[i];
      }
    }
  }

  lemma QuietThenQuiet(start: seq<Call>, before: seq<Call>, after: seq<Call>, me: Pid)
    requires NoCall(start, before, me)
    ensures NoCall(before, after, me) ==> NoCall(start, after, me)
  {
  }

  lemma CalledLater(start: seq<Call>, before: seq<Call>, after: seq<Call>, me: Pid, id: Id, called: bool)
    requires NoCall(start, before, me) && CalledSince(before, after, me, id, called)
    ensures CalledAtMost(start, after, me, id) && (!called ==> NoCall(start, after, me))
  {
    QuietThenCalled(start, before, after, me, id);
    QuietThenQuiet(start, before, after, me);
  }

  lemma SavedForLonger(run: seq<System>, longer: seq<System>, saved: Saved, to: To, text: string, created: bool)
    requires run <= longer && SavedFor(run, saved, to, text, created)
    ensures SavedFor(longer, saved, to, text, created)
  {
    assert longer[saved.at] == run[saved.at];
    assert created ==> longer[saved.at + 1] == run[saved.at + 1];
  }

  /** What came before the transaction of `save`, and the transaction. */
  lemma EventsJoin(me: Pid, ready: Work, saving: Work)
    requires !ready.saving && ready.inserted.None? && !saving.upgraded && !saving.read
    ensures Events(me, ready) + Events(me, saving) == Events(me, Work(ready.upgraded, ready.read, saving.saving, saving.inserted))
  {
  }

  /** The events of a first attempt that was tried again: it may have read the text. */
  function FirstTry(me: Pid, read: bool): seq<Event> {
    [Tried(me)] + if read then [TextRead(me)] else []
  }

  /** All that one command did: one attempt, or two of which the first did no more than read the text. */
  function Tries(me: Pid, again: bool, readFirst: bool, work: Work): seq<Event> {
    (if again then FirstTry(me, readFirst) else []) + [Tried(me)] + Events(me, work)
  }

  lemma OneTry(me: Pid, base: seq<Event>, readFirst: bool, work: Work)
    ensures base + [Tried(me)] + Events(me, work) == base + Tries(me, false, readFirst, work)
  {
    hide Events;
  }

  lemma TwoTries(me: Pid, base: seq<Event>, first: Work, work: Work)
    requires !Wrote(first) && first.inserted.None?
    ensures base + [Tried(me)] + Events(me, first) + [Tried(me)] + Events(me, work) == base + Tries(me, true, first.read, work)
  {
    OnlyRead(me, first);
    hide Events, FirstTry;
    assert base + [Tried(me)] + Events(me, first) == base + FirstTry(me, first.read);
  }

  class Sender {
    const store: Store
    /** What a second attempt takes over from the first: the text and the turn it waited for. */
    var text: Option<string>
    var held: bool
    var savedId: Option<Id>

    constructor (store: Store)
      ensures this.store == store && text.None? && !held && savedId.None?
    {
      this.store := store;
      text, held, savedId := None, false, None;
    }

    /** Opens the mailbox, which may upgrade it, and finds out who the sender is. */
    method Session() returns (r: Result<Name>, ghost upgraded: bool)
      requires store.Valid() && At(store.sys, store.me).Idle?
      modifies store`sys, store`run, store.turn
      ensures store.Valid() && old(store.run) <= store.run && At(store.sys, store.me).Idle?
      ensures NoCall(old(store.sys.calls), store.sys.calls, store.me)
      ensures Mine(store.sys, store.me) == Mine(old(store.sys), store.me) + Events(store.me, Work(upgraded, false, false, None))
      ensures store.turn.mode == if upgraded then Normal else old(store.turn.mode)
    {
      hide Run, Inv, Meanwhile, Own;
      upgraded := false;
      store.Others();
      if * {
        OwnMore(store.sys.journal, Began(store.me, false), store.me);
        store.Act(Begin(false));
        store.turn.StartedWrite();
        upgraded := true;
      }
      if * {
        var busy: bool :| true;
        return Err(DbFailure(busy)), upgraded;
      }
      if * {
        return Err(SessionFailure), upgraded;
      }
      var actor: Name :| true;
      r := Ok(actor);
    }

    /** Reads the text, unless an earlier attempt did. */
    method ReadText() returns (r: Result<string>)
      requires store.Valid() && At(store.sys, store.me).Idle?
      modifies this`text, store`sys, store`run
      ensures store.Valid() && old(store.run) <= store.run && At(store.sys, store.me).Idle?
      ensures NoCall(old(store.sys.calls), store.sys.calls, store.me)
      ensures Mine(store.sys, store.me)
           == Mine(old(store.sys), store.me) + Events(store.me, Work(false, old(text).None?, false, None))
      ensures r.Ok? ==> text == Some(r.value) && (old(text).Some? ==> text == old(text))
      ensures r.Err? ==> r.error.FileFailure? && text == old(text) && text.None?
    {
      hide Run, Inv, Own;
      if text.None? {
        OwnMore(store.sys.journal, TextRead(store.me), store.me);
        store.Act(MailboxRuns.Action.ReadText);
        if * {
          return Err(FileFailure);
        }
        var given: string :| true;
        text := Some(given);
      }
      r := Ok(text.value);
    }

    /** Who sends which text, to whom, and which request it answers. */
    method Prepare(to: To) returns (r: Result<(Name, string, Name, Option<Id>)>, ghost work: Work)
      requires store.Valid() && At(store.sys, store.me).Idle?
      modifies this`text, store`sys, store`run, store.turn
      ensures store.Valid() && old(store.run) <= store.run && At(store.sys, store.me).Idle?
      ensures NoCall(old(store.sys.calls), store.sys.calls, store.me)
      ensures Mine(store.sys, store.me) == Mine(old(store.sys), store.me) + Events(store.me, work)
      ensures !work.saving && work.inserted.None?
      ensures store.turn.mode == if work.upgraded then Normal else old(store.turn.mode)
      ensures TextTaken(old(text), text, work.read, r.Err? && r.error.FileFailure?)
      ensures r.Ok? ==> text == Some(r.value.1) && Addressed(to, r.value.2, r.value.3)
      ensures r.Ok? && to.ToRequest? ==> SenderOf(store.sys.db, to.request, r.value.2)
    {
      hide Run, Inv, NoCall, Load, Meanwhile, Extends, Addressed, Own, SenderOf;
      var session;
      ghost var upgraded;
      session, upgraded := Session();
      work := Work(upgraded, false, false, None);
      if session.Err? {
        return Err(session.error), work;
      }
      ghost var before := store.sys.calls;
      work := Work(upgraded, text.None?, false, None);
      var given := ReadText();
      NoCallTransitive(old(store.sys.calls), before, store.sys.calls, store.me);
      if given.Err? {
        return Err(given.error), work;
      }
      before := store.sys.calls;
      var found := Recipient(to, session.value);
      NoCallTransitive(old(store.sys.calls), before, store.sys.calls, store.me);
      r := if found.Err? then Err(found.error) else Ok((session.value, given.value, found.value.0, found.value.1));
    }

    /** Everything up to the saved message: `saved.at` is where in the run its transaction decided. */
    method SaveTo(to: To) returns (r: Result<(Message, bool)>, actor: Name, ghost saved: Saved, ghost work: Work)
      requires store.Valid() && At(store.sys, store.me).Idle?
      modifies this`text, store`sys, store`run, store.turn
      ensures store.Valid() && old(store.run) <= store.run && At(store.sys, store.me).Idle?
      ensures NoCall(old(store.sys.calls), store.sys.calls, store.me)
      ensures Mine(store.sys, store.me) == Mine(old(store.sys), store.me) + Events(store.me, work)
      ensures store.turn.mode == if Wrote(work) then Normal else old(store.turn.mode)
      ensures TextTaken(old(text), text, work.read, r.Err? && r.error.FileFailure?)
      ensures work.inserted.Some? ==> work.saving
      ensures AlreadySaved(old(store.sys.db), to) ==> work.inserted.None?
      ensures r.Ok? ==> work.saving && Present(store.sys.db, r.value.0.row.id)
      ensures r.Ok? ==> work.inserted == if r.value.1 then Some(r.value.0.row.id) else None
      ensures r.Ok? ==>
                && text.Some? && SavedFor(store.run, saved, to, text.value, r.value.1)
                && saved.message == r.value.0 && saved.sender == actor
      ensures r.Ok? || work.saving ==> AsksFor(store.run, saved, to)
      ensures r.Err? && work.saving ==>
                text.Some? && (r.error.DbFailure? || MailRefused(store.run, saved, text.value, r.error))
    {
      hide Run, Inv, SavedFor, AsksFor, MailRefused, SenderOf, NoCall, AlreadySaved, Addressed, Own, Events;
      saved := Saved(0, "", "", "", None, DefaultMessage());
      var ready;
      ready, work := Prepare(to);
      if ready.Err? {
        return Err(ready.error), "", saved, work;
      }
      actor := ready.value.0;
      if AlreadySaved(old(store.sys.db), to) {
        StillSaved(old(store.run), store.run, to);
      }
      ghost var before, saving := store.sys.calls, NO_WORK;
      r, saved, saving := SaveText(to, actor, ready.value.2, ready.value.3, ready.value.1);
      NoCallTransitive(old(store.sys.calls), before, store.sys.calls, store.me);
      EventsJoin(store.me, work, saving);
      work := Work(work.upgraded, work.read, saving.saving, saving.inserted);
    }

    /** To whom the message goes, and which request it answers. */
    method Recipient(to: To, actor: Name) returns (r: Result<(Name, Option<Id>)>)
      requires store.Valid()
      modifies store`sys, store`run
      ensures store.Valid() && old(store.run) <= store.run && At(store.sys, store.me) == At(old(store.sys), store.me)
      ensures NoCall(old(store.sys.calls), store.sys.calls, store.me)
      ensures Mine(store.sys, store.me) == Mine(old(store.sys), store.me)
      ensures r.Ok? ==> Addressed(to, r.value.0, r.value.1)
      ensures r.Ok? && to.ToRequest? ==> SenderOf(store.sys.db, to.request, r.value.0)
      ensures r.Err? ==> r.error.DbFailure? || (to.ToRequest? && Load(store.sys.db, to.request, Some(actor)) == Err(r.error))
    {
      hide Run, Inv, NoCall, Load, Meanwhile, Own, SenderOf;
      NoCallSelf(store.sys.calls, store.me);
      match to
      case ToRequest(request) =>
        var found := store.Get(request, Some(actor));
        if found.Err? {
          return Err(found.error);
        }
        FoundSender(store.sys, request, actor, found.value);
        return Ok((found.value.row.sender, Some(request)));
      case ToPeer(peer, _) =>
        return Ok((peer, None));
    }

    /** The call of `save`, under the given id or a random one. */
    method SaveText(to: To, actor: Name, recipient: Name, inReplyTo: Option<Id>, given: string)
      returns (r: Result<(Message, bool)>, ghost saved: Saved, ghost work: Work)
      requires store.Valid() && At(store.sys, store.me).Idle?
      requires Addressed(to, recipient, inReplyTo) && (to.ToRequest? ==> SenderOf(store.sys.db, to.request, recipient))
      modifies store`sys, store`run, store.turn
      ensures store.Valid() && old(store.run) <= store.run && At(store.sys, store.me).Idle?
      ensures NoCall(old(store.sys.calls), store.sys.calls, store.me)
      ensures Mine(store.sys, store.me) == Mine(old(store.sys), store.me) + Events(store.me, work)
      ensures !work.upgraded && !work.read && (work.inserted.Some? ==> work.saving)
      ensures store.turn.mode == if work.saving then Normal else old(store.turn.mode)
      ensures AlreadySaved(old(store.sys.db), to) ==> work.inserted.None?
      ensures r.Ok? ==>
                && work.saving && Present(store.sys.db, r.value.0.row.id)
                && SavedFor(store.run, saved, to, given, r.value.1) && saved.message == r.value.0
                && work.inserted == if r.value.1 then Some(r.value.0.row.id) else None
      ensures AsksFor(store.run, saved, to) && saved.sender == actor
      ensures r.Err? ==> r.error.DbFailure? || MailRefused(store.run, saved, given, r.error)
    {
      hide Run, Inv, SavedAs, SaveError, Allowed, SavedAlready, NoCall, Own, Events, SenderOf;
      ghost var first := |store.run| - 1;
      var random: Id :| true;
      var id := if to.ToPeer? && to.id.Some? then to.id.value else random;
      ghost var at;
      r, at, work := store.Save(actor, recipient, given, id, inReplyTo);
      if AlreadySaved(old(store.sys.db), to) {
        RepeatedInsertsNothing(store.run, first, at, Saved(at, actor, recipient, id, inReplyTo, DefaultMessage()), to, given);
      }
      saved := Saved(at, actor, recipient, id, inReplyTo, if r.Ok? then r.value.0 else DefaultMessage());
      if to.ToRequest? {
        SenderStays(store.run, first, at, to.request, recipient);
      }
      if r.Ok? {
        CreatedUnderId(store.run, at, actor, recipient, given, id, inReplyTo, r.value.0, r.value.1);
      }
    }

    /** After the message is saved: notify its recipient if this attempt created it, and wait. `called`
        tells whether the adapter was called. */
    method NotifyAndWait(message: Message, actor: Name, created: bool, noNotify: bool, seconds: nat)
      returns (r: Result<Answer>, called: bool)
      requires store.Valid() && At(store.sys, store.me).Idle? && Present(store.sys.db, message.row.id)
      modifies store`sys, store`run
      ensures store.Valid() && old(store.run) <= store.run
      ensures At(store.sys, store.me).Idle? || At(store.sys, store.me).NotifierDone?
      ensures CalledSince(old(store.sys.calls), store.sys.calls, store.me, message.row.id, called)
      ensures Mine(store.sys, store.me) == Mine(old(store.sys), store.me)
      ensures called ==> created && !noNotify
      ensures r.Ok? && created && !noNotify ==> !Claims(store.sys.db, message.row.id)
      ensures r.Ok? ==> r.value.created == created && r.value.message.row.id == message.row.id
                        && r.value.exit == if created && !noNotify && Unconfirmed(r.value.message) then 2 else 0
    {
      hide Run, Inv, Meanwhile, NoCall, OneCall, CalledSince, ExitOf, Unconfirmed, Claims, Own;
      var id, answer := message.row.id, message;
      called := false;
      ghost var start := store.sys.calls;
      CalledSinceSelf(start, store.me, id);
      if * {
        return Err(Interrupted), false;
      }
      if created && !noNotify {
        var outcome, notified, claimed;
        ghost var last, decided;
        notified, called, outcome, claimed, last, decided := store.NotifyOnce(id);
        if notified.Err? {
          return Err(notified.error), called;
        }
        answer := notified.value;
      }
      if * {
        return Err(Interrupted), called;
      }
      if seconds != 0 {
        ghost var before, at := store.sys.calls, |store.run| - 1;
        ghost var looked;
        var waited;
        waited, looked := store.WaitFor(id, actor, seconds);
        StillCalled(start, before, store.sys.calls, store.me, id, called);
        RunKeepsUnclaimable(store.run, at, id);
        if waited.Err? {
          return Err(waited.error), called;
        }
        answer := waited.value;
      }
      ExitUnconfirmed(answer, created && !noNotify);
      r := Ok(Answer(answer, created, ExitOf(answer, created && !noNotify)));
    }

    /** One attempt. The journal has it begin, and then what it did: `work`. */
    method Attempt(to: To, noNotify: bool, seconds: nat) returns (r: Result<Answer>, ghost saved: Saved, ghost work: Work)
      requires store.Valid() && At(store.sys, store.me).Idle?
      modifies this, store`sys, store`run, store.turn
      ensures store.Valid() && old(store.run) <= store.run
      ensures At(store.sys, store.me).Idle? || At(store.sys, store.me).NotifierDone?
      ensures Mine(store.sys, store.me) == Mine(old(store.sys), store.me) + [Tried(store.me)] + Events(store.me, work)
      ensures store.turn.mode == if Wrote(work) then Normal else old(store.turn.mode)
      ensures !Wrote(work) ==>
                r.Err? && At(store.sys, store.me).Idle? && NoCall(old(store.sys.calls), store.sys.calls, store.me)
      ensures TextTaken(old(text), text, work.read, r.Err? && r.error.FileFailure?)
      ensures held ==> old(held)
      ensures work.inserted.Some? ==> work.saving
      ensures AlreadySaved(old(store.sys.db), to) ==>
                work.inserted.None? && NoCall(old(store.sys.calls), store.sys.calls, store.me)
      ensures CalledAtMost(old(store.sys.calls), store.sys.calls, store.me, saved.message.row.id)
      ensures r.Ok? ==>
                && !held && text.Some? && SavedFor(store.run, saved, to, text.value, r.value.created)
                && savedId == Some(saved.message.row.id) && r.value.message.row.id == saved.message.row.id
                && work.inserted == (if r.value.created then Some(r.value.message.row.id) else None)
                && (!r.value.created || noNotify ==> NoCall(old(store.sys.calls), store.sys.calls, store.me))
                && (r.value.created && !noNotify ==> !Claims(store.sys.db, saved.message.row.id))
                && r.value.exit == (if r.value.created && !noNotify && Unconfirmed(r.value.message) then 2 else 0)
    {
      hide Run, Inv, SavedFor, Unconfirmed, NoCall, OneCall, Meanwhile, Extends, Claims, AlreadySaved, Own, Events;
      ghost var start := store.sys.calls;
      OwnMore(store.sys.journal, Tried(store.me), store.me);
      store.Act(Try);
      var done, actor;
      done, actor, saved, work := SaveTo(to);
      if done.Err? {
        return Err(done.error), saved, work;
      }
      var message, created := done.value.0, done.value.1;
      store.turn.StartedWrite();
      held := false;
      savedId := Some(message.row.id);
      ghost var before, shorter := store.sys.calls, store.run;
      var called;
      r, called := NotifyAndWait(message, actor, created, noNotify, seconds);
      CalledLater(start, before, store.sys.calls, store.me, message.row.id, called);
      SavedForLonger(shorter, store.run, saved, to, text.value, created);
    }

    /** The second attempt, after a first that made no call since `start`. */
    method Again(to: To, noNotify: bool, seconds: nat, ghost start: seq<Call>)
      returns (r: Result<Answer>, ghost saved: Saved, ghost work: Work)
      requires store.Valid() && At(store.sys, store.me).Idle? && NoCall(start, store.sys.calls, store.me)
      requires store.turn.mode == if held then Heir else Normal
      modifies this, store`sys, store`run, store.turn
      ensures store.Valid() && old(store.run) <= store.run
      ensures Mine(store.sys, store.me) == Mine(old(store.sys), store.me) + [Tried(store.me)] + Events(store.me, work)
      ensures work.read ==> old(text).None?
      ensures work.inserted.Some? ==> work.saving
      ensures AlreadySaved(old(store.sys.db), to) ==> work.inserted.None? && NoCall(start, store.sys.calls, store.me)
      ensures CalledAtMost(start, store.sys.calls, store.me, saved.message.row.id)
      ensures r.Ok? ==>
                && text.Some? && SavedFor(store.run, saved, to, text.value, r.value.created)
                && savedId == Some(saved.message.row.id) && r.value.message.row.id == saved.message.row.id
                && work.inserted == (if r.value.created then Some(r.value.message.row.id) else None)
                && (!r.value.created || noNotify ==> NoCall(start, store.sys.calls, store.me))
                && (r.value.created && !noNotify ==> !Claims(store.sys.db, saved.message.row.id))
                && r.value.exit == (if r.value.created && !noNotify && Unconfirmed(r.value.message) then 2 else 0)
    {
      hide Run, Inv, SavedFor, Unconfirmed, NoCall, OneCall, CalledAtMost, Claims, AlreadySaved, Own, Events;
      ghost var failed := store.sys.calls;
      r, saved, work := Attempt(to, noNotify, seconds);
      QuietThenCalled(start, failed, store.sys.calls, store.me, saved.message.row.id);
      QuietThenQuiet(start, failed, store.sys.calls, store.me);
    }

    /** `write`: it tries again only if the mailbox was busy before any write transaction of the first
        attempt. The journal shows all that the command did: one attempt and its `work`, or two, and then
        the first did no more than read the text (`readFirst`). So there is at most one write transaction
        of `save`, one upgrade and one row, and the text is read at most once. `interrupted` and
        `interruptedThen` are what the interrupt flag shows before and after the wait for the turn, and
        `acquired` is how that wait ends: with the turn, without it, or interrupted. */
    method Write(to: To, noNotify: bool, seconds: nat, interrupted: bool, acquired: Result<bool>, interruptedThen: bool)
      returns (r: Result<Answer>, again: bool, ghost saved: Saved, ghost readFirst: bool, ghost work: Work)
      requires store.Valid() && At(store.sys, store.me).Idle? && text.None? && !held
      modifies this, store`sys, store`run, store.turn
      ensures store.Valid() && old(store.run) <= store.run
      ensures store.turn.mode == old(store.turn.mode) && !held
      ensures Mine(store.sys, store.me) == Mine(old(store.sys), store.me) + Tries(store.me, again, readFirst, work)
      ensures again && readFirst ==> !work.read
      ensures work.inserted.Some? ==> work.saving
      ensures again ==> !interrupted && acquired.Ok? && !interruptedThen
      ensures !again && r == Err(DbFailure(true)) ==> Wrote(work) || interrupted
      ensures AlreadySaved(old(store.sys.db), to) ==>
                work.inserted.None? && NoCall(old(store.sys.calls), store.sys.calls, store.me)
      ensures CalledAtMost(old(store.sys.calls), store.sys.calls, store.me, saved.message.row.id)
      ensures r.Ok? ==>
                && text.Some? && SavedFor(store.run, saved, to, text.value, r.value.created)
                && savedId == Some(saved.message.row.id) && r.value.message.row.id == saved.message.row.id
                && work.inserted == (if r.value.created then Some(r.value.message.row.id) else None)
                && (!r.value.created || noNotify ==> NoCall(old(store.sys.calls), store.sys.calls, store.me))
                && (r.value.created && !noNotify ==> !Claims(store.sys.db, saved.message.row.id))
                && r.value.exit == (if r.value.created && !noNotify && Unconfirmed(r.value.message) then 2 else 0)
    {
      hide Run, Inv, SavedFor, Unconfirmed, NoCall, OneCall, CalledAtMost, Claims, AlreadySaved, Own, Events, Tries, FirstTry;
      again, readFirst := false, false;
      ghost var base := Mine(store.sys, store.me);
      ghost var start := store.sys.calls;
      var before := store.turn.Probe();
      r, saved, work := Attempt(to, noNotify, seconds);
      OneTry(store.me, base, false, work);
      var busyBeforeWrite := r.Err? && r.error == DbFailure(true) && store.turn.mode == Fresh;
      if !busyBeforeWrite || interrupted {
        store.turn.EndProbe(before);
        held := false;
        return;
      }
      if acquired.Err? {
        store.turn.EndProbe(before);
        return Err(Interrupted), false, saved, false, work;
      }
      held := acquired.value;
      store.turn.Queued(held);
      if interruptedThen {
        held := false;
        store.turn.EndProbe(before);
        return Err(Interrupted), false, saved, false, work;
      }
      if AlreadySaved(old(store.sys.db), to) {
        StillSaved(old(store.run), store.run, to);
      }
      ghost var first := work;
      r, saved, work := Again(to, noNotify, seconds, start);
      again, readFirst := true, first.read;
      TwoTries(store.me, base, first, work);
      held := false;
      store.turn.EndProbe(before);
    }
  }

  /** How an attempt got its text: from an earlier one, or by reading it, which may fail. */
  predicate TextTaken(before: Option<string>, after: Option<string>, read: bool, failed: bool) {
    && (before.Some? ==> after == before && !read)
    && (before.None? ==> (after.Some? ==> read) && (read ==> after.Some? || failed))
  }

  lemma OnlyRead(me: Pid, work: Work)
    requires !Wrote(work) && work.inserted.None?
    ensures [Tried(me)] + Events(me, work) == FirstTry(me, work.read)
  {
  }

  function DefaultMessage(): Message {
    Message(Row(0, "", "", "", None, "", 0, None, NotSubmitted, None, None, None, None), None)
  }
}
