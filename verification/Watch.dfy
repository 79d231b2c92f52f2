/** `watch` (src/commands/read.rs): a cursor over one peer's inbox while other processes save, answer
    and acknowledge. */
module Watch {
  import opened Common
  import opened Mailbox
  import opened MailboxRuns
  import opened Paging
  import opened SaveRules
  import opened Store

  /** The row is in the actor's inbox: a request to it that no row answers, or an answer to it that it has
      not acknowledged. */
  ghost predicate Open(db: Db, actor: Name, row: Row) {
    row in db.rows && row.recipient == actor
    && if row.inReplyTo.None? then Unanswered(db, row.id) else row.ackAt.None?
  }

  ghost predicate Told(emitted: seq<Row>, row: Row) {
    exists i :: 0 <= i < |emitted| && SameMail(emitted[i], row)
  }

  /** Every row that is open now and not beyond the cursor was emitted. */
  ghost predicate Caught(db: Db, actor: Name, emitted: seq<Row>, cursor: nat) {
    forall row :: Open(db, actor, row) && row.number <= cursor ==> Told(emitted, row)
  }

  /** The row was open in some state of the run. */
  ghost predicate WasOpen(run: seq<System>, actor: Name, row: Row) {
    exists i :: 0 <= i < |run| && Open(run[i].db, actor, row)
  }

  // ---- Openness never returns, and new rows come after old ones ----

  lemma UnansweredBefore(db: Db, later: Db, request: Id)
    requires Extends(db, later) && Unanswered(later, request)
    ensures Unanswered(db, request)
  {
    forall row | row in db.rows
      ensures row.inReplyTo != Some(request)
    {
      var k :| 0 <= k < |db.rows| && db.rows[k] == row;
      assert LaterRow(db.rows[k], later.rows[k]);
    }
  }

  /** A row that is open later, and is not newer than `db`, was open in `db`. */
  lemma OpenBefore(db: Db, later: Db, actor: Name, row: Row) returns (before: Row)
    requires Extends(db, later) && Open(later, actor, row) && row.number < db.next
    ensures Open(db, actor, before) && SameMail(before, row)
  {
    var k :| 0 <= k < |later.rows| && later.rows[k] == row;
    assert k < |db.rows|;
    before := db.rows[k];
    assert LaterRow(before, row);
    if row.inReplyTo.None? {
      UnansweredBefore(db, later, row.id);
    }
  }

  /** Whoever caught up with `db` has nothing to catch up with later, up to the same cursor. */
  lemma CaughtLater(db: Db, later: Db, actor: Name, emitted: seq<Row>, cursor: nat)
    requires Extends(db, later) && Caught(db, actor, emitted, cursor) && cursor < db.next
    ensures Caught(later, actor, emitted, cursor)
  {
    forall row | Open(later, actor, row) && row.number <= cursor
      ensures Told(emitted, row)
    {
      var before := OpenBefore(db, later, actor, row);
      var i :| 0 <= i < |emitted| && SameMail(emitted[i], before);
      assert SameMail(emitted[i], row);
    }
  }

  lemma MatchingOpen(db: Db, actor: Name, row: Row)
    ensures row in Matching(db, actor, Inbox) <==> Open(db, actor, row)
  {
    MatchingIsListed(db, actor, Inbox, row);
  }

  /** A page taken in `db` from the cursor on, of which the first `n` messages are emitted. */
  ghost predicate PageFrom(db: Db, actor: Name, page: Page, cursor: nat) {
    exists k :: 0 <= k <= |Matching(db, actor, Inbox)| && PageIs(Matching(db, actor, Inbox), page, cursor, k)
  }

  ghost predicate PageIs(open: seq<Row>, page: Page, cursor: nat, k: nat) {
    && k + |page.messages| <= |open| && page.messages == open[k..k + |page.messages|]
    && page.omitted == |open| - k - |page.messages|
    && forall i :: 0 <= i < |open| ==> (open[i].number > cursor <==> k <= i)
  }

  lemma StretchIsPage(open: seq<Row>, page: Page, limit: nat, cursor: nat, k: nat, n: nat)
    requires Place(open, Inbox, cursor, k) && Stretch(open, page, limit, k, n)
    ensures k <= |open| && PageIs(open, page, cursor, k)
  {
    assert forall i :: 0 <= i < |open| ==> (Beyond(Inbox, open[i], cursor) <==> open[i].number > cursor);
  }

  lemma PageIsFrom(db: Db, actor: Name, limit: nat, cursor: Option<nat>)
    requires WellFormed(db) && 0 < limit
    ensures PageFrom(db, actor, StorePage(db, actor, Inbox, limit, cursor), if cursor.Some? then cursor.value else 0)
  {
    MatchingInOrder(db, actor, Inbox);
    hide WellFormed, Matching, Cut, InOrder, Place, Stretch, PageIs;
    var open := Matching(db, actor, Inbox);
    var k, n := CutIsStretch(open, Inbox, limit, cursor);
    StretchIsPage(open, StorePage(db, actor, Inbox, limit, cursor), limit, From(Inbox, cursor), k, n);
  }

  /** Between the cursor and the next message of the page there is no open row. */
  lemma PageSteps(open: seq<Row>, page: Page, from: nat, k: nat, n: nat, cursor: nat)
    requires InOrder(open, Inbox) && PageIs(open, page, from, k) && n < |page.messages|
    requires cursor == (if n == 0 then from else page.messages[n - 1].number)
    ensures page.messages[n] == open[k + n] && page.messages[n].number > cursor
    ensures forall row :: row in open && row.number <= page.messages[n].number ==> row.number <= cursor || row == page.messages[n]
  {
    assert page.messages[n] == open[k + n];
    assert n > 0 ==> page.messages[n - 1] == open[k + n - 1] && Beyond(Inbox, open[k + n], open[k + n - 1].number);
    forall row | row in open && row.number <= page.messages[n].number
      ensures row.number <= cursor || row == page.messages[n]
    {
      var i :| 0 <= i < |open| && open[i] == row;
      assert i > k + n ==> Beyond(Inbox, open[i], open[k + n].number);
      if n > 0 && i < k + n - 1 {
        assert Beyond(Inbox, open[k + n - 1], open[i].number);
      }
    }
  }

  /** Emitting the next message of the page: nothing open in `db` is passed over. */
  lemma NextMessage(db: Db, actor: Name, emitted: seq<Row>, page: Page, from: nat, cursor: nat, n: nat)
    requires WellFormed(db) && PageFrom(db, actor, page, from) && n < |page.messages|
    requires Caught(db, actor, emitted, cursor) && cursor == (if n == 0 then from else page.messages[n - 1].number)
    ensures page.messages[n].number > cursor && Open(db, actor, page.messages[n])
    ensures Caught(db, actor, emitted + [page.messages[n]], page.messages[n].number)
  {
    var open := Matching(db, actor, Inbox);
    MatchingInOrder(db, actor, Inbox);
    var k: nat :| k <= |open| && PageIs(open, page, from, k);
    var message := page.messages[n];
    PageSteps(open, page, from, k, n, cursor);
    MatchingOpen(db, actor, message);
    hide WellFormed, Matching, InOrder, PageIs, Told, Open;
    forall row | Open(db, actor, row) && row.number <= message.number
      ensures Told(emitted + [message], row)
    {
      MatchingOpen(db, actor, row);
      if row == message {
        ToldLast(emitted, message);
      } else {
        ToldMore(emitted, message, row);
      }
    }
  }

  lemma ToldLast(emitted: seq<Row>, message: Row)
    ensures Told(emitted + [message], message)
  {
    assert SameMail((emitted + [message])[|emitted|], message);
  }

  lemma ToldMore(emitted: seq<Row>, message: Row, row: Row)
    requires Told(emitted, row)
    ensures Told(emitted + [message], row)
  {
    var i :| 0 <= i < |emitted| && SameMail(emitted[i], row);
    assert (emitted + [message])[i] == emitted[i];
  }

  /** After a page without omitted messages, the cursor is beyond everything open in `db`. */
  lemma PageEnds(open: seq<Row>, page: Page, from: nat, k: nat, cursor: nat)
    requires InOrder(open, Inbox) && PageIs(open, page, from, k) && page.omitted == 0
    requires cursor == (if page.messages == [] then from else page.messages[|page.messages| - 1].number)
    ensures forall row :: row in open ==> row.number <= cursor
  {
    var last := |open| - 1;
    assert page.messages != [] ==> page.messages[|page.messages| - 1] == open[last];
    forall row | row in open
      ensures row.number <= cursor
    {
      var i :| 0 <= i < |open| && open[i] == row;
      assert page.messages != [] && i < last ==> Beyond(Inbox, open[last], open[i].number);
    }
  }

  /** Then everything that was open in `db` was emitted. */
  lemma Drained(db: Db, actor: Name, emitted: seq<Row>, page: Page, from: nat, cursor: nat)
    requires WellFormed(db) && PageFrom(db, actor, page, from) && page.omitted == 0
    requires Caught(db, actor, emitted, cursor)
    requires cursor == (if page.messages == [] then from else page.messages[|page.messages| - 1].number)
    ensures AllTold(db, actor, emitted)
  {
    var open := Matching(db, actor, Inbox);
    MatchingInOrder(db, actor, Inbox);
    var k: nat :| k <= |open| && PageIs(open, page, from, k);
    PageEnds(open, page, from, k, cursor);
    hide WellFormed, Matching, InOrder, PageIs, Told, Open;
    forall row | Open(db, actor, row)
      ensures Told(emitted, row)
    {
      MatchingOpen(db, actor, row);
    }
  }

  class Watcher {
    const store: Store
    const actor: Name
    var afterSeq: Option<nat>
    var emitted: seq<Row>

    constructor (store: Store, actor: Name)
      requires store.Valid()
      ensures this.store == store && this.actor == actor && afterSeq.None? && emitted == [] && Valid()
    {
      this.store, this.actor, afterSeq, emitted := store, actor, None, [];
      new;
      assert WellFormed(store.sys.db) by { InvShape(store.sys); }
      NothingToTell(store.sys.db, actor);
    }

    function Cursor(): nat
      reads this
    {
      if afterSeq.Some? then afterSeq.value else 0
    }

    /** At every moment: numbers only rise, each emitted row was open, and nothing that is open up to the
        cursor is missing. */
    ghost predicate Valid()
      reads this, store
    {
      && store.Valid()
      && Ascending(emitted)
      && afterSeq == (if emitted == [] then None else Some(emitted[|emitted| - 1].number))
      && Cursor() < store.sys.db.next
      && Caught(store.sys.db, actor, emitted, Cursor())
      && forall i :: 0 <= i < |emitted| ==> WasOpen(store.run, actor, emitted[i])
    }

    /** Time passes between the statements of this process. */
    method Pause()
      requires Valid()
      modifies store`sys, store`run
      ensures Valid() && old(store.run) <= store.run && Extends(old(store.sys.db), store.sys.db)
    {
      hide Run, Inv, Caught, WasOpen, Ascending, Meanwhile;
      ghost var before, shorter := store.sys, store.run;
      store.Others();
      MeanwhileNoCall(before, store.sys, store.me);
      CaughtLater(before.db, store.sys.db, actor, emitted, Cursor());
      StillWasOpen(shorter, store.run, actor, emitted);
    }

    /** Prints one message of the page that was taken in `db`. */
    method Emit(page: Page, ghost db: Db, ghost from: nat, n: nat)
      requires Valid() && WellFormed(db) && PageFrom(db, actor, page, from) && n < |page.messages|
      requires Extends(db, store.sys.db) && Caught(db, actor, emitted, Cursor())
      requires Cursor() == (if n == 0 then from else page.messages[n - 1].number)
      requires exists i :: 0 <= i < |store.run| && store.run[i].db == db
      modifies this
      ensures Valid() && emitted == old(emitted) + [page.messages[n]] && afterSeq == Some(page.messages[n].number)
      ensures Caught(db, actor, emitted, Cursor())
    {
      hide Run, Inv, WellFormed, Caught, PageFrom, Extends, WasOpen, Open;
      var message := page.messages[n];
      NextMessage(db, actor, emitted, page, from, Cursor(), n);
      OpenWasOpen(store.run, db, actor, message);
      assert message.number < db.next by { OpenNumbered(db, actor, message); }
      CaughtLater(db, store.sys.db, actor, emitted + [message], message.number);
      assert db.next <= store.sys.db.next by { ExtendsNext(db, store.sys.db); }
      emitted := emitted + [message];
      afterSeq := Some(message.number);
    }

    /** One page: its messages are printed while other processes go on. `drained` says that the command
        sleeps afterwards; then all that was open at the snapshot, at `at` in the run, has been printed. */
    method Round() returns (drained: bool, ghost snapshot: Db, ghost at: nat)
      requires Valid()
      modifies this, store`sys, store`run
      ensures Valid() && old(store.run) <= store.run && old(emitted) <= emitted
      ensures |old(store.run)| <= at + 1 && at < |store.run| && store.run[at].db == snapshot
      ensures Extends(old(store.sys.db), snapshot) && Extends(snapshot, store.sys.db)
      ensures emitted == old(emitted) + StorePage(snapshot, actor, Inbox, 100, old(afterSeq)).messages
      ensures drained <==> StorePage(snapshot, actor, Inbox, 100, old(afterSeq)).omitted == 0
      ensures drained ==> AllTold(snapshot, actor, emitted)
    {
      hide Run, Inv, WellFormed, Caught, PageFrom, Extends, WasOpen, Open, StorePage, Matching, Ascending, Told;
      Pause();
      snapshot := store.sys.db;
      at := |store.run| - 1;
      assert WellFormed(snapshot) by { InvShape(store.sys); }
      var page := StorePage(store.sys.db, actor, Inbox, 100, afterSeq);
      PageIsFrom(store.sys.db, actor, 100, afterSeq);
      ghost var from := Cursor();
      assert Extends(snapshot, snapshot) by { ExtendsSelf(snapshot); }
      for n := 0 to |page.messages|
        invariant Valid() && old(store.run) <= store.run && emitted == old(emitted) + page.messages[..n]
        invariant at < |store.run| && store.run[at].db == snapshot
        invariant Extends(snapshot, store.sys.db) && Caught(snapshot, actor, emitted, Cursor())
        invariant Cursor() == (if n == 0 then from else page.messages[n - 1].number)
      {
        Emit(page, snapshot, from, n);
        assert page.messages[..n + 1] == page.messages[..n] + [page.messages[n]];
        ghost var before := store.sys.db;
        Pause();
        ExtendsTransitive(snapshot, before, store.sys.db);
      }
      assert page.messages[..|page.messages|] == page.messages;
      drained := page.omitted == 0;
      if drained {
        Drained(snapshot, actor, emitted, page, from, Cursor());
      }
    }

    /** One round of `watch` with its sleep: a busy mailbox is tried again after a while. */
    method TakeLook(busy: bool, ghost from: nat) returns (ghost look: Look)
      requires Valid() && from < |store.run|
      modifies this, store`sys, store`run
      ensures Valid() && old(store.run) <= store.run
      ensures LookOk(look, busy, store.run, from, old(emitted), actor)
      ensures look.Looked? ==> |old(store.run)| <= look.at + 1
      ensures emitted == old(emitted) + if look.Busy? then [] else PageOfLook(look, actor).messages
    {
      hide Run, Inv, WellFormed, Caught, WasOpen, Open, Ascending, AllTold, Extends, StorePage, LookOk;
      ghost var cursor := afterSeq;
      look := Busy;
      if busy {
        Pause();
        NoLook(store.run, from, old(emitted), actor);
      } else {
        ghost var snapshot, at;
        var drained;
        drained, snapshot, at := Round();
        look := Looked(at, snapshot, cursor, drained);
        LookTaken(look, store.run, from, old(emitted), emitted, actor);
        ghost var mid := store.run;
        if drained {
          Pause();
          LookLater(look, mid, store.run, from, old(emitted), actor);
        }
      }
    }

    /** `watch`, for any number of rounds: it ends when it is interrupted, its reader is gone, or the mailbox
        fails. `busy` tells in which rounds the mailbox is busy; each other round reads one page of the
        mailbox of its moment, from the last printed message on, and prints it. The command sleeps after a
        page exactly if it leaves nothing. */
    method Watch(rounds: nat, busy: nat -> bool) returns (ghost looks: seq<Look>)
      requires Valid()
      modifies this, store`sys, store`run
      ensures Valid() && old(store.run) <= store.run
      ensures |looks| == rounds && LooksOk(looks, busy, store.run, |old(store.run)| - 1, old(emitted), actor)
      ensures emitted == old(emitted) + Printed(looks, actor)
      ensures Caught(store.sys.db, actor, emitted, Cursor())
      ensures forall i :: 0 <= i < |emitted| ==> WasOpen(store.run, actor, emitted[i])
    {
      hide Run, Inv, WellFormed, Caught, WasOpen, Open, Ascending, AllTold, Extends, StorePage, LooksOk, LookOk, Rising;
      looks := [];
      NoLooks(busy, store.run, |store.run| - 1, emitted, actor);
      for n := 0 to rounds
        invariant Valid() && old(store.run) <= store.run && |looks| == n
        invariant LooksOk(looks, busy, store.run, |old(store.run)| - 1, old(emitted), actor)
        invariant emitted == old(emitted) + Printed(looks, actor)
      {
        ghost var shorter := store.run;
        ghost var look := TakeLook(busy(n), |old(store.run)| - 1);
        LooksMore(looks, look, busy, shorter, store.run, |old(store.run)| - 1, old(emitted), actor);
        PrintedMore(looks, look, actor);
        looks := looks + [look];
      }
    }
  }

  /** What one round of `watch` was: nothing, or a page of the mailbox `snapshot`, at `at` in the run, from
      the cursor on, after which the command slept if `drained`. */
  datatype Look = Busy | Looked(at: nat, snapshot: Db, cursor: Option<nat>, drained: bool)

  ghost predicate AllTold(db: Db, actor: Name, emitted: seq<Row>) {
    forall row :: Open(db, actor, row) ==> Told(emitted, row)
  }

  function CursorOf(emitted: seq<Row>): Option<nat> {
    if emitted == [] then None else Some(emitted[|emitted| - 1].number)
  }

  function PageOfLook(look: Look, actor: Name): Page
    requires look.Looked?
  {
    StorePage(look.snapshot, actor, Inbox, 100, look.cursor)
  }

  /** A round that is not busy took its page in a state of the run from `from` on, with the cursor at what was
      printed before; a sleep comes exactly after a page that leaves nothing, and then all that was open in
      that state is printed. */
  ghost predicate LookOk(look: Look, busy: bool, run: seq<System>, from: nat, printed: seq<Row>, actor: Name) {
    && (look.Busy? <==> busy)
    && (look.Looked? ==>
          && from <= look.at < |run| && look.snapshot == run[look.at].db && look.cursor == CursorOf(printed)
          && (look.drained <==> PageOfLook(look, actor).omitted == 0)
          && (look.drained ==> AllTold(look.snapshot, actor, printed + PageOfLook(look, actor).messages)))
  }

  /** The moments of the looks do not go back. */
  ghost predicate Rising(looks: seq<Look>) {
    forall m, n :: 0 <= m < n < |looks| && looks[m].Looked? && looks[n].Looked? ==> looks[m].at <= looks[n].at
  }

  ghost predicate LooksOk(looks: seq<Look>, busy: nat -> bool, run: seq<System>, from: nat, base: seq<Row>, actor: Name) {
    && (forall n :: 0 <= n < |looks| ==> LookOk(looks[n], busy(n), run, from, base + Printed(looks[..n], actor), actor))
    && Rising(looks)
  }

  /** The messages of all pages, in order. */
  ghost function Printed(looks: seq<Look>, actor: Name): seq<Row> {
    if looks == [] then []
    else
      var last := looks[|looks| - 1];
      Printed(looks[..|looks| - 1], actor) + if last.Busy? then [] else PageOfLook(last, actor).messages
  }

  lemma NoLooks(busy: nat -> bool, run: seq<System>, from: nat, base: seq<Row>, actor: Name)
    ensures LooksOk([], busy, run, from, base, actor)
  {
  }

  lemma NoLook(run: seq<System>, from: nat, printed: seq<Row>, actor: Name)
    ensures LookOk(Busy, true, run, from, printed, actor)
  {
  }

  lemma LookTaken(look: Look, run: seq<System>, from: nat, printed: seq<Row>, after: seq<Row>, actor: Name)
    requires look.Looked? && from <= look.at < |run| && look.snapshot == run[look.at].db && look.cursor == CursorOf(printed)
    requires after == printed + PageOfLook(look, actor).messages
    requires look.drained <==> PageOfLook(look, actor).omitted == 0
    requires look.drained ==> AllTold(look.snapshot, actor, after)
    ensures LookOk(look, false, run, from, printed, actor)
  {
  }

  lemma LookLater(look: Look, run: seq<System>, longer: seq<System>, from: nat, printed: seq<Row>, actor: Name)
    requires run <= longer && LookOk(look, look.Busy?, run, from, printed, actor)
    ensures LookOk(look, look.Busy?, longer, from, printed, actor)
  {
    hide StorePage, AllTold;
  }

  lemma LooksMore(looks: seq<Look>, look: Look, busy: nat -> bool, run: seq<System>, longer: seq<System>, from: nat,
                  base: seq<Row>, actor: Name)
    requires run <= longer && LooksOk(looks, busy, run, from, base, actor)
    requires LookOk(look, busy(|looks|), longer, from, base + Printed(looks, actor), actor)
    requires look.Looked? ==> |run| <= look.at + 1
    ensures LooksOk(looks + [look], busy, longer, from, base, actor)
  {
    var more := looks + [look];
    assert more[..|looks|] == looks;
    forall n | 0 <= n < |more|
      ensures LookOk(more[n], busy(n), longer, from, base + Printed(more[..n], actor), actor)
    {
      if n < |looks| {
        assert more[..n] == looks[..n] && more[n] == looks[n];
        LookIsBusy(looks[n], busy(n), run, from, base + Printed(looks[..n], actor), actor);
        LookLater(looks[n], run, longer, from, base + Printed(looks[..n], actor), actor);
      }
    }
    assert Rising(more) by {
      forall m, n | 0 <= m < n < |more| && more[m].Looked? && more[n].Looked?
        ensures more[m].at <= more[n].at
      {
        assert LookOk(looks[m], busy(m), run, from, base + Printed(looks[..m], actor), actor);
      }
    }
  }

  lemma LookIsBusy(look: Look, busy: bool, run: seq<System>, from: nat, printed: seq<Row>, actor: Name)
    requires LookOk(look, busy, run, from, printed, actor)
    ensures look.Busy? <==> busy
  {
  }

  lemma PrintedMore(looks: seq<Look>, look: Look, actor: Name)
    ensures Printed(looks + [look], actor) == Printed(looks, actor) + if look.Busy? then [] else PageOfLook(look, actor).messages
  {
    assert (looks + [look])[..|looks|] == looks;
  }

  lemma NothingToTell(db: Db, actor: Name)
    requires WellFormed(db)
    ensures Caught(db, actor, [], 0)
  {
  }

  lemma StillWasOpen(run: seq<System>, longer: seq<System>, actor: Name, emitted: seq<Row>)
    requires run <= longer && forall i :: 0 <= i < |emitted| ==> WasOpen(run, actor, emitted[i])
    ensures forall i :: 0 <= i < |emitted| ==> WasOpen(longer, actor, emitted[i])
  {
    forall i | 0 <= i < |emitted|
      ensures WasOpen(longer, actor, emitted[i])
    {
      var k :| 0 <= k < |run| && Open(run[k].db, actor, emitted[i]);
      assert longer[k] == run[k];
    }
  }

  lemma OpenWasOpen(run: seq<System>, db: Db, actor: Name, row: Row)
    requires (exists i :: 0 <= i < |run| && run[i].db == db) && Open(db, actor, row)
    ensures WasOpen(run, actor, row)
  {
  }

  lemma OpenNumbered(db: Db, actor: Name, row: Row)
    requires WellFormed(db) && Open(db, actor, row)
    ensures row.number < db.next
  {
  }

  lemma ExtendsNext(db: Db, later: Db)
    requires Extends(db, later)
    ensures db.next <= later.next
  {
  }
}
