/** Pages of a mailbox (src/store.rs, src/catalog/mailbox.rs) and the command that asks for the next
    one (src/guidance.rs, src/commands/read.rs). */
module Paging {
  import opened Common
  import opened Mailbox
  import SaveRules
  import ShellWords

  const MAX_SEQ: nat := 0x7FFF_FFFF_FFFF_FFFF

  datatype Query = Inbox | Sent

  /** The conditions INBOX and SENT of a row, in the table `rows`. */
  predicate Matches(rows: seq<Row>, query: Query, actor: Name, row: Row) {
    match query
    case Inbox =>
      row.recipient == actor
      && ((row.inReplyTo.None? && !Answered(rows, row.id)) || (row.inReplyTo.Some? && row.ackAt.None?))
    case Sent => row.sender == actor
  }

  function Filter(s: seq<Row>, keep: Row -> bool): (r: seq<Row>)
    ensures forall x :: x in r <==> x in s && keep(x)
    ensures |r| <= |s|
  {
    if s == [] then [] else (if keep(s[0]) then [s[0]] else []) + Filter(s[1..], keep)
  }

  function Reversed<T>(s: seq<T>): (r: seq<T>)
    ensures |r| == |s| && forall i :: 0 <= i < |s| ==> r[i] == s[|s| - 1 - i]
  {
    if s == [] then [] else Reversed(s[1..]) + [s[0]]
  }

  /** Matching rows in the order of the query: inbox oldest first, sent newest first. */
  function Ordered(rows: seq<Row>, query: Query, keep: Row -> bool): seq<Row> {
    var found := Filter(rows, keep);
    if query == Sent then Reversed(found) else found
  }

  predicate Beyond(query: Query, row: Row, cursor: nat) {
    if query == Sent then row.number < cursor else row.number > cursor
  }

  /** The rows beyond the cursor, in their order. */
  function Rest(s: seq<Row>, query: Query, cursor: nat): seq<Row> {
    if s == [] then [] else (if Beyond(query, s[0], cursor) then [s[0]] else []) + Rest(s[1..], query, cursor)
  }

  datatype Page = Page(messages: seq<Row>, total: nat, omitted: nat)

  function Min(a: nat, b: nat): nat {
    if a < b then a else b
  }

  function FirstCursor(query: Query): nat {
    if query == Sent then MAX_SEQ else 0
  }

  function From(query: Query, cursor: Option<nat>): nat {
    if cursor.Some? then cursor.value else FirstCursor(query)
  }

  /** One page of rows that are already in order: at most `limit` rows beyond the cursor. */
  function Cut(ordered: seq<Row>, query: Query, limit: nat, cursor: Option<nat>): Page {
    var rest := Rest(ordered, query, From(query, cursor));
    var messages := rest[..Min(limit, |rest|)];
    Page(messages, |ordered|, if messages == [] then 0 else |Rest(ordered, query, messages[|messages| - 1].number)|)
  }

  function PageOf(rows: seq<Row>, query: Query, keep: Row -> bool, limit: nat, cursor: Option<nat>): Page {
    Cut(Ordered(rows, query, keep), query, limit, cursor)
  }

  function Matching(db: Db, actor: Name, query: Query): seq<Row> {
    Ordered(db.rows, query, (row: Row) => Matches(db.rows, query, actor, row))
  }

  function StorePage(db: Db, actor: Name, query: Query, limit: nat, cursor: Option<nat>): Page {
    Cut(Matching(db, actor, query), query, limit, cursor)
  }

  /** The other participant of a row, as the catalogue's CASE expression names it. */
  function Counterpart(actor: Name, row: Row): Name {
    if row.sender == actor then row.recipient else row.sender
  }

  function CataloguePage(db: Db, actor: Name, names: set<Name>, query: Query, limit: nat, cursor: Option<nat>): Page {
    PageOf(db.rows, query, (row: Row) => Matches(db.rows, query, actor, row) && Counterpart(actor, row) in names, limit, cursor)
  }

  // ---- What is on the lists ----

  /** The inbox of a peer holds the requests to it that no row answers and the answers to it that it has
      not acknowledged; `sent` holds what it sent. */
  ghost predicate Listed(db: Db, query: Query, actor: Name, row: Row) {
    row in db.rows
    && match query
       case Inbox => row.recipient == actor && if row.inReplyTo.None? then SaveRules.Unanswered(db, row.id) else row.ackAt.None?
       case Sent => row.sender == actor
  }

  lemma MatchingIsListed(db: Db, actor: Name, query: Query, row: Row)
    ensures row in Matching(db, actor, query) <==> Listed(db, query, actor, row)
  {
    OrderedMembers(db.rows, query, (r: Row) => Matches(db.rows, query, actor, r), row);
    SaveRules.FoundOrUnanswered(db, row.id);
  }

  predicate Valid(limit: int, cursor: Option<int>) {
    1 <= limit <= 500 && (cursor.Some? ==> cursor.value >= 1)
  }

  // ---- Order ----

  ghost predicate Ascending(rows: seq<Row>) {
    forall i, j :: 0 <= i < j < |rows| ==> rows[i].number < rows[j].number
  }

  ghost predicate InOrder(rows: seq<Row>, query: Query) {
    forall i, j :: 0 <= i < j < |rows| ==> Beyond(query, rows[j], rows[i].number)
  }

  lemma {:induction false} FilterAscending(rows: seq<Row>, keep: Row -> bool)
    requires Ascending(rows)
    ensures Ascending(Filter(rows, keep))
  {
    if rows == [] {
    } else {
      FilterAscending(rows[1..], keep);
      forall row | row in Filter(rows[1..], keep)
        ensures rows[0].number < row.number
      {
        assert row in rows[1..];
      }
    }
  }

  lemma ReversedMembers(s: seq<Row>, x: Row)
    ensures x in Reversed(s) <==> x in s
  {
    if x in s {
      var i :| 0 <= i < |s| && s[i] == x;
      assert Reversed(s)[|s| - 1 - i] == x;
    }
  }

  lemma OrderedInOrder(rows: seq<Row>, query: Query, keep: Row -> bool)
    requires Ascending(rows)
    ensures InOrder(Ordered(rows, query, keep), query)
  {
    FilterAscending(rows, keep);
  }

  lemma OrderedMembers(rows: seq<Row>, query: Query, keep: Row -> bool, row: Row)
    ensures row in Ordered(rows, query, keep) <==> row in rows && keep(row)
  {
    ReversedMembers(Filter(rows, keep), row);
  }

  /** `k` is where the rows beyond the cursor begin. */
  ghost predicate Place(ordered: seq<Row>, query: Query, cursor: nat, k: nat) {
    k <= |ordered| && forall i :: 0 <= i < |ordered| ==> (Beyond(query, ordered[i], cursor) <==> k <= i)
  }

  /** In an ordered list the rows beyond a cursor are the last ones. */
  lemma {:induction false} BeyondIsTail(ordered: seq<Row>, query: Query, cursor: nat) returns (k: nat)
    requires InOrder(ordered, query)
    ensures Place(ordered, query, cursor, k) && Rest(ordered, query, cursor) == ordered[k..]
  {
    if ordered == [] {
      k := 0;
    } else {
      assert InOrder(ordered[1..], query);
      var tail := BeyondIsTail(ordered[1..], query, cursor);
      if Beyond(query, ordered[0], cursor) {
        k := 0;
        assert |ordered| > 1 ==> Beyond(query, ordered[1], ordered[0].number) && ordered[1] == ordered[1..][0];
        assert [ordered[0]] + ordered[1..] == ordered == ordered[0..];
      } else {
        k := tail + 1;
        assert ordered[1..][tail..] == ordered[k..];
      }
      forall i | 0 <= i < |ordered|
        ensures Beyond(query, ordered[i], cursor) <==> k <= i
      {
        assert i > 0 ==> ordered[1..][i - 1] == ordered[i];
      }
    }
  }

  // ---- One page ----

  /** What `Cut` gives, when `k` and `n` are where its rows begin and end. */
  ghost predicate Stretch(ordered: seq<Row>, page: Page, limit: nat, k: nat, n: nat) {
    && k <= n <= |ordered| && n == k + Min(limit, |ordered| - k)
    && page == Page(ordered[k..n], |ordered|, |ordered| - n)
  }

  lemma CutAt(ordered: seq<Row>, query: Query, limit: nat, cursor: Option<nat>, k: nat, n: nat)
    requires k <= |ordered| && n == k + Min(limit, |ordered| - k)
    requires Rest(ordered, query, From(query, cursor)) == ordered[k..]
    requires k < n ==> Rest(ordered, query, ordered[n - 1].number) == ordered[n..]
    requires k == n ==> n == |ordered|
    ensures Stretch(ordered, Cut(ordered, query, limit, cursor), limit, k, n)
  {
    hide Rest, From;
    assert ordered[k..][..n - k] == ordered[k..n];
  }

  /** A page is a contiguous stretch of the ordered rows; the counts add up to all of them. */
  lemma CutIsStretch(ordered: seq<Row>, query: Query, limit: nat, cursor: Option<nat>) returns (k: nat, n: nat)
    requires InOrder(ordered, query) && 0 < limit
    ensures Place(ordered, query, From(query, cursor), k)
    ensures Stretch(ordered, Cut(ordered, query, limit, cursor), limit, k, n)
    ensures k < n ==> Place(ordered, query, ordered[n - 1].number, n)
  {
    hide Rest, Cut, InOrder, Place, Stretch, Beyond, From;
    k := BeyondIsTail(ordered, query, From(query, cursor));
    assert k <= |ordered| by { PlaceWithin(ordered, query, From(query, cursor), k); }
    n := k + Min(limit, |ordered| - k);
    if k < n {
      var next := BeyondIsTail(ordered, query, ordered[n - 1].number);
      AfterLast(ordered, query, n - 1, next);
    }
    CutAt(ordered, query, limit, cursor, k, n);
  }

  lemma PlaceWithin(ordered: seq<Row>, query: Query, cursor: nat, k: nat)
    requires Place(ordered, query, cursor, k)
    ensures k <= |ordered|
  {
  }

  lemma AfterLast(ordered: seq<Row>, query: Query, last: nat, after: nat)
    requires InOrder(ordered, query) && last < |ordered| && Place(ordered, query, ordered[last].number, after)
    ensures after == last + 1
  {
    assert !Beyond(query, ordered[last], ordered[last].number);
    assert last + 1 < |ordered| ==> Beyond(query, ordered[last + 1], ordered[last].number);
  }

  // ---- Following next_page ----

  /** All messages that a reader gets from `cursor` on by running `next_page` while it is offered. */
  ghost function Follow(ordered: seq<Row>, query: Query, limit: nat, cursor: Option<nat>): seq<Row>
    requires InOrder(ordered, query) && 0 < limit
    decreases |Rest(ordered, query, From(query, cursor))|
  {
    var page := Cut(ordered, query, limit, cursor);
    if page.omitted == 0 || page.messages == [] then page.messages
    else
      CutShrinks(ordered, query, limit, cursor);
      page.messages + Follow(ordered, query, limit, Some(page.messages[|page.messages| - 1].number))
  }

  lemma CutShrinks(ordered: seq<Row>, query: Query, limit: nat, cursor: Option<nat>)
    requires InOrder(ordered, query) && 0 < limit
    ensures var page := Cut(ordered, query, limit, cursor);
            |Rest(ordered, query, From(query, cursor))| == |page.messages| + page.omitted
  {
    var k, n := CutIsStretch(ordered, query, limit, cursor);
    var tail := BeyondIsTail(ordered, query, From(query, cursor));
    SamePlace(ordered, query, From(query, cursor), k, tail);
  }

  lemma FollowUnfolds(ordered: seq<Row>, query: Query, limit: nat, cursor: Option<nat>, k: nat, n: nat)
    requires InOrder(ordered, query) && 0 < limit && Stretch(ordered, Cut(ordered, query, limit, cursor), limit, k, n)
    ensures Follow(ordered, query, limit, cursor)
         == if n == |ordered| then ordered[k..n] else ordered[k..n] + Follow(ordered, query, limit, Some(ordered[n - 1].number))
  {
    assert n < |ordered| ==> ordered[k..n] != [] && ordered[k..n][n - k - 1] == ordered[n - 1];
  }

  lemma {:induction false} FollowIsTail(ordered: seq<Row>, query: Query, limit: nat, cursor: Option<nat>, k: nat)
    requires InOrder(ordered, query) && 0 < limit && Place(ordered, query, From(query, cursor), k)
    ensures Follow(ordered, query, limit, cursor) == ordered[k..]
    decreases |ordered| - k
  {
    var from, n := CutIsStretch(ordered, query, limit, cursor);
    SamePlace(ordered, query, From(query, cursor), k, from);
    FollowUnfolds(ordered, query, limit, cursor, k, n);
    if n < |ordered| {
      FollowIsTail(ordered, query, limit, Some(ordered[n - 1].number), n);
    }
    Halves(ordered, k, n);
  }

  lemma Halves(s: seq<Row>, k: nat, n: nat)
    requires k <= n <= |s|
    ensures s[k..n] + s[n..] == s[k..]
  {
  }

  lemma SamePlace(ordered: seq<Row>, query: Query, cursor: nat, j: nat, k: nat)
    requires Place(ordered, query, cursor, j) && Place(ordered, query, cursor, k)
    ensures j == k
  {
    assert j < |ordered| ==> Beyond(query, ordered[j], cursor);
    assert k < |ordered| ==> Beyond(query, ordered[k], cursor);
  }

  /** Following `next_page` from the first page gives every matching row once, in order, exactly when
      no matching row of `sent` has the last number that SQLite can give. */
  lemma FollowGivesAll(rows: seq<Row>, query: Query, keep: Row -> bool, limit: nat)
    requires Ascending(rows) && 0 < limit && forall row :: row in rows ==> 0 < row.number <= MAX_SEQ
    ensures InOrder(Ordered(rows, query, keep), query)
    ensures Follow(Ordered(rows, query, keep), query, limit, None) == Ordered(rows, query, keep)
            <==> (query == Sent ==> forall row :: row in rows && keep(row) ==> row.number != MAX_SEQ)
  {
    var ordered := Ordered(rows, query, keep);
    OrderedInOrder(rows, query, keep);
    var k := BeyondIsTail(ordered, query, FirstCursor(query));
    FollowIsTail(ordered, query, limit, None, k);
    if k > 0 {
      OrderedMembers(rows, query, keep, ordered[0]);
      assert !Beyond(query, ordered[0], FirstCursor(query));
      assert |ordered[k..]| < |ordered|;
    } else {
      assert ordered[0..] == ordered;
      forall row | row in rows && keep(row) && query == Sent
        ensures row.number != MAX_SEQ
      {
        OrderedMembers(rows, query, keep, row);
      }
    }
  }

  // ---- The catalogue's pages ----

  /** The mailbox as if it only held the rows of the allowed conversations. */
  function Allowed(rows: seq<Row>, actor: Name, names: set<Name>): seq<Row> {
    Filter(rows, (row: Row) => Counterpart(actor, row) in names)
  }

  /** A request to the actor is answered in the whole mailbox exactly when it is in the allowed part:
      its answer has the same counterpart. */
  lemma AnsweredInAllowed(db: Db, actor: Name, names: set<Name>, request: Row)
    requires WellFormed(db) && request in db.rows && request.inReplyTo.None?
    requires request.recipient == actor && Counterpart(actor, request) in names
    ensures Answered(db.rows, request.id) <==> Answered(Allowed(db.rows, actor, names), request.id)
  {
    var allowed := Allowed(db.rows, actor, names);
    if Answered(db.rows, request.id) {
      var j := FindAnswer(db.rows, request.id);
      assert HasRequest(db.rows, j);
      var i :| 0 <= i < j && Answers(db.rows[j], db.rows[i]);
      var k :| 0 <= k < |db.rows| && db.rows[k] == request;
      assert db.rows[i].id == request.id && i == k;
      assert Participants(db, request);
      assert db.rows[j] in allowed;
    }
    if Answered(allowed, request.id) {
      var answer := allowed[FindAnswer(allowed, request.id)];
      assert answer in db.rows;
    }
  }

  lemma SameMatches(db: Db, actor: Name, names: set<Name>, query: Query, row: Row)
    requires WellFormed(db) && row in db.rows
    ensures Counterpart(actor, row) in names ==>
              (Matches(db.rows, query, actor, row) <==> Matches(Allowed(db.rows, actor, names), query, actor, row))
  {
    if Counterpart(actor, row) in names && query == Inbox && row.inReplyTo.None? && row.recipient == actor {
      AnsweredInAllowed(db, actor, names, row);
    }
  }

  lemma {:induction false} FilterFilter(rows: seq<Row>, outer: Row -> bool, inner: Row -> bool, both: Row -> bool)
    requires forall row :: row in rows ==> (both(row) <==> outer(row) && inner(row))
    ensures Filter(Filter(rows, outer), inner) == Filter(rows, both)
  {
    if rows == [] {
    } else {
      FilterFilter(rows[1..], outer, inner, both);
      assert rows[0] in rows;
      var tail := Filter(rows[1..], outer);
      if outer(rows[0]) {
        assert ([rows[0]] + tail)[1..] == tail;
      } else {
        assert Filter(rows, outer) == tail;
      }
    }
  }

  /** The catalogue's page is the ordinary page of a mailbox that only holds the conversations with
      the allowed names. */
  lemma CataloguePageIsAllowedPage(db: Db, actor: Name, names: set<Name>, query: Query, limit: nat, cursor: Option<nat>)
    requires WellFormed(db)
    ensures CataloguePage(db, actor, names, query, limit, cursor)
         == StorePage(db.(rows := Allowed(db.rows, actor, names)), actor, query, limit, cursor)
  {
    var allowed := Allowed(db.rows, actor, names);
    var outer := (row: Row) => Counterpart(actor, row) in names;
    var inner := (row: Row) => Matches(allowed, query, actor, row);
    var both := (row: Row) => Matches(db.rows, query, actor, row) && Counterpart(actor, row) in names;
    forall row | row in db.rows
      ensures both(row) <==> outer(row) && inner(row)
    {
      SameMatches(db, actor, names, query, row);
    }
    FilterFilter(db.rows, outer, inner, both);
  }

  /** The catalogue lists what is on the list of the actor in a conversation with one of the names. */
  lemma CatalogueLists(db: Db, actor: Name, names: set<Name>, query: Query, row: Row)
    requires WellFormed(db)
    ensures row in Matching(db.(rows := Allowed(db.rows, actor, names)), actor, query)
            <==> Listed(db, query, actor, row)
                 && ((row.sender == actor && row.recipient in names) || (row.recipient == actor && row.sender in names))
  {
    var allowed := Allowed(db.rows, actor, names);
    OrderedMembers(allowed, query, (r: Row) => Matches(allowed, query, actor, r), row);
    OrderedMembers(db.rows, query, (r: Row) => Matches(db.rows, query, actor, r), row);
    MatchingIsListed(db, actor, query, row);
    if row in db.rows {
      SameMatches(db, actor, names, query, row);
      var k :| 0 <= k < |db.rows| && db.rows[k] == row;
      assert Participants(db, db.rows[k]);
    }
  }

  // ---- The command for the next page ----

  /** The words of `next_page`, as the guidance writes them. */
  function NextWords(path: string, actor: Name, query: Query, limit: nat, last: nat, bodies: bool): seq<string> {
    ["htalk", "--db", path] + (if actor == "" then [] else ["--as", actor])
    + (if query == Sent then ["sent", "--limit", Decimal(limit), "--before-seq", Decimal(last)]
       else ["inbox", "--limit", Decimal(limit), "--after-seq", Decimal(last)])
    + (if query == Sent && bodies then ["--bodies"] else [])
  }

  function NextPage(path: string, actor: Name, query: Query, limit: nat, page: Page, bodies: bool): Option<string> {
    if page.omitted == 0 || page.messages == [] then None
    else Some(ShellWords.ShellJoin(NextWords(path, actor, query, limit, page.messages[|page.messages| - 1].number, bodies)))
  }

  /** The words of a command that asks for this list of this mailbox and peer, with this limit, from this
      cursor on, with texts if `bodies`. */
  predicate Asks(words: seq<string>, path: string, actor: Name, query: Query, limit: nat, cursor: nat, bodies: bool) {
    && |words| >= 10 && words[..5] == ["htalk", "--db", path, "--as", actor]
    && words[5] == (if query == Sent then "sent" else "inbox")
    && words[6] == "--limit" && Parsed(words[7]) == Some(limit)
    && words[8] == (if query == Sent then "--before-seq" else "--after-seq") && Parsed(words[9]) == Some(cursor)
    && words[10..] == if query == Sent && bodies then ["--bodies"] else []
  }

  /** A shell and the argument parser get back what `NextWords` was given. */
  lemma NextWordsRead(path: string, actor: Name, query: Query, limit: nat, last: nat, bodies: bool)
    requires actor != ""
    ensures var words := NextWords(path, actor, query, limit, last, bodies);
            && ShellWords.Split(ShellWords.ShellJoin(words)) == Some(words)
            && Asks(words, path, actor, query, limit, last, bodies)
  {
    ShellWords.SplitShellJoin(NextWords(path, actor, query, limit, last, bodies));
    ParsedDecimal(limit);
    ParsedDecimal(last);
  }

  /** Running `next_page` in a shell asks for the same list of the same mailbox and peer, with the same
      limit and texts, from the last message of this page; it is offered exactly while messages are omitted. */
  lemma NextPageContinues(path: string, actor: Name, query: Query, ordered: seq<Row>, limit: nat, cursor: Option<nat>, bodies: bool)
    requires InOrder(ordered, query) && 0 < limit && actor != ""
    ensures var page := Cut(ordered, query, limit, cursor);
            var offered := NextPage(path, actor, query, limit, page, bodies);
            && (offered.Some? <==> page.omitted > 0)
            && (offered.Some? ==>
                  var words := ShellWords.Split(offered.value);
                  words.Some? && Asks(words.value, path, actor, query, limit, page.messages[|page.messages| - 1].number, bodies))
  {
    var k, n := CutIsStretch(ordered, query, limit, cursor);
    var page := Cut(ordered, query, limit, cursor);
    hide Cut, NextWords, Asks;
    assert page.omitted > 0 ==> page.messages != [];
    if page.omitted > 0 {
      NextWordsRead(path, actor, query, limit, page.messages[|page.messages| - 1].number, bodies);
    }
  }

  // ---- Reading one page ----

  datatype PageError = LimitOutOfRange | CursorNotPositive | UnknownActor

  /** Why a page is refused, first reason first. */
  function PageRefusal(db: Db, actor: Name, limit: int, cursor: Option<int>): Option<PageError> {
    if !Valid(limit, None) then Some(LimitOutOfRange)
    else if !Valid(limit, cursor) then Some(CursorNotPositive)
    else if actor !in db.peers then Some(UnknownActor)
    else None
  }

  /** The page holds at most `limit` rows of the list beyond the cursor, and any other row of the list
      beyond the cursor is beyond the last one of the page, which then has `limit` rows. */
  ghost predicate Covers(db: Db, actor: Name, query: Query, limit: nat, cursor: nat, page: Page) {
    && |page.messages| <= limit
    && (forall row :: row in page.messages ==> Listed(db, query, actor, row) && Beyond(query, row, cursor))
    && forall row :: Listed(db, query, actor, row) && Beyond(query, row, cursor) && row !in page.messages ==>
         |page.messages| == limit > 0 && page.omitted > 0 && Beyond(query, row, page.messages[limit - 1].number)
  }

  lemma StretchWithin(ordered: seq<Row>, query: Query, limit: nat, cursor: nat, page: Page, k: nat, n: nat, row: Row)
    requires Place(ordered, query, cursor, k) && Stretch(ordered, page, limit, k, n) && row in page.messages
    ensures row in ordered && Beyond(query, row, cursor)
  {
    var i :| 0 <= i < n - k && page.messages[i] == row;
    assert ordered[k + i] == row;
  }

  lemma InStretch(ordered: seq<Row>, limit: nat, page: Page, k: nat, n: nat, i: nat)
    requires Stretch(ordered, page, limit, k, n) && i < |ordered|
    ensures k <= i < n ==> ordered[i] in page.messages
  {
    assert k <= i < n ==> page.messages[i - k] == ordered[i];
  }

  lemma StretchCovers(ordered: seq<Row>, query: Query, limit: nat, cursor: nat, page: Page, k: nat, n: nat, row: Row)
    requires Place(ordered, query, cursor, k) && Stretch(ordered, page, limit, k, n) && 0 < limit
    requires k < n ==> Place(ordered, query, ordered[n - 1].number, n)
    requires row in ordered && Beyond(query, row, cursor) && row !in page.messages
    ensures |page.messages| == limit && page.omitted > 0 && Beyond(query, row, page.messages[limit - 1].number)
  {
    var i :| 0 <= i < |ordered| && ordered[i] == row;
    assert k <= i;
    InStretch(ordered, limit, page, k, n, i);
    assert page.messages[limit - 1] == ordered[n - 1];
  }

  lemma MatchingInOrder(db: Db, actor: Name, query: Query)
    requires WellFormed(db)
    ensures InOrder(Matching(db, actor, query), query)
  {
    OrderedInOrder(db.rows, query, (row: Row) => Matches(db.rows, query, actor, row));
  }

  lemma CutCovers(ordered: seq<Row>, query: Query, limit: nat, cursor: Option<nat>, page: Page)
    requires InOrder(ordered, query) && 0 < limit && page == Cut(ordered, query, limit, cursor)
    ensures |page.messages| <= limit
    ensures forall row :: row in page.messages ==> row in ordered && Beyond(query, row, From(query, cursor))
    ensures forall row :: row in ordered && Beyond(query, row, From(query, cursor)) && row !in page.messages ==>
              |page.messages| == limit && page.omitted > 0 && Beyond(query, row, page.messages[limit - 1].number)
  {
    hide InOrder, Place, Beyond, Cut;
    var k, n := CutIsStretch(ordered, query, limit, cursor);
    assert |page.messages| <= limit;
    hide Stretch;
    forall row | row in page.messages
      ensures row in ordered && Beyond(query, row, From(query, cursor))
    {
      StretchWithin(ordered, query, limit, From(query, cursor), page, k, n, row);
    }
    forall row | row in ordered && Beyond(query, row, From(query, cursor)) && row !in page.messages
      ensures |page.messages| == limit && page.omitted > 0 && Beyond(query, row, page.messages[limit - 1].number)
    {
      StretchCovers(ordered, query, limit, From(query, cursor), page, k, n, row);
    }
  }

  lemma PageCovers(db: Db, actor: Name, query: Query, limit: nat, cursor: Option<nat>)
    requires WellFormed(db) && 0 < limit
    ensures Covers(db, actor, query, limit, From(query, cursor), StorePage(db, actor, query, limit, cursor))
  {
    var ordered := Matching(db, actor, query);
    MatchingInOrder(db, actor, query);
    var page := StorePage(db, actor, query, limit, cursor);
    CutCovers(ordered, query, limit, cursor, page);
    forall row
      ensures row in ordered <==> Listed(db, query, actor, row)
    {
      MatchingIsListed(db, actor, query, row);
    }
    hide WellFormed, Matching, InOrder, Listed, Beyond, Cut;
  }

  /** The query of a page, row by row over the matching rows as the table gives them. */
  method ReadPage(db: Db, actor: Name, query: Query, limit: int, cursor: Option<int>)
    returns (page: Page, error: Option<PageError>)
    ensures error == PageRefusal(db, actor, limit, cursor)
    ensures error.None? ==>
              page == StorePage(db, actor, query, limit, if cursor.Some? then Some(cursor.value) else None)
    ensures error.None? && WellFormed(db) ==>
              Covers(db, actor, query, limit, if cursor.Some? then cursor.value else FirstCursor(query), page)
  {
    hide WellFormed, Covers, Matching, Listed;
    page, error := Page([], 0, 0), None;
    if limit < 1 || 500 < limit {
      return page, Some(LimitOutOfRange);
    }
    if cursor.Some? && cursor.value < 1 {
      return page, Some(CursorNotPositive);
    }
    if actor !in db.peers {
      return page, Some(UnknownActor);
    }
    var ordered := Matching(db, actor, query);
    var rows := FirstBeyond(ordered, query, if cursor.Some? then cursor.value else FirstCursor(query), limit);
    var omitted := 0;
    if rows != [] {
      omitted := CountBeyond(ordered, query, rows[|rows| - 1].number);
    }
    page := Page(rows, |ordered|, omitted);
    if WellFormed(db) {
      PageCovers(db, actor, query, limit, if cursor.Some? then Some(cursor.value) else None);
    }
  }

  lemma RestStep(ordered: seq<Row>, i: nat, query: Query, cursor: nat)
    requires i < |ordered|
    ensures Rest(ordered[i..], query, cursor)
         == (if Beyond(query, ordered[i], cursor) then [ordered[i]] else []) + Rest(ordered[i + 1..], query, cursor)
  {
    assert ordered[i..][0] == ordered[i] && ordered[i..][1..] == ordered[i + 1..];
  }

  lemma RestOfNone(ordered: seq<Row>, query: Query, cursor: nat)
    ensures Rest(ordered[|ordered|..], query, cursor) == []
    ensures Rest(ordered[0..], query, cursor) == Rest(ordered, query, cursor)
  {
    assert ordered[0..] == ordered;
  }

  method FirstBeyond(ordered: seq<Row>, query: Query, cursor: nat, limit: nat) returns (rows: seq<Row>)
    ensures var rest := Rest(ordered, query, cursor); rows == rest[..Min(limit, |rest|)]
  {
    RestOfNone(ordered, query, cursor);
    hide Rest, Beyond;
    rows := [];
    var i := 0;
    while i < |ordered| && |rows| < limit
      invariant 0 <= i <= |ordered| && |rows| <= limit
      invariant rows + Rest(ordered[i..], query, cursor) == Rest(ordered, query, cursor)
    {
      RestStep(ordered, i, query, cursor);
      if Beyond(query, ordered[i], cursor) {
        rows := rows + [ordered[i]];
      }
      i := i + 1;
    }
  }

  method CountBeyond(ordered: seq<Row>, query: Query, cursor: nat) returns (count: nat)
    ensures count == |Rest(ordered, query, cursor)|
  {
    RestOfNone(ordered, query, cursor);
    hide Rest, Beyond;
    count := 0;
    for i := 0 to |ordered|
      invariant count + |Rest(ordered[i..], query, cursor)| == |Rest(ordered, query, cursor)|
    {
      RestStep(ordered, i, query, cursor);
      if Beyond(query, ordered[i], cursor) {
        count := count + 1;
      }
    }
  }
}
