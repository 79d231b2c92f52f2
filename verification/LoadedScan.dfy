/** Paging the loaded threads of an app-server that may answer anything
    (src/adapters/codex/discovery.rs). A UUID stands for its canonical text. */
module LoadedScan {
  import opened Common

  type Uuid = string
  type Cursor = string

  const MAX_IDS := 200
  const MAX_CURSORS := 20

  datatype Failure =
    | System(code: string)
    | Code(code: string)

  /** Whether a failure is one bad record, where a failed transport, a timeout or a scan limit ends
      the whole source. */
  predicate PerRecord(failure: Failure) {
    failure.Code?
    && failure.code !in {"codex_websocket_failure", "codex_rpc_timeout", "codex_rpc_closed",
                         "codex_discovery_limit", "codex_discovery_time_limit"}
  }

  const INVALID_DATA := Code("invalid_client_data")

  datatype Result<+T> = Ok(value: T) | Err(failure: Failure)

  datatype Item = Other | Thread(id: Uuid)
  datatype Next = Last | More(cursor: Cursor) | NotACursor
  datatype ListReply = ListFailed(failure: Failure) | Malformed | Page(data: seq<Item>, next: Next)

  datatype Status = Absent | NotLoaded | Idle | Active | SystemError | Unknown
  /** What `thread/read` says: `address` needs a UUID and an absolute path. */
  datatype Record = Record(id: Option<Uuid>, workspace: Option<string>, status: Status, refusesInput: bool)
  datatype ReadReply = ReadFailed(failure: Failure) | NoThread | Thread(record: Record)

  datatype Session = Session(id: Uuid, workspace: string, status: Status)

  /** A verified session, `None` for one that is no address now, or why it could not be verified. */
  function LoadedThread(reply: ReadReply, ident: Uuid): Result<Option<Session>> {
    match reply
    case ReadFailed(failure) => Err(failure)
    case NoThread => Err(INVALID_DATA)
    case Thread(record) =>
      if record.id.None? || record.workspace.None? then Err(INVALID_DATA)
      else if record.id.value != ident then Err(INVALID_DATA)
      else if record.status == Absent then Err(INVALID_DATA)
      else if record.status == NotLoaded then Ok(None)
      else if record.refusesInput then Ok(None)
      else if record.status == Unknown then Err(INVALID_DATA)
      else Ok(Some(Session(ident, record.workspace.value, record.status)))
  }

  /** The app-server: every reply is arbitrary. The fields record what was asked and answered; `others`
      counts the listed items that are no UUID. */
  class Server {
    var lists: nat
    var listed: set<Uuid>
    var others: nat
    var asked: seq<Uuid>
    var replies: seq<ReadReply>

    ghost predicate Valid()
      reads this
    {
      |asked| == |replies|
    }

    constructor ()
      ensures Valid() && lists == 0 && listed == {} && others == 0 && asked == []
    {
      lists, listed, others, asked, replies := 0, {}, 0, [], [];
    }

    method List() returns (reply: ListReply)
      requires Valid()
      modifies this`lists, this`listed, this`others
      ensures Valid() && lists == old(lists) + 1
      ensures listed == old(listed) + if reply.Page? then Ids(reply.data) else {}
      ensures others == old(others) + if reply.Page? then Others(reply.data) else 0
    {
      reply :| true;
      lists := lists + 1;
      listed := listed + if reply.Page? then Ids(reply.data) else {};
      others := others + if reply.Page? then Others(reply.data) else 0;
    }

    method Read(ident: Uuid) returns (reply: ReadReply)
      requires Valid()
      modifies this`asked, this`replies
      ensures Valid() && asked == old(asked) + [ident] && replies == old(replies) + [reply]
    {
      reply :| true;
      asked := asked + [ident];
      replies := replies + [reply];
    }
  }

  function Ids(data: seq<Item>): set<Uuid> {
    set item | item in data && item.Thread? :: item.id
  }

  function Others(data: seq<Item>): nat {
    if data == [] then 0 else Others(data[..|data| - 1]) + if data[|data| - 1].Other? then 1 else 0
  }

  /** How many threads could not be verified. */
  function Unverified(asked: seq<Uuid>, replies: seq<ReadReply>): nat
    requires |asked| == |replies|
  {
    if asked == [] then 0
    else
      var n := |asked| - 1;
      Unverified(asked[..n], replies[..n]) + if LoadedThread(replies[n], asked[n]).Err? then 1 else 0
  }

  lemma UnverifiedOneMore(asked: seq<Uuid>, replies: seq<ReadReply>, ident: Uuid, reply: ReadReply)
    requires |asked| == |replies|
    ensures Unverified(asked + [ident], replies + [reply])
         == Unverified(asked, replies) + if LoadedThread(reply, ident).Err? then 1 else 0
  {
    assert (asked + [ident])[..|asked|] == asked && (replies + [reply])[..|asked|] == replies;
  }

  predicate Distinct<T(==)>(s: seq<T>) {
    forall i, j :: 0 <= i < j < |s| ==> s[i] != s[j]
  }

  /** The sessions among the answers, in the order they were read. */
  function Verified(asked: seq<Uuid>, replies: seq<ReadReply>): seq<Session>
    requires |asked| == |replies|
  {
    if asked == [] then []
    else
      var n := |asked| - 1;
      var last := LoadedThread(replies[n], asked[n]);
      Verified(asked[..n], replies[..n]) + if last.Ok? && last.value.Some? then [last.value.value] else []
  }

  lemma VerifiedOneMore(asked: seq<Uuid>, replies: seq<ReadReply>, ident: Uuid, reply: ReadReply)
    requires |asked| == |replies|
    ensures Verified(asked + [ident], replies + [reply])
         == Verified(asked, replies)
            + match LoadedThread(reply, ident) case Ok(Some(session)) => [session] case _ => []
  {
    assert (asked + [ident])[..|asked|] == asked && (replies + [reply])[..|asked|] == replies;
  }

  /** The answer to this question is this session, under the id that was asked for: a thread that accepts
      input in this workspace, with one of the three statuses of a loaded thread. */
  predicate ReadAs(ident: Uuid, reply: ReadReply, s: Session) {
    && ident == s.id && reply.Thread? && !reply.record.refusesInput
    && reply.record.id == Some(s.id) && reply.record.workspace == Some(s.workspace)
    && reply.record.status == s.status && s.status in {Idle, Active, SystemError}
  }

  /** The answer names the thread that was asked for, and it is no address now: unloaded, or a worker that
      refuses input. */
  predicate NoAddress(ident: Uuid, reply: ReadReply) {
    && reply.Thread? && reply.record.id == Some(ident) && reply.record.workspace.Some?
    && (reply.record.status == NotLoaded || (reply.record.refusesInput && reply.record.status != Absent))
  }

  /** An answer gives a session exactly if the thread was read as that session, is passed over exactly if
      the thread is no address, and is otherwise rejected. */
  lemma LoadedByRecord(reply: ReadReply, ident: Uuid)
    ensures forall s :: LoadedThread(reply, ident) == Ok(Some(s)) <==> ReadAs(ident, reply, s)
    ensures LoadedThread(reply, ident) == Ok(None) <==> NoAddress(ident, reply)
    ensures reply.ReadFailed? ==> LoadedThread(reply, ident) == Err(reply.failure)
    ensures LoadedThread(reply, ident).Err? && !reply.ReadFailed? ==> LoadedThread(reply, ident) == Err(INVALID_DATA)
  {
  }

  /** The failure of a read that ends the whole scan: of the system, of the transport, or of a limit. */
  predicate EndsScan(reply: ReadReply) {
    reply.ReadFailed?
    && (reply.failure.System?
        || reply.failure.code == "codex_websocket_failure" || reply.failure.code == "codex_rpc_timeout"
        || reply.failure.code == "codex_rpc_closed" || reply.failure.code == "codex_discovery_limit"
        || reply.failure.code == "codex_discovery_time_limit")
  }

  lemma EndsWhenNotPerRecord(reply: ReadReply, ident: Uuid)
    ensures EndsScan(reply) <==> LoadedThread(reply, ident).Err? && !PerRecord(LoadedThread(reply, ident).failure)
  {
  }

  predicate DistinctIds(found: seq<Session>) {
    forall i, j :: 0 <= i < j < |found| ==> found[i].id != found[j].id
  }

  ghost predicate WasRead(asked: seq<Uuid>, replies: seq<ReadReply>, s: Session)
    requires |asked| == |replies|
  {
    exists i :: 0 <= i < |asked| && ReadAs(asked[i], replies[i], s)
  }

  /** What was read last, or before. */
  lemma ReadLast(asked: seq<Uuid>, replies: seq<ReadReply>, s: Session)
    requires |asked| == |replies| > 0
    ensures var n := |asked| - 1;
            WasRead(asked, replies, s) ==> WasRead(asked[..n], replies[..n], s) || ReadAs(asked[n], replies[n], s)
  {
    var n := |asked| - 1;
    if WasRead(asked, replies, s) {
      var i :| 0 <= i < |asked| && ReadAs(asked[i], replies[i], s);
      assert i < n ==> asked[..n][i] == asked[i] && replies[..n][i] == replies[i];
    }
  }

  lemma ReadBefore(asked: seq<Uuid>, replies: seq<ReadReply>, s: Session)
    requires |asked| == |replies| > 0
    ensures WasRead(asked[..|asked| - 1], replies[..|asked| - 1], s) ==>
              WasRead(asked, replies, s) && s.id in asked[..|asked| - 1]
  {
    var n := |asked| - 1;
    if WasRead(asked[..n], replies[..n], s) {
      var i :| 0 <= i < n && ReadAs(asked[..n][i], replies[..n][i], s);
      assert asked[i] == asked[..n][i] && replies[i] == replies[..n][i];
    }
  }

  /** The verified sessions are exactly the threads that were read back, under the id they were asked for
      and accepting input; no id appears twice. */
  lemma {:induction false} VerifiedAreAsked(asked: seq<Uuid>, replies: seq<ReadReply>)
    requires |asked| == |replies| && Distinct(asked)
    ensures var found := Verified(asked, replies);
            && (forall s :: s in found <==> WasRead(asked, replies, s))
            && DistinctIds(found)
  {
    if asked == [] {
    } else {
      var n := |asked| - 1;
      VerifiedAreAsked(asked[..n], replies[..n]);
      var before, last := Verified(asked[..n], replies[..n]), LoadedThread(replies[n], asked[n]);
      var more := if last.Ok? && last.value.Some? then [last.value.value] else [];
      assert Verified(asked, replies) == before + more;
      LoadedByRecord(replies[n], asked[n]);
      hide Verified, LoadedThread, ReadAs;
      forall s | s in before
        ensures WasRead(asked, replies, s) && s.id != asked[n]
      {
        ReadBefore(asked, replies, s);
        NotBefore(asked, s.id);
      }
      forall s | s in more
        ensures WasRead(asked, replies, s) && s.id == asked[n]
      {
        assert ReadAs(asked[n], replies[n], s);
        assert s.id == asked[n] by { ReadUnder(asked[n], replies[n], s); }
      }
      forall s | WasRead(asked, replies, s)
        ensures s in before + more
      {
        ReadLast(asked, replies, s);
        if ReadAs(asked[n], replies[n], s) {
          assert last == Ok(Some(s));
        }
      }
      DistinctMore(before, more, asked[n]);
    }
  }

  lemma DistinctMore(before: seq<Session>, more: seq<Session>, ident: Uuid)
    requires DistinctIds(before) && |more| <= 1
    requires (forall s :: s in before ==> s.id != ident) && (forall s :: s in more ==> s.id == ident)
    ensures DistinctIds(before + more)
  {
    forall i, j | 0 <= i < j < |before + more|
      ensures (before + more)[i].id != (before + more)[j].id
    {
      assert before[i] in before;
      assert j >= |before| ==> (before + more)[j] in more;
    }
  }

  lemma ReadUnder(ident: Uuid, reply: ReadReply, s: Session)
    requires ReadAs(ident, reply, s)
    ensures s.id == ident
  {
  }

  lemma NotBefore(asked: seq<Uuid>, ident: Uuid)
    requires Distinct(asked) && |asked| > 0 && ident in asked[..|asked| - 1]
    ensures ident != asked[|asked| - 1]
  {
  }

  predicate NoneEnds(replies: seq<ReadReply>) {
    forall reply :: reply in replies ==> !EndsScan(reply)
  }

  class Scan {
    const server: Server
    var sessions: seq<Session>
    var count: nat

    constructor (server: Server)
      ensures this.server == server && sessions == [] && count == 0
    {
      this.server, sessions, count := server, [], 0;
    }

    /** What the scan has done so far: `seen` was read, each thread once, and the verified answers
        follow the sessions that were there before. */
    ghost predicate Progress(seen: set<Uuid>, before: seq<Session>, had: nat)
      reads this, server
    {
      && server.Valid()
      && Distinct(server.asked) && (forall id :: id in seen <==> id in server.asked)
      && |seen| == |server.asked| <= MAX_IDS
      && seen <= server.listed
      && sessions == before + Verified(server.asked, server.replies)
      && count == had + |Verified(server.asked, server.replies)|
    }

    /** Read one listed thread and keep it when it is verified. The failure, if any, is returned. */
    method Examine(ident: Uuid, ghost seen: set<Uuid>, ghost before: seq<Session>, ghost had: nat)
      returns (failure: Option<Failure>)
      requires Progress(seen, before, had) && ident in server.listed - seen && |seen| < MAX_IDS
      modifies this`sessions, this`count, server`asked, server`replies
      ensures Progress(seen + {ident}, before, had)
      ensures Unverified(server.asked, server.replies)
           == Unverified(old(server.asked), old(server.replies)) + if failure.Some? then 1 else 0
      ensures |server.replies| == |old(server.replies)| + 1 && old(server.replies) < server.replies
      ensures EndsScan(server.replies[|old(server.replies)|]) <==> failure.Some? && !PerRecord(failure.value)
    {
      hide Verified, Unverified, EndsScan, PerRecord;
      var reply := server.Read(ident);
      VerifiedOneMore(old(server.asked), old(server.replies), ident, reply);
      UnverifiedOneMore(old(server.asked), old(server.replies), ident, reply);
      EndsWhenNotPerRecord(reply, ident);
      match LoadedThread(reply, ident)
      case Ok(Some(session)) =>
        sessions := sessions + [session];
        count := count + 1;
        return None;
      case Ok(None) => return None;
      case Err(found) => return Some(found);
    }

    /** The records of one page, each thread once. */
    method ScanPage(data: seq<Item>, seen: set<Uuid>, ghost before: seq<Session>, ghost had: nat)
      returns (result: Result<nat>, seenIds: set<Uuid>)
      requires Progress(seen, before, had) && server.listed == seen + Ids(data)
      modifies this`sessions, this`count, server`asked, server`replies
      ensures Progress(seenIds, before, had)
      ensures result.Ok? ==> seenIds == server.listed
      ensures result.Ok? ==> old(server.replies) <= server.replies && NoneEnds(server.replies[|old(server.replies)|..])
      ensures result.Ok? ==>
                result.value + Unverified(old(server.asked), old(server.replies))
                == Others(data) + Unverified(server.asked, server.replies)
    {
      hide Unverified, Verified, EndsScan;
      seenIds := seen;
      var rejected := 0;
      for k := 0 to |data|
        invariant seen <= seenIds && forall i :: 0 <= i < k && data[i].Thread? ==> data[i].id in seenIds
        invariant Progress(seenIds, before, had)
        invariant old(server.replies) <= server.replies && NoneEnds(server.replies[|old(server.replies)|..])
        invariant rejected + Unverified(old(server.asked), old(server.replies))
               == Others(data[..k]) + Unverified(server.asked, server.replies)
      {
        assert data[..k + 1][..k] == data[..k];
        var item := data[k];
        var late: bool :| true;
        if |seenIds| >= MAX_IDS || late {
          return Err(Code("codex_discovery_limit")), seenIds;
        }
        if item.Other? {
          rejected := rejected + 1;
          continue;
        }
        if item.id in seenIds {
          continue;
        }
        assert item in data;
        ghost var earlier := server.replies;
        var failure := Examine(item.id, seenIds, before, had);
        seenIds := seenIds + {item.id};
        if failure.Some? {
          if !PerRecord(failure.value) {
            return Err(failure.value), seenIds;
          }
          rejected := rejected + 1;
        }
        assert server.replies[|old(server.replies)|..]
            == earlier[|old(server.replies)|..] + [server.replies[|earlier|]];
      }
      assert data[..|data|] == data;
      return Ok(rejected), seenIds;
    }

    /** The scan ends for every server. It asks for at most 21 pages and reads each listed thread at
        most once, and at most 200 of them. The sessions it adds are exactly the verified answers,
        also when it fails later; a scan without failure has read every listed thread, and counts the
        items that it could not use. */
    method ScanLoaded() returns (result: Result<nat>)
      requires server.Valid() && server.lists == 0 && server.listed == {} && server.others == 0 && server.asked == []
      modifies this, server
      ensures server.Valid()
      ensures server.lists <= MAX_CURSORS + 1
      ensures |server.asked| <= MAX_IDS && Distinct(server.asked)
      ensures forall id :: id in server.asked ==> id in server.listed
      ensures sessions == old(sessions) + Verified(server.asked, server.replies)
      ensures count == old(count) + |Verified(server.asked, server.replies)|
      ensures result.Ok? ==> forall id :: id in server.listed ==> id in server.asked
      ensures result.Ok? ==> NoneEnds(server.replies)
      ensures result.Ok? ==> result.value == server.others + Unverified(server.asked, server.replies)
    {
      assert Verified(server.asked, server.replies) == [] && Unverified(server.asked, server.replies) == 0;
      hide Verified, Unverified;
      ghost var seen;
      result, seen := ScanPages(sessions, count);
    }

    method ScanPages(ghost before: seq<Session>, ghost had: nat) returns (result: Result<nat>, ghost seen: set<Uuid>)
      requires Progress({}, before, had) && server.lists == 0 && server.listed == {} && server.others == 0
      requires Unverified(server.asked, server.replies) == 0 && server.replies == []
      modifies this, server
      ensures server.lists <= MAX_CURSORS + 1 && Progress(seen, before, had)
      ensures result.Ok? ==> seen == server.listed && result.value == server.others + Unverified(server.asked, server.replies)
      ensures result.Ok? ==> NoneEnds(server.replies)
    {
      hide Verified, Ids, Unverified, Others, LoadedThread, Distinct;
      var seenCursors: set<Cursor>, seenIds: set<Uuid> := {}, {};
      var rejected := 0;
      while true
        invariant |seenCursors| <= MAX_CURSORS && server.lists == |seenCursors|
        invariant Progress(seenIds, before, had) && seenIds == server.listed
        invariant rejected == server.others + Unverified(server.asked, server.replies)
        invariant NoneEnds(server.replies)
        decreases MAX_CURSORS - |seenCursors|
      {
        if * {
          return Err(Code("codex_discovery_time_limit")), seenIds;
        }
        var page := server.List();
        if page.ListFailed? {
          return Err(page.failure), seenIds;
        }
        if page.Malformed? {
          return Err(Code("invalid_loaded_threads_response")), seenIds;
        }
        var scanned;
        scanned, seenIds := ScanPage(page.data, seenIds, before, had);
        if scanned.Err? {
          return scanned, seenIds;
        }
        rejected := rejected + scanned.value;
        var last, failure;
        last, failure, seenCursors := Follow(page.next, seenCursors);
        if failure.Some? {
          return Err(failure.value), seenIds;
        }
        if last {
          return Ok(rejected), seenIds;
        }
      }
    }

    /** What `nextCursor` of a page says: the last page, one more new cursor, or a failure. */
    method Follow(next: Next, seen: set<Cursor>) returns (last: bool, failure: Option<Failure>, cursors: set<Cursor>)
      requires |seen| <= MAX_CURSORS
      ensures last <==> next.Last?
      ensures failure == match next
                         case Last => None
                         case NotACursor => Some(Code("invalid_discovery_cursor"))
                         case More(cursor) =>
                           if cursor in seen then Some(Code("invalid_discovery_cursor"))
                           else if |seen| == MAX_CURSORS then Some(Code("codex_discovery_limit")) else None
      ensures !last && failure.None? ==> |cursors| == |seen| + 1 <= MAX_CURSORS && cursors == seen + {next.cursor}
    {
      last, failure, cursors := false, None, seen;
      match next
      case Last =>
        last := true;
      case NotACursor =>
        failure := Some(Code("invalid_discovery_cursor"));
      case More(cursor) =>
        if cursor in seen {
          failure := Some(Code("invalid_discovery_cursor"));
        } else if |seen| >= MAX_CURSORS {
          failure := Some(Code("codex_discovery_limit"));
        } else {
          cursors := seen + {cursor};
        }
    }
  }

  /** After a scan, the sessions it reports were listed and read back, and their ids are pairwise distinct;
      every thread that was read back and accepts input is among them. */
  lemma ReportedSessions(scan: Scan)
    requires Distinct(scan.server.asked) && scan.server.Valid()
    requires forall id :: id in scan.server.asked ==> id in scan.server.listed
    ensures var found := Verified(scan.server.asked, scan.server.replies);
            && (forall s :: s in found ==> s.id in scan.server.listed)
            && (forall s :: s in found <==> WasRead(scan.server.asked, scan.server.replies, s))
            && DistinctIds(found)
  {
    VerifiedAreAsked(scan.server.asked, scan.server.replies);
  }
}
