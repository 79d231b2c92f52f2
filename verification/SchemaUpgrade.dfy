/** Opening a mailbox file and upgrading an old schema (src/schema.rs): what the upgrade keeps, and many
    processes that open the file at once. */
module SchemaUpgrade {
  import opened Common

  datatype Value = Null | Text(text: string) | Number(n: int)

  type Row = map<string, Value>

  /** A foreign key of one column. */
  datatype Ref = Ref(column: string, table: string, key: string)

  /** An object of the schema. Column names are in lower case; the flag says that the schema writes them
      so. */
  datatype Entry = View | Table(columns: map<string, bool>, refs: seq<Ref>, rows: seq<Row>)

  datatype File = File(version: int, objects: map<string, Entry>)

  datatype Error =
    | UnsupportedVersion | InvalidSchema | UnsupportedUnversioned | ForeignKeyViolation | IntegrityFailed
    | BackupFailed | Sqlite | Interrupted

  const CURRENT: int := 3

  function Get(row: Row, column: string): Value {
    if column in row then row[column] else Null
  }

  predicate IsTable(file: File, name: string) {
    name in file.objects && file.objects[name].Table?
  }

  function Rows(file: File, name: string): seq<Row> {
    if IsTable(file, name) then file.objects[name].rows else []
  }

  /** `has_column`, which compares exactly. */
  predicate HasColumn(file: File, table: string, column: string) {
    IsTable(file, table) && column in file.objects[table].columns && file.objects[table].columns[column]
  }

  // ---- Checks ----

  /** `legacy_table`, which does not. */
  predicate LegacyTable(file: File, name: string, columns: set<string>, required: bool) {
    if name !in file.objects then !required
    else file.objects[name].Table? && columns <= file.objects[name].columns.Keys
  }

  const PEER_COLUMNS: set<string> := {"name", "harness", "session_id", "workspace", "socket"}
  const MESSAGE_COLUMNS: set<string> := {
    "seq", "id", "sender", "recipient", "in_reply_to", "body", "created_at", "ack_at", "submission",
    "notification_started_at", "notification_finished_at", "notification_detail"}
  const WAIT_COLUMNS: set<string> := {"token", "message_id", "actor", "until"}
  const RETIRED_COLUMNS: set<string> := {"name", "retired_at"}

  predicate LegacyStructure(file: File) {
    && LegacyTable(file, "peers", PEER_COLUMNS, true)
    && LegacyTable(file, "messages", MESSAGE_COLUMNS, true)
    && LegacyTable(file, "waits", WAIT_COLUMNS, false)
    && LegacyTable(file, "retired_peers", RETIRED_COLUMNS, false)
  }

  predicate Held(file: File, table: string, key: string, v: Value) {
    exists row :: row in Rows(file, table) && Get(row, key) == v
  }

  predicate Closed(file: File, rows: seq<Row>, ref: Ref) {
    forall row :: row in rows ==> Get(row, ref.column) == Null || Held(file, ref.table, ref.key, Get(row, ref.column))
  }

  /** `PRAGMA foreign_key_check` finds nothing. */
  predicate ForeignKeys(file: File) {
    forall name :: name in file.objects && file.objects[name].Table? ==>
      forall ref :: ref in file.objects[name].refs ==> Closed(file, file.objects[name].rows, ref)
  }

  predicate Ready(file: File) {
    && "waits" in file.objects && file.objects["waits"].Table?
    && "retired_peers" in file.objects && file.objects["retired_peers"].Table?
    && HasColumn(file, "peers", "delivery") && HasColumn(file, "messages", "wait_returned_at")
  }

  // ---- The new tables ----

  function NextPeer(row: Row): Row {
    map["name" := Get(row, "name"), "harness" := Get(row, "harness"), "session_id" := Get(row, "session_id"),
        "workspace" := Get(row, "workspace"), "socket" := Get(row, "socket"), "url" := Get(row, "url"),
        "delivery" := Text("native")]
  }

  function NextPeers(rows: seq<Row>): (next: seq<Row>)
    ensures |next| == |rows| && forall i :: 0 <= i < |rows| ==> next[i] == NextPeer(rows[i])
  {
    if rows == [] then [] else NextPeers(rows[..|rows| - 1]) + [NextPeer(rows[|rows| - 1])]
  }

  predicate Unique(rows: seq<Row>, a: string, b: string) {
    forall i, j :: 0 <= i < j < |rows| ==>
      Get(rows[i], a) == Null || Get(rows[i], b) == Null
      || Get(rows[i], a) != Get(rows[j], a) || Get(rows[i], b) != Get(rows[j], b)
  }

  /** The constraints of the new peers table. */
  predicate PeerRow(row: Row) {
    && Get(row, "harness") != Null
    && (if Get(row, "delivery") == Text("native") then Get(row, "session_id") != Null && Get(row, "workspace") != Null
        else Get(row, "delivery") == Text("pull") && Get(row, "session_id") == Get(row, "workspace") == Null
             && Get(row, "socket") == Get(row, "url") == Null)
  }

  predicate PeersHold(rows: seq<Row>) {
    (forall row :: row in rows ==> PeerRow(row)) && Unique(rows, "name", "name") && Unique(rows, "harness", "session_id")
  }

  predicate PeerFits(row: Row) {
    Null !in {Get(row, "harness"), Get(row, "session_id"), Get(row, "workspace")}
  }

  /** Which old peers the new table takes: each needs a harness, a session and a workspace, and no two may
      share a name, or a harness and session. */
  ghost predicate PeersFit(rows: seq<Row>) {
    && (forall row :: row in rows ==> PeerFits(row))
    && (forall i, j :: 0 <= i < j < |rows| ==>
          && (Get(rows[i], "name") == Null || Get(rows[i], "name") != Get(rows[j], "name"))
          && (Get(rows[i], "harness") != Get(rows[j], "harness") || Get(rows[i], "session_id") != Get(rows[j], "session_id")))
  }

  lemma NextPeerFits(row: Row)
    ensures PeerRow(NextPeer(row)) <==> PeerFits(row)
    ensures forall column :: column in {"name", "harness", "session_id"} ==> Get(NextPeer(row), column) == Get(row, column)
  {
  }

  lemma NextPeersUnique(rows: seq<Row>, a: string, b: string)
    requires {a, b} <= {"name", "harness", "session_id"}
    ensures Unique(NextPeers(rows), a, b) <==> Unique(rows, a, b)
  {
    var next := NextPeers(rows);
    forall i | 0 <= i < |rows|
      ensures Get(next[i], a) == Get(rows[i], a) && Get(next[i], b) == Get(rows[i], b)
    {
      NextPeerFits(rows[i]);
    }
    hide NextPeers, Get;
  }

  lemma NextPeersFit(rows: seq<Row>)
    ensures (forall row :: row in NextPeers(rows) ==> PeerRow(row)) <==> forall row :: row in rows ==> PeerFits(row)
  {
    var next := NextPeers(rows);
    forall i | 0 <= i < |rows|
      ensures PeerRow(next[i]) <==> PeerFits(rows[i])
    {
      NextPeerFits(rows[i]);
    }
    hide NextPeers, PeerRow, PeerFits;
    assert forall i :: 0 <= i < |rows| ==> rows[i] in rows && next[i] in next;
  }

  lemma PeersHoldIfFit(rows: seq<Row>)
    ensures PeersHold(NextPeers(rows)) <==> PeersFit(rows)
  {
    NextPeersFit(rows);
    NextPeersUnique(rows, "name", "name");
    NextPeersUnique(rows, "harness", "session_id");
    assert forall i :: 0 <= i < |rows| ==> rows[i] in rows;
    hide NextPeers, NextPeer, PeerRow, Get;
  }

  function Lower(columns: set<string>): map<string, bool> {
    map c | c in columns :: true
  }

  function Peers(rows: seq<Row>): Entry {
    Table(Lower(PEER_COLUMNS + {"url", "delivery"}), [], rows)
  }

  function NoWaits(): Entry {
    Table(Lower(WAIT_COLUMNS), [Ref("message_id", "messages", "id")], [])
  }

  function NoRetired(): Entry {
    Table(Lower(RETIRED_COLUMNS), [Ref("name", "peers", "name")], [])
  }

  function NoMessages(): Entry {
    Table(Lower(MESSAGE_COLUMNS + {"wait_returned_at"}),
          [Ref("sender", "peers", "name"), Ref("recipient", "peers", "name"), Ref("in_reply_to", "messages", "id")], [])
  }

  // ---- Statements ----

  function Put(file: File, name: string, entry: Entry): File {
    file.(objects := file.objects[name := entry])
  }

  function CreateIfMissing(file: File, name: string, entry: Entry): File {
    if name in file.objects then file else Put(file, name, entry)
  }

  function WithNull(rows: seq<Row>, column: string): (after: seq<Row>)
    ensures |after| == |rows| && forall i :: 0 <= i < |rows| ==> after[i] == rows[i][column := Null]
  {
    if rows == [] then [] else WithNull(rows[..|rows| - 1], column) + [rows[|rows| - 1][column := Null]]
  }

  /** ALTER TABLE ... ADD COLUMN, when the table has no such column in any spelling. */
  function AddColumn(file: File, table: string, column: string): File
    requires IsTable(file, table)
  {
    var t := file.objects[table];
    Put(file, table, t.(columns := t.columns[column := true], rows := WithNull(t.rows, column)))
  }

  function Drop(file: File, name: string): File {
    file.(objects := file.objects - {name})
  }

  function Rename(file: File, from: string, to: string): File
    requires from in file.objects
  {
    Put(Drop(file, from), to, file.objects[from])
  }

  // ---- The upgrade as a whole ----

  /** The messages table with the new column. */
  function NextMessages(file: File): Entry
    requires IsTable(file, "messages")
  {
    if HasColumn(file, "messages", "wait_returned_at") then file.objects["messages"]
    else AddColumn(file, "messages", "wait_returned_at").objects["messages"]
  }

  /** What a successful upgrade of version 1 or 2 commits. */
  function Upgraded(file: File): File
    requires LegacyStructure(file)
  {
    File(CURRENT,
         file.objects["peers" := Peers(NextPeers(Rows(file, "peers")))]
           ["messages" := NextMessages(file)]
           ["waits" := if "waits" in file.objects then file.objects["waits"] else NoWaits()]
           ["retired_peers" := if "retired_peers" in file.objects then file.objects["retired_peers"] else NoRetired()])
  }

  predicate Spelled(file: File, table: string, column: string) {
    IsTable(file, table) && (column in file.objects[table].columns ==> file.objects[table].columns[column])
  }

  /** The files of version 1 and 2 whose tables can be changed. */
  predicate Changeable(file: File) {
    && LegacyStructure(file) && ForeignKeys(file)
    && Spelled(file, "peers", "url") && Spelled(file, "messages", "wait_returned_at")
    && "peers_next" !in file.objects && PeersHold(NextPeers(Rows(file, "peers")))
  }

  /** The files that can be upgraded. */
  predicate Acceptable(file: File) {
    Changeable(file) && ForeignKeys(Upgraded(file))
  }

  function NewFile(): File {
    File(CURRENT, map["peers" := Peers([]), "messages" := NoMessages(), "waits" := NoWaits(), "retired_peers" := NoRetired()])
  }

  predicate Old(version: int) {
    version == 1 || version == 2
  }

  // ---- What it keeps ----

  /** Every row of the table has the same values in every column. */
  predicate SameRows(before: seq<Row>, after: seq<Row>) {
    |before| == |after|
    && forall i :: 0 <= i < |before| ==> forall column :: column in before[i].Keys + after[i].Keys ==>
         Get(after[i], column) == Get(before[i], column)
  }

  predicate SamePeer(before: Row, after: Row) {
    && (forall column :: column in PEER_COLUMNS + {"url"} ==> Get(after, column) == Get(before, column))
    && Get(after, "delivery") == Text("native")
  }

  /** Every peer is the same, with native delivery. */
  predicate SamePeers(before: seq<Row>, after: seq<Row>) {
    |before| == |after| && forall i :: 0 <= i < |before| ==> SamePeer(before[i], after[i])
  }

  /** Rows have values in the columns of their table only. */
  predicate Shaped(file: File) {
    forall name :: name in file.objects && file.objects[name].Table? ==>
      forall row :: row in file.objects[name].rows ==> row.Keys <= file.objects[name].columns.Keys
  }

  /** The messages, waits, retirements and peers are the same, and so is every other object; the version
      is the current one. */
  ghost predicate SameMeaning(before: File, after: File) {
    && after.version == CURRENT && Ready(after)
    && SameRows(Rows(before, "messages"), Rows(after, "messages"))
    && Rows(after, "waits") == Rows(before, "waits") && Rows(after, "retired_peers") == Rows(before, "retired_peers")
    && SamePeers(Rows(before, "peers"), Rows(after, "peers"))
    && forall name :: name in before.objects && name !in {"peers", "messages", "waits", "retired_peers"} ==>
         name in after.objects && after.objects[name] == before.objects[name]
  }

  lemma UpgradeKeepsRows(file: File)
    requires Shaped(file) && Changeable(file)
    ensures SameMeaning(file, Upgraded(file))
  {
    var after := Upgraded(file);
    MessagesKept(file);
    PeersKept(Rows(file, "peers"));
    UpgradedEntries(file);
    ReadyAfter(file);
    hide ForeignKeys, PeersHold, LegacyStructure, Upgraded, SameRows, SamePeers, Ready, NextMessages, NextPeers, Spelled;
  }

  lemma PeerKept(row: Row)
    ensures SamePeer(row, NextPeer(row))
  {
    var next := NextPeer(row);
    assert next["name"] == Get(row, "name") && next["harness"] == Get(row, "harness");
    assert next["session_id"] == Get(row, "session_id") && next["workspace"] == Get(row, "workspace");
    assert next["socket"] == Get(row, "socket") && next["url"] == Get(row, "url");
  }

  lemma PeersKept(rows: seq<Row>)
    ensures SamePeers(rows, NextPeers(rows))
  {
    hide SamePeer, NextPeer;
    forall i | 0 <= i < |rows|
      ensures SamePeer(rows[i], NextPeers(rows)[i])
    {
      PeerKept(rows[i]);
    }
  }

  lemma UpgradedEntries(file: File)
    requires LegacyStructure(file)
    ensures var after := Upgraded(file);
            && after.version == CURRENT
            && IsTable(after, "peers") && Rows(after, "peers") == NextPeers(Rows(file, "peers"))
            && IsTable(after, "messages") && Rows(after, "messages") == NextMessages(file).rows
            && Rows(after, "waits") == Rows(file, "waits") && Rows(after, "retired_peers") == Rows(file, "retired_peers")
            && forall name :: name in file.objects && name !in {"peers", "messages", "waits", "retired_peers"} ==>
                 name in after.objects && after.objects[name] == file.objects[name]
  {
  }

  lemma ReadyAfter(file: File)
    requires LegacyStructure(file) && Spelled(file, "messages", "wait_returned_at")
    ensures Ready(Upgraded(file))
  {
  }

  /** The new column of the messages is null, as it was when it was missing. */
  lemma MessagesKept(file: File)
    requires Shaped(file) && Changeable(file)
    ensures SameRows(Rows(file, "messages"), NextMessages(file).rows)
    ensures NextMessages(file).Table? && "wait_returned_at" in NextMessages(file).columns
  {
  }

  lemma EmptyTablesClosed(file: File)
    requires forall name :: Rows(file, name) == []
    ensures ForeignKeys(file) && Shaped(file)
  {
    forall name | IsTable(file, name)
      ensures file.objects[name].rows == []
    {
      assert Rows(file, name) == [];
    }
  }

  /** A mailbox of an old version without peers. */
  function EmptyOld(version: int): File {
    File(version, map["peers" := Table(Lower(PEER_COLUMNS), [], []),
                      "messages" := Table(Lower(MESSAGE_COLUMNS), NoMessages().refs, [])])
  }

  lemma EmptyOldStructure(version: int)
    ensures LegacyStructure(EmptyOld(version))
    ensures Spelled(EmptyOld(version), "peers", "url") && Spelled(EmptyOld(version), "messages", "wait_returned_at")
    ensures forall name :: Rows(EmptyOld(version), name) == []
  {
    hide NoMessages;
  }

  lemma EmptyOldMessages(version: int)
    requires LegacyStructure(EmptyOld(version))
    ensures NextMessages(EmptyOld(version)) == NoMessages()
  {
    assert !HasColumn(EmptyOld(version), "messages", "wait_returned_at");
    assert Lower(MESSAGE_COLUMNS)["wait_returned_at" := true] == Lower(MESSAGE_COLUMNS + {"wait_returned_at"});
  }

  lemma EmptyOldUpgraded(version: int)
    requires LegacyStructure(EmptyOld(version)) && NextMessages(EmptyOld(version)) == NoMessages()
    ensures Upgraded(EmptyOld(version)) == NewFile()
  {
    hide NextMessages, Peers, NoMessages, NoWaits, NoRetired, Lower, LegacyStructure;
    assert Rows(EmptyOld(version), "peers") == [] && NextPeers([]) == [];
    assert Upgraded(EmptyOld(version)).objects == NewFile().objects;
  }

  /** It can be upgraded, and gives the tables of a new mailbox. */
  lemma EmptyOldFile(version: int)
    requires Old(version)
    ensures Shaped(EmptyOld(version)) && Acceptable(EmptyOld(version)) && Upgraded(EmptyOld(version)) == NewFile()
  {
    var file := EmptyOld(version);
    EmptyOldStructure(version);
    EmptyOldMessages(version);
    EmptyOldUpgraded(version);
    assert forall name :: Rows(NewFile(), name) == [];
    assert "peers_next" !in file.objects;
    hide EmptyOld, LegacyStructure, NextMessages, Upgraded, NewFile, Spelled;
    EmptyTablesClosed(file);
    EmptyTablesClosed(NewFile());
  }

  // ---- References ----

  /** References to peers name columns that the new table has. */
  predicate RefsKept(file: File) {
    forall name :: name in file.objects && file.objects[name].Table? ==>
      forall ref :: ref in file.objects[name].refs && ref.table == "peers" ==> ref.key in PEER_COLUMNS + {"url"}
  }

  lemma SameValue(before: seq<Row>, after: seq<Row>, i: nat, column: string)
    requires SameRows(before, after) && i < |before|
    ensures Get(after[i], column) == Get(before[i], column)
  {
  }

  lemma SamePeerValue(before: seq<Row>, after: seq<Row>, i: nat, column: string)
    requires SamePeers(before, after) && i < |before| && column in PEER_COLUMNS + {"url"}
    ensures i < |after| && Get(after[i], column) == Get(before[i], column)
  {
  }

  /** A value of a row that references can name is the same after the upgrade. */
  lemma ValueStays(file: File, table: string, i: nat, key: string)
    requires Shaped(file) && Changeable(file) && i < |Rows(file, table)|
    requires table == "peers" ==> key in PEER_COLUMNS + {"url"}
    ensures i < |Rows(Upgraded(file), table)| && Get(Rows(Upgraded(file), table)[i], key) == Get(Rows(file, table)[i], key)
  {
    UpgradedEntries(file);
    if table == "messages" {
      MessagesKept(file);
      hide Changeable, Shaped, Upgraded, NextMessages, SameRows, Get;
      SameLength(Rows(file, table), Rows(Upgraded(file), table));
      SameValue(Rows(file, table), Rows(Upgraded(file), table), i, key);
    } else if table == "peers" {
      PeersKept(Rows(file, "peers"));
      hide Changeable, Shaped, Upgraded, NextPeers, SamePeers, Get;
      SamePeerValue(Rows(file, table), Rows(Upgraded(file), table), i, key);
    } else {
      OtherRowsStay(file, table);
    }
  }

  lemma OtherRowsStay(file: File, table: string)
    requires LegacyStructure(file) && table != "messages" && table != "peers"
    ensures Rows(Upgraded(file), table) == Rows(file, table)
  {
  }

  lemma HeldStays(file: File, ref: Ref, v: Value)
    requires Shaped(file) && Changeable(file) && Held(file, ref.table, ref.key, v)
    requires ref.table == "peers" ==> ref.key in PEER_COLUMNS + {"url"}
    ensures Held(Upgraded(file), ref.table, ref.key, v)
  {
    var before, after := Rows(file, ref.table), Rows(Upgraded(file), ref.table);
    var i :| 0 <= i < |before| && Get(before[i], ref.key) == v;
    ValueStays(file, ref.table, i, ref.key);
    assert after[i] in after;
  }

  lemma ClosedStays(file: File, before: seq<Row>, after: seq<Row>, ref: Ref)
    requires Shaped(file) && Changeable(file) && Closed(file, before, ref) && SameRows(before, after)
    requires ref.table == "peers" ==> ref.key in PEER_COLUMNS + {"url"}
    ensures Closed(Upgraded(file), after, ref)
  {
    assert LegacyStructure(file);
    hide Changeable, LegacyStructure, Shaped, Upgraded, Held, Get, SameRows;
    forall row | row in after && Get(row, ref.column) != Null
      ensures Held(Upgraded(file), ref.table, ref.key, Get(row, ref.column))
    {
      var i :| 0 <= i < |after| && after[i] == row;
      assert |before| == |after| by { SameLength(before, after); }
      SameValue(before, after, i, ref.column);
      assert before[i] in before;
      HeldStays(file, ref, Get(row, ref.column));
    }
  }

  lemma SameLength(before: seq<Row>, after: seq<Row>)
    requires SameRows(before, after)
    ensures |before| == |after|
  {
  }

  lemma SameSelf(rows: seq<Row>)
    ensures SameRows(rows, rows)
  {
  }

  /** Where each table of the upgraded file comes from. */
  lemma EntryFrom(file: File, name: string)
    requires LegacyStructure(file) && name in Upgraded(file).objects && Upgraded(file).objects[name].Table?
    ensures var entry := Upgraded(file).objects[name];
            || entry.refs == []
            || entry.rows == []
            || (IsTable(file, name) && entry.refs == file.objects[name].refs
                && (entry.rows == Rows(file, name) || (name == "messages" && entry.rows == NextMessages(file).rows)))
  {
  }

  lemma ForeignKeysOf(file: File, name: string, ref: Ref)
    requires ForeignKeys(file) && IsTable(file, name) && ref in file.objects[name].refs
    ensures Closed(file, Rows(file, name), ref)
  {
  }

  /** The last check of the references succeeds for every file that passed the checks before, if its
      references to peers name columns that stay. */
  lemma ReferencesStayClosed(file: File)
    requires Shaped(file) && Changeable(file) && RefsKept(file)
    ensures Acceptable(file)
  {
    var after := Upgraded(file);
    forall name, ref | name in after.objects && after.objects[name].Table? && ref in after.objects[name].refs
      ensures Closed(after, after.objects[name].rows, ref)
    {
      EntryFrom(file, name);
      if after.objects[name].rows != [] {
        ForeignKeysOf(file, name, ref);
        MessagesKept(file);
        SameSelf(Rows(file, name));
        RefKept(file, name, ref);
        hide Changeable, Shaped, Upgraded, ForeignKeys, Closed, RefsKept, LegacyStructure, SameRows, NextMessages;
        ClosedStays(file, Rows(file, name), after.objects[name].rows, ref);
      }
    }
  }

  /** The upgrade of a file that passes the checks keeps its meaning, with every reference closed. */
  lemma UpgradeKeepsMeaning(file: File)
    requires Shaped(file) && Changeable(file) && RefsKept(file)
    ensures SameMeaning(file, Upgraded(file)) && ForeignKeys(Upgraded(file))
  {
    UpgradeKeepsRows(file);
    ReferencesStayClosed(file);
    hide SameMeaning, Upgraded, Shaped, Changeable;
  }

  lemma RefKept(file: File, name: string, ref: Ref)
    requires RefsKept(file) && IsTable(file, name) && ref in file.objects[name].refs
    ensures ref.table == "peers" ==> ref.key in PEER_COLUMNS + {"url"}
  {
  }

  // ---- Statement by statement ----

  lemma NextPeerOfNull(row: Row)
    requires "url" !in row
    ensures NextPeer(row["url" := Null]) == NextPeer(row)
  {
  }

  lemma NextPeersOfNull(rows: seq<Row>, columns: set<string>)
    requires "url" !in columns && forall row :: row in rows ==> row.Keys <= columns
    ensures NextPeers(WithNull(rows, "url")) == NextPeers(rows)
  {
    hide NextPeer;
    var with := WithNull(rows, "url");
    forall i | 0 <= i < |rows|
      ensures NextPeer(with[i]) == NextPeer(rows[i])
    {
      assert rows[i] in rows && "url" !in rows[i];
      NextPeerOfNull(rows[i]);
    }
    hide WithNull;
    assert |NextPeers(with)| == |NextPeers(rows)|;
    assert forall i :: 0 <= i < |rows| ==> NextPeers(with)[i] == NextPeers(rows)[i];
  }

  /** ALTER TABLE peers ADD COLUMN url, where it is missing. */
  method AddUrl(file: File) returns (tx: File, error: Option<Error>)
    requires Shaped(file) && IsTable(file, "peers")
    ensures error.None? <==> Spelled(file, "peers", "url")
    ensures error.None? ==>
              && IsTable(tx, "peers") && tx == Put(file, "peers", tx.objects["peers"])
              && NextPeers(Rows(tx, "peers")) == NextPeers(Rows(file, "peers"))
  {
    tx, error := file, None;
    assert file.objects == file.objects["peers" := file.objects["peers"]];
    if !HasColumn(tx, "peers", "url") {
      if "url" in tx.objects["peers"].columns {
        return tx, Some(Sqlite);
      }
      assert forall row :: row in Rows(file, "peers") ==> row.Keys <= file.objects["peers"].columns.Keys;
      NextPeersOfNull(Rows(file, "peers"), file.objects["peers"].columns.Keys);
      hide Shaped, NextPeers, WithNull;
      tx := AddColumn(tx, "peers", "url");
    }
  }

  /** The new table beside the old one, its rows, and its name. */
  method ReplacePeers(file: File) returns (tx: File, error: Option<Error>)
    requires IsTable(file, "peers")
    ensures error.None? <==> "peers_next" !in file.objects && PeersHold(NextPeers(Rows(file, "peers")))
    ensures error.None? ==> tx == Put(file, "peers", Peers(NextPeers(Rows(file, "peers"))))
  {
    hide PeersHold, NextPeers, Peers;
    tx := file;
    if "peers_next" in tx.objects {
      return tx, Some(Sqlite);
    }
    tx := Put(tx, "peers_next", Peers([]));
    // INSERT INTO peers_next SELECT ... FROM peers
    var next := NextPeers(Rows(tx, "peers"));
    if !PeersHold(next) {
      return tx, Some(Sqlite);
    }
    tx := Put(tx, "peers_next", Peers(next));
    tx := Drop(tx, "peers");
    tx := Rename(tx, "peers_next", "peers");
    assert tx.objects == file.objects["peers" := Peers(next)];
    error := None;
  }

  lemma PutTwice(file: File, name: string, a: Entry, b: Entry)
    ensures Put(Put(file, name, a), name, b) == Put(file, name, b)
  {
    assert file.objects[name := a][name := b] == file.objects[name := b];
  }

  lemma PutKeeps(file: File, name: string, entry: Entry, other: string)
    requires other != name
    ensures (other in Put(file, name, entry).objects <==> other in file.objects) && Rows(Put(file, name, entry), other) == Rows(file, other)
    ensures HasColumn(Put(file, name, entry), other, "wait_returned_at") == HasColumn(file, other, "wait_returned_at")
    ensures IsTable(file, other) ==> IsTable(Put(file, name, entry), other) && Put(file, name, entry).objects[other] == file.objects[other]
  {
  }

  /** The statements that rebuild the peers. */
  method RebuildPeers(file: File) returns (tx: File, error: Option<Error>)
    requires Shaped(file) && IsTable(file, "peers")
    ensures error.None? <==>
              Spelled(file, "peers", "url") && "peers_next" !in file.objects && PeersHold(NextPeers(Rows(file, "peers")))
    ensures error.None? ==> tx == Put(file, "peers", Peers(NextPeers(Rows(file, "peers"))))
  {
    hide Shaped, PeersHold, NextPeers, Peers, Spelled, Put;
    tx, error := AddUrl(file);
    if error.None? {
      var entry := tx.objects["peers"];
      PutKeeps(file, "peers", entry, "peers_next");
      tx, error := ReplacePeers(tx);
      PutTwice(file, "peers", entry, Peers(NextPeers(Rows(file, "peers"))));
    }
  }

  /** The statements of the upgrade, in their order, up to the last check. */
  method ChangeTables(file: File) returns (tx: File, error: Option<Error>)
    requires Shaped(file) && LegacyStructure(file) && ForeignKeys(file)
    ensures error.None? <==> Acceptable(file)
    ensures error.None? ==> tx.(version := CURRENT) == Upgraded(file)
    ensures error.Some? ==> error.value.Sqlite? || error.value.ForeignKeyViolation?
  {
    hide Shaped, ForeignKeys, PeersHold, NextPeers, Peers, LegacyStructure;
    assert IsTable(file, "peers") && IsTable(file, "messages") by { LegacyHas(file); }
    tx, error := RebuildPeers(file);
    if error.Some? {
      return tx, Some(Sqlite);
    }
    PutKeeps(file, "peers", Peers(NextPeers(Rows(file, "peers"))), "messages");
    if !HasColumn(tx, "messages", "wait_returned_at") {
      if "wait_returned_at" in tx.objects["messages"].columns {
        return tx, Some(Sqlite);
      }
      tx := AddColumn(tx, "messages", "wait_returned_at");
    }
    tx := CreateIfMissing(tx, "waits", NoWaits());
    tx := CreateIfMissing(tx, "retired_peers", NoRetired());
    assert tx.(version := CURRENT) == Upgraded(file);
    VersionIsNoReference(tx, CURRENT);
    if !ForeignKeys(tx) {
      return tx, Some(ForeignKeyViolation);
    }
    error := None;
  }

  lemma VersionIsNoReference(file: File, version: int)
    ensures ForeignKeys(file.(version := version)) <==> ForeignKeys(file)
  {
    var other := file.(version := version);
    assert forall name :: Rows(other, name) == Rows(file, name);
    assert forall table, key, v :: Held(other, table, key, v) == Held(file, table, key, v);
    hide Held, Rows;
    assert forall rows, ref :: Closed(other, rows, ref) == Closed(file, rows, ref);
    hide Closed;
  }

  lemma LegacyHas(file: File)
    requires LegacyStructure(file)
    ensures IsTable(file, "peers") && IsTable(file, "messages")
  {
  }
}
