/** Many processes that open one mailbox file at once (src/schema.rs): one of them upgrades it. */
module SchemaOpeners {
  import opened Common
  import opened SchemaUpgrade

  type Pid = nat

  /** `Holding` is inside BEGIN IMMEDIATE; `saved` says that it has made its backup. */
  datatype Opener = Idle | Wants | Holding(saved: bool) | Opened | Failed(error: Error)

  datatype Backup = Backup(pid: Pid, file: File)
  datatype Commit = Commit(pid: Pid, before: File, after: File)

  /** `disk` is the committed file. */
  datatype System = System(disk: File, openers: map<Pid, Opener>, lock: Option<Pid>, backups: seq<Backup>, commits: seq<Commit>)

  function At(s: System, p: Pid): Opener {
    if p in s.openers then s.openers[p] else Idle
  }

  datatype Action =
    | See
    | Begin
    | SeesNew
    | Save
    | Finish
    | Fails(error: Error)
    | Write(file: File)

  /** What the upgrade makes of a file: tables and version 3 for a new one. */
  predicate CanChange(file: File) {
    (file.version == 0 && file.objects == map[]) || (Old(file.version) && Acceptable(file))
  }

  function Changed(file: File): File
    requires CanChange(file)
  {
    if file.version == 0 then NewFile() else Upgraded(file)
  }

  predicate Enabled(s: System, p: Pid, a: Action) {
    match a
    case See => At(s, p).Idle?
    case Begin => At(s, p).Wants? && s.lock.None?
    case SeesNew => At(s, p).Holding? && s.disk.version == CURRENT
    case Save => At(s, p).Holding? && Old(s.disk.version) && LegacyStructure(s.disk) && ForeignKeys(s.disk)
    case Finish => At(s, p).Holding? && CanChange(s.disk) && (Old(s.disk.version) ==> At(s, p).saved)
    // An error, an interrupt or a crash: what was not committed is rolled back.
    case Fails(_) => !At(s, p).Opened?
    // Other commands write under the same lock, and leave the version alone.
    case Write(file) => s.lock.None? && file.version == s.disk.version && Shaped(file)
  }

  function Seen(file: File): Opener {
    if file.version == CURRENT then if Ready(file) then Opened else Failed(InvalidSchema)
    else if 0 <= file.version <= 2 then Wants
    else Failed(UnsupportedVersion)
  }

  function Goes(s: System, p: Pid, opener: Opener): System {
    s.(openers := s.openers[p := opener])
  }

  function Do(s: System, p: Pid, a: Action): System
    requires Enabled(s, p, a)
  {
    match a
    case See => Goes(s, p, Seen(s.disk))
    case Begin => Goes(s, p, Holding(false)).(lock := Some(p))
    case SeesNew => Goes(s, p, Opened).(lock := None)
    case Save => Goes(s, p, Holding(true)).(backups := s.backups + [Backup(p, s.disk)])
    case Finish =>
      Goes(s, p, Opened).(disk := Changed(s.disk), lock := None, commits := s.commits + [Commit(p, s.disk, Changed(s.disk))])
    case Fails(error) => Goes(s, p, Failed(error)).(lock := if s.lock == Some(p) then None else s.lock)
    case Write(file) => s.(disk := file)
  }

  ghost predicate Step(s: System, t: System) {
    exists p, a :: Enabled(s, p, a) && t == Do(s, p, a)
  }

  ghost predicate Run(run: seq<System>) {
    run != [] && Shaped(run[0].disk) && run[0] == System(run[0].disk, map[], None, [], [])
    && forall i, j :: 0 <= i && j == i + 1 < |run| ==> Step(run[i], run[j])
  }

  // ---- The invariant ----

  ghost predicate Locked(s: System) {
    && (forall p: Pid :: At(s, p).Holding? <==> s.lock == Some(p))
    && (forall p: Pid :: At(s, p) == Holding(true) ==> Backup(p, s.disk) in s.backups)
  }

  /** At most one commit, which took a file that could be changed to its upgraded form. */
  ghost predicate CommitOk(s: System) {
    && |s.commits| <= 1
    && forall c :: c in s.commits ==>
         && s.disk.version == CURRENT && CanChange(c.before) && c.after == Changed(c.before) && Shaped(c.before)
         && (Old(c.before.version) ==> Backup(c.pid, c.before) in s.backups)
  }

  ghost predicate Inv(s: System) {
    && Shaped(s.disk) && Locked(s) && CommitOk(s)
    && forall p: Pid :: At(s, p).Opened? ==> s.disk.version == CURRENT
  }

  lemma ShapedAfter(file: File)
    requires CanChange(file) && Shaped(file)
    ensures Shaped(Changed(file)) && Changed(file).version == CURRENT
  {
    if file.version != 0 {
      forall name | IsTable(Changed(file), name)
        ensures forall row :: row in Rows(Changed(file), name) ==> row.Keys <= Changed(file).objects[name].columns.Keys
      {
        TableShaped(file, name);
      }
    }
  }

  lemma TableShaped(file: File, name: string)
    requires Changeable(file) && Shaped(file) && IsTable(Upgraded(file), name)
    ensures forall row :: row in Rows(Upgraded(file), name) ==> row.Keys <= Upgraded(file).objects[name].columns.Keys
  {
    hide ForeignKeys, PeersHold, Spelled;
  }

  lemma FinishUnlocks(s: System, p: Pid)
    requires Locked(s) && Enabled(s, p, Finish)
    ensures Locked(Do(s, p, Finish))
    ensures Old(s.disk.version) ==> Backup(p, s.disk) in s.backups
  {
    hide CanChange, Changed;
    assert forall q :: q != p ==> At(Do(s, p, Finish), q) == At(s, q);
    assert At(s, p) == Holding(true) || !Old(s.disk.version);
  }

  lemma FinishKeepsInv(s: System, p: Pid)
    requires Inv(s) && Enabled(s, p, Finish)
    ensures Inv(Do(s, p, Finish))
  {
    var t := Do(s, p, Finish);
    assert CanChange(s.disk);
    ShapedAfter(s.disk);
    FinishUnlocks(s, p);
    NotCurrent(s.disk);
    if s.commits != [] {
      CommittedIsCurrent(s);
      assert false;
    }
    assert t == Goes(s, p, Opened).(disk := Changed(s.disk), lock := None, commits := s.commits + [Commit(p, s.disk, Changed(s.disk))]);
    hide Shaped, CanChange, Changed, Locked, Enabled, Do, Old;
  }

  lemma NotCurrent(file: File)
    requires CanChange(file)
    ensures file.version != CURRENT
  {
  }

  lemma CommittedIsCurrent(s: System)
    requires CommitOk(s) && s.commits != []
    ensures s.disk.version == CURRENT
  {
    assert s.commits[0] in s.commits;
  }

  lemma OthersStay(s: System, p: Pid, a: Action)
    requires Enabled(s, p, a)
    ensures forall q :: q != p ==> At(Do(s, p, a), q) == At(s, q)
  {
  }

  lemma DoKeepsLocked(s: System, p: Pid, a: Action)
    requires Locked(s) && Enabled(s, p, a) && !a.Finish?
    ensures Locked(Do(s, p, a))
  {
    hide Shaped, CanChange, Changed, Ready, ForeignKeys, LegacyStructure, Old;
    OthersStay(s, p, a);
    assert forall b :: b in s.backups ==> b in Do(s, p, a).backups;
    if a.Save? {
      assert Do(s, p, a).backups[|s.backups|] == Backup(p, s.disk);
    }
  }

  lemma DoKeepsCommits(s: System, p: Pid, a: Action)
    requires CommitOk(s) && Enabled(s, p, a) && !a.Finish?
    ensures CommitOk(Do(s, p, a))
  {
    assert forall b :: b in s.backups ==> b in Do(s, p, a).backups;
    assert Do(s, p, a).commits == s.commits && Do(s, p, a).disk.version == s.disk.version;
    hide Shaped, CanChange, Changed, Ready, ForeignKeys, LegacyStructure, Old, Enabled, Do;
  }

  lemma DoKeepsInv(s: System, p: Pid, a: Action)
    requires Inv(s) && Enabled(s, p, a)
    ensures Inv(Do(s, p, a))
  {
    if a.Finish? {
      FinishKeepsInv(s, p);
    } else {
      DoKeepsLocked(s, p, a);
      DoKeepsCommits(s, p, a);
      OthersStay(s, p, a);
      hide Shaped, CanChange, Changed, Ready, ForeignKeys, LegacyStructure, Locked, CommitOk, Old;
    }
  }

  lemma {:induction false} RunKeepsInv(run: seq<System>, i: nat)
    requires Run(run) && i < |run|
    ensures Inv(run[i])
  {
    hide Shaped, Enabled, Do;
    if i == 0 {
    } else {
      RunKeepsInv(run, i - 1);
      assert Step(run[i - 1], run[i]);
      var p, a :| Enabled(run[i - 1], p, a) && run[i] == Do(run[i - 1], p, a);
      DoKeepsInv(run[i - 1], p, a);
    }
  }

  /** With any number of openers at most one upgrade is committed. It keeps the meaning of the file, the
      opener's backup is the file as it was, and whoever has opened the mailbox finds version 3. */
  lemma OneUpgrade(run: seq<System>, i: nat)
    requires Run(run) && i < |run|
    ensures |run[i].commits| <= 1
    ensures forall c :: c in run[i].commits ==>
              && CanChange(c.before) && c.after == Changed(c.before) && run[i].disk.version == CURRENT
              && (Old(c.before.version) ==>
                    && Backup(c.pid, c.before) in run[i].backups
                    && SameMeaning(c.before, c.after) && ForeignKeys(c.after))
    ensures forall p: Pid :: At(run[i], p).Opened? ==> run[i].disk.version == CURRENT
  {
    RunKeepsInv(run, i);
    forall c | c in run[i].commits && Old(c.before.version)
      ensures SameMeaning(c.before, c.after) && ForeignKeys(c.after)
    {
      UpgradeKeepsRows(c.before);
    }
  }

  /** Every step of an opener other than its commit leaves the file as it is; so a failure does, at any
      point. */
  lemma OnlyCommitChanges(s: System, p: Pid, a: Action)
    requires Enabled(s, p, a) && !a.Write?
    ensures (Do(s, p, a).disk, Do(s, p, a).commits) == (s.disk, s.commits) || (a.Finish? && Do(s, p, a).disk == Changed(s.disk))
    ensures a.Fails? ==> Do(s, p, a).disk == s.disk && Do(s, p, a).lock != Some(p)
  {
  }

  // ---- One opener ----

  lemma RunMore(run: seq<System>, p: Pid, a: Action)
    requires Run(run) && Enabled(run[|run| - 1], p, a)
    ensures Run(run + [Do(run[|run| - 1], p, a)])
  {
    var longer := run + [Do(run[|run| - 1], p, a)];
    assert Step(run[|run| - 1], longer[|run|]);
  }

  lemma HolderKeepsDisk(s: System, p: Pid, a: Action, me: Pid)
    requires Inv(s) && Enabled(s, p, a) && p != me && At(s, me).Holding?
    ensures Do(s, p, a).disk == s.disk && At(Do(s, p, a), me) == At(s, me)
  {
    assert s.lock == Some(me);
  }

  lemma NewTables(file: File)
    requires file == File(0, map[])
    ensures var tables := Put(Put(file, "peers", Peers([])), "messages", NoMessages());
            CreateIfMissing(CreateIfMissing(tables, "waits", NoWaits()), "retired_peers", NoRetired()).(version := CURRENT) == NewFile()
    ensures var tables := Put(Put(file, "peers", Peers([])), "messages", NoMessages());
            ForeignKeys(CreateIfMissing(CreateIfMissing(tables, "waits", NoWaits()), "retired_peers", NoRetired()))
  {
    hide Peers, NoMessages, NoWaits, NoRetired;
    var tables := Put(Put(file, "peers", Peers([])), "messages", NoMessages());
    var all := CreateIfMissing(CreateIfMissing(tables, "waits", NoWaits()), "retired_peers", NoRetired());
    assert all.objects == NewFile().objects;
    NewFileClosed(all);
  }

  lemma NewFileClosed(file: File)
    requires file.objects == NewFile().objects
    ensures ForeignKeys(file)
  {
    forall name | IsTable(file, name)
      ensures Rows(file, name) == []
    {
    }
  }

  /** `ensure` of one process among others. */
  class Connection {
    const me: Pid
    var sys: System
    ghost var run: seq<System>

    ghost predicate Valid()
      reads this
    {
      run != [] && Run(run) && run[|run| - 1] == sys && Inv(sys)
    }

    constructor (me: Pid, file: File)
      requires Shaped(file)
      ensures Valid() && this.me == me && sys == System(file, map[], None, [], [])
    {
      this.me, sys, run := me, System(file, map[], None, [], []), [System(file, map[], None, [], [])];
      new;
      RunKeepsInv(run, 0);
    }

    method Advance(p: Pid, a: Action)
      requires Valid() && Enabled(sys, p, a)
      modifies this
      ensures Valid() && sys == Do(old(sys), p, a) && run == old(run) + [sys]
    {
      RunMore(run, p, a);
      DoKeepsInv(sys, p, a);
      hide Run, Inv, Enabled, Do;
      sys := Do(sys, p, a);
      run := run + [sys];
    }

    /** Other openers and other commands go on. Nobody else commits while this process holds the lock. */
    method Others()
      requires Valid()
      modifies this
      ensures Valid() && old(run) <= run && At(sys, me) == At(old(sys), me)
      ensures At(sys, me).Holding? ==> sys.disk == old(sys).disk
      ensures sys.disk.version in {old(sys).disk.version, CURRENT}
    {
      hide Run, Inv;
      var steps: nat :| true;
      for n := 0 to steps
        invariant Valid() && old(run) <= run && At(sys, me) == At(old(sys), me)
        invariant At(sys, me).Holding? ==> sys.disk == old(sys).disk
        invariant sys.disk.version in {old(sys).disk.version, CURRENT}
      {
        hide Enabled, Do;
        var p: Pid, a: Action :| true;
        if p != me && Enabled(sys, p, a) {
          OthersStay(sys, p, a);
          StepKeepsVersion(sys, p, a);
          if At(sys, me).Holding? {
            HolderKeepsDisk(sys, p, a, me);
          }
          Advance(p, a);
        }
      }
    }

    method Fail(error: Error) returns (r: Option<Error>)
      requires Valid() && !At(sys, me).Opened?
      modifies this
      ensures Valid() && old(run) <= run && At(sys, me).Failed? && r == Some(error)
      ensures sys.disk == old(sys).disk && sys.commits == old(sys).commits
    {
      hide Run, Inv;
      Advance(me, Fails(error));
      r := Some(error);
    }

    /** `ensure`: without an error the mailbox has version 3. `at` is where in the run it looked at the file,
        if it could: a file of version 3 is opened as it is, or refused if a table or column is missing; an
        unknown version is refused; any other is changed. */
    method Ensure() returns (error: Option<Error>, ghost at: nat)
      requires Valid() && At(sys, me).Idle?
      modifies this
      ensures Valid() && old(run) <= run && |old(run)| <= at + 1 && at < |run|
      ensures error.None? ==> At(sys, me).Opened? && sys.disk.version == CURRENT
      ensures error.Some? ==> At(sys, me).Failed?
      ensures run[at].disk.version == CURRENT && !Complete(run[at].disk) ==> error in {Some(InvalidSchema), Some(Sqlite)}
      ensures run[at].disk.version == CURRENT && Complete(run[at].disk) ==> error in {None, Some(Sqlite)}
      ensures run[at].disk.version < 0 || 3 < run[at].disk.version ==> error in {Some(UnsupportedVersion), Some(Sqlite)}
      ensures run[at].disk.version in {0, 1, 2} ==> error != Some(UnsupportedVersion) && (error.None? ==> |sys.commits| > 0)
    {
      hide Run, Inv, Shaped, CanChange, Changed, Ready, Complete;
      Others();
      at := |run| - 1;
      if * {
        error := Fail(Sqlite);
        return;
      }
      ReadyIsComplete(sys.disk);
      Advance(me, See);
      if At(sys, me).Wants? {
        error := Change();
      } else {
        error := if At(sys, me).Failed? then Some(At(sys, me).error) else None;
      }
      if error.None? {
        OpenedIsCurrent(sys, me);
        UpgradeCommitted(run, at);
      }
    }

    /** `change`: one transaction that begins as a writer. */
    method Change() returns (error: Option<Error>)
      requires Valid() && At(sys, me).Wants? && 0 <= sys.disk.version <= 2
      modifies this
      ensures Valid() && old(run) <= run
      ensures error.None? ==> At(sys, me).Opened?
      ensures error.Some? ==> At(sys, me).Failed? && !error.value.UnsupportedVersion?
    {
      hide Run, Inv, Shaped, CanChange, Changed;
      Others();
      if sys.lock.Some? {
        error := Fail(Sqlite);
        return;
      }
      Advance(me, Begin);
      Others();
      if sys.disk.version == CURRENT {
        Advance(me, SeesNew);
        error := None;
      } else if sys.disk.version == 0 {
        error := Initialize();
      } else if Old(sys.disk.version) {
        error := Upgrade();
      } else {
        error := Fail(UnsupportedVersion);
      }
    }

    method Initialize() returns (error: Option<Error>)
      requires Valid() && At(sys, me).Holding? && sys.disk.version == 0
      modifies this
      ensures Valid() && old(run) <= run
      ensures error.None? ==> At(sys, me).Opened?
      ensures error.Some? ==> At(sys, me).Failed? && !error.value.UnsupportedVersion?
    {
      hide Run, Inv, Shaped, NewFile, Peers, NoMessages, NoWaits, NoRetired, ForeignKeys, Acceptable;
      if sys.disk.objects != map[] {
        error := Fail(UnsupportedUnversioned);
        return;
      }
      NewTables(sys.disk);
      var tx := Put(Put(sys.disk, "peers", Peers([])), "messages", NoMessages());
      tx := CreateIfMissing(CreateIfMissing(tx, "waits", NoWaits()), "retired_peers", NoRetired());
      Others();
      error := Commit(tx);
    }

    method Upgrade() returns (error: Option<Error>)
      requires Valid() && At(sys, me).Holding? && Old(sys.disk.version)
      modifies this
      ensures Valid() && old(run) <= run
      ensures error.None? ==> At(sys, me).Opened?
      ensures error.Some? ==> At(sys, me).Failed? && !error.value.UnsupportedVersion?
      ensures !LegacyStructure(old(sys).disk) ==> error == Some(InvalidSchema)
      ensures LegacyStructure(old(sys).disk) && !ForeignKeys(old(sys).disk) ==> error == Some(ForeignKeyViolation)
      ensures error.None? ==> Acceptable(old(sys).disk)
    {
      hide Run, Inv, Shaped, LegacyStructure, ForeignKeys, Upgraded, Acceptable;
      if !LegacyStructure(sys.disk) {
        error := Fail(InvalidSchema);
        return;
      }
      if !ForeignKeys(sys.disk) {
        error := Fail(ForeignKeyViolation);
        return;
      }
      // PRAGMA integrity_check
      if * {
        error := Fail(IntegrityFailed);
        return;
      }
      error := BackUp();
      if error.Some? {
        return;
      }
      assert Shaped(sys.disk) by { InvShaped(sys); }
      var tx;
      tx, error := ChangeTables(sys.disk);
      Others();
      if error.Some? {
        error := Fail(error.value);
        return;
      }
      error := Commit(tx);
    }

    /** `backup`: the committed file is copied page by page beside the writer's transaction. */
    method BackUp() returns (error: Option<Error>)
      requires Valid() && At(sys, me).Holding? && Old(sys.disk.version) && LegacyStructure(sys.disk) && ForeignKeys(sys.disk)
      modifies this
      ensures Valid() && old(run) <= run && sys.disk == old(sys).disk
      ensures error.None? ==> At(sys, me) == Holding(true)
      ensures error.Some? ==> At(sys, me).Failed? && (error.value.Interrupted? || error.value.BackupFailed?)
    {
      hide Run, Inv, Shaped, LegacyStructure, ForeignKeys;
      var pages: nat :| true;
      for n := 0 to pages
        invariant Valid() && old(run) <= run && sys.disk == old(sys).disk && At(sys, me) == At(old(sys), me)
      {
        if * {
          error := Fail(Interrupted);
          return;
        }
        Others();
      }
      if * {
        error := Fail(BackupFailed);
        return;
      }
      Advance(me, Save);
      error := None;
    }

    /** The last check, the version and the commit. */
    method Commit(tx: File) returns (error: Option<Error>)
      requires Valid() && At(sys, me).Holding? && CanChange(sys.disk) && (Old(sys.disk.version) ==> At(sys, me).saved)
      requires tx.(version := CURRENT) == Changed(sys.disk)
      modifies this
      ensures Valid() && old(run) <= run
      ensures error.None? ==> At(sys, me).Opened? && sys.disk == tx.(version := CURRENT)
                              && |sys.commits| > 0 && sys.commits[|sys.commits| - 1].pid == me
      ensures error.Some? ==> At(sys, me).Failed? && sys.disk == old(sys).disk && !error.value.UnsupportedVersion?
    {
      hide Run, Inv, Shaped, CanChange, Changed;
      if * {
        error := Fail(Interrupted);
        return;
      }
      if * {
        error := Fail(Sqlite);
        return;
      }
      Advance(me, Finish);
      error := None;
    }
  }

  lemma OpenedIsCurrent(s: System, p: Pid)
    requires Inv(s) && At(s, p).Opened?
    ensures s.disk.version == CURRENT
  {
  }

  lemma StepKeepsVersion(s: System, p: Pid, a: Action)
    requires Enabled(s, p, a)
    ensures s.commits <= Do(s, p, a).commits
    ensures Do(s, p, a).disk.version == s.disk.version || |Do(s, p, a).commits| > |s.commits|
    ensures Do(s, p, a).disk.version in {s.disk.version, CURRENT}
  {
  }

  /** A file whose version changed since had a commit. */
  lemma {:induction false} VersionByCommit(run: seq<System>, i: nat, j: nat)
    requires Run(run) && i <= j < |run|
    ensures run[i].commits <= run[j].commits
    ensures run[j].disk.version == run[i].disk.version || |run[j].commits| > |run[i].commits|
    decreases j - i
  {
    hide Enabled, Do;
    if i == j {
    } else {
      VersionByCommit(run, i, j - 1);
      assert Step(run[j - 1], run[j]);
      var p, a :| Enabled(run[j - 1], p, a) && run[j] == Do(run[j - 1], p, a);
      StepKeepsVersion(run[j - 1], p, a);
    }
  }

  lemma UpgradeCommitted(run: seq<System>, at: nat)
    requires Run(run) && at < |run| && run[|run| - 1].disk.version == CURRENT
    ensures run[at].disk.version != CURRENT ==> |run[|run| - 1].commits| > 0
  {
    VersionByCommit(run, at, |run| - 1);
  }

  /** The tables and columns that version 3 added are there, the columns as the schema spells them. */
  predicate Complete(file: File) {
    && IsTable(file, "waits") && IsTable(file, "retired_peers")
    && IsTable(file, "peers") && ("delivery", true) in file.objects["peers"].columns.Items
    && IsTable(file, "messages") && ("wait_returned_at", true) in file.objects["messages"].columns.Items
  }

  lemma ReadyIsComplete(file: File)
    ensures Ready(file) <==> Complete(file)
  {
  }

  lemma InvShaped(s: System)
    requires Inv(s)
    ensures Shaped(s.disk)
  {
  }
}
