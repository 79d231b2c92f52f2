/** Notification hooks and background waiters of one Copilot session (integrations/copilot.py): two
    file locks over one state file. */
module NoticeWaiter {
  import opened Common

  type Id = string
  type Pid = nat

  datatype Binding = Binding(session: string, peer: string, database: string)

  /** A pending notice. The file keeps its text only; the id tells notices apart here. */
  datatype Notice = Notice(id: Id, text: string)

  datatype Saved = Saved(binding: Binding, offered: seq<Id>, pending: Option<Notice>, closed: bool)

  /** `Waiting`, `Watching` and `Reaping` are waiters and hold the wait lock. `InNotice`, `HasBoth` and
      `Cleared` are notice hooks inside the state lock, `HasBoth` also has the wait lock. */
  datatype Proc =
    | Gone
    | Waiting | Watching | Reaping
    | InNotice(notice: Notice) | HasBoth(notice: Notice) | Cleared(notice: Notice) | Printing(notice: Notice)

  /** `posted` are the notices that were ever made pending, `taken` those that a hook removed from the
      file, `handed` those it printed. */
  datatype System = System(saved: Option<Saved>, procs: map<Pid, Proc>, waitLock: Option<Pid>, stateLock: Option<Pid>,
                           posted: seq<Notice>, taken: seq<Notice>, handed: seq<Notice>)

  function At(s: System, p: Pid): Proc {
    if p in s.procs then s.procs[p] else Gone
  }

  /** What Python takes for a pending notice. */
  predicate Truthy(pending: Option<Notice>) {
    pending.Some? && pending.value.text != ""
  }

  datatype Action =
    | HookStart(binding: Binding)
    | HookEnd(binding: Binding)
    | NoticeEnter(binding: Binding)
    | NoticeTry
    | NoticeClear
    | NoticeSave
    | NoticePrint
    | WaitTake
    | WaitCheck
    | WaitPoll
    | WaitEvent(id: Id, text: string)
    | WaitExit
    | Crash

  predicate Enabled(s: System, p: Pid, a: Action) {
    var proc := At(s, p);
    match a
    case HookStart(_) => proc.Gone? && s.stateLock.None?
    case HookEnd(_) => proc.Gone? && s.stateLock.None?
    case NoticeEnter(_) => proc.Gone? && s.stateLock.None?
    case NoticeTry => proc.InNotice?
    case NoticeClear => proc.HasBoth?
    case NoticeSave => proc.Cleared? && s.saved.Some?
    case NoticePrint => proc.Printing?
    case WaitTake => proc.Gone? && s.waitLock.None?
    case WaitCheck => proc.Waiting? && s.stateLock.None?
    case WaitPoll => proc.Watching? && s.stateLock.None? && s.saved.Some?
    case WaitEvent(_, _) => proc.Watching? && s.stateLock.None? && s.saved.Some?
    case WaitExit => proc.Reaping?
    case Crash => true
  }

  function Goes(s: System, p: Pid, proc: Proc): System {
    s.(procs := s.procs[p := proc])
  }

  function Unlocked(lock: Option<Pid>, p: Pid): Option<Pid> {
    if lock == Some(p) then None else lock
  }

  function Do(s: System, p: Pid, a: Action): System
    requires Enabled(s, p, a)
  {
    match a
    case HookStart(binding) => if s.saved.None? then s.(saved := Some(Saved(binding, [], None, false))) else s
    case HookEnd(binding) =>
      if s.saved.Some? && s.saved.value.binding == binding then s.(saved := Some(s.saved.value.(closed := true))) else s
    case NoticeEnter(binding) =>
      if s.saved.Some? && s.saved.value.binding == binding && !s.saved.value.closed && Truthy(s.saved.value.pending)
      then Goes(s, p, InNotice(s.saved.value.pending.value)).(stateLock := Some(p)) else s
    case NoticeTry =>
      if s.waitLock.None? then Goes(s, p, HasBoth(At(s, p).notice)).(waitLock := Some(p))
      else Goes(s, p, Gone).(stateLock := None)
    case NoticeClear => Goes(s, p, Cleared(At(s, p).notice)).(waitLock := None)
    case NoticeSave =>
      Goes(s, p, Printing(At(s, p).notice))
        .(saved := Some(s.saved.value.(pending := None)), stateLock := None, taken := s.taken + [At(s, p).notice])
    case NoticePrint => Goes(s, p, Gone).(handed := s.handed + [At(s, p).notice])
    case WaitTake => Goes(s, p, Waiting).(waitLock := Some(p))
    case WaitCheck =>
      if s.saved.None? || s.saved.value.closed || Truthy(s.saved.value.pending)
      then Goes(s, p, Gone).(waitLock := None) else Goes(s, p, Watching)
    case WaitPoll => if s.saved.value.closed then Goes(s, p, Reaping) else s
    case WaitEvent(id, text) =>
      if s.saved.value.closed then Goes(s, p, Reaping)
      else if id in s.saved.value.offered then s
      else
        Goes(s, p, Reaping).(
          saved := Some(s.saved.value.(offered := s.saved.value.offered + [id], pending := Some(Notice(id, text)))),
          posted := s.posted + [Notice(id, text)])
    case WaitExit => Goes(s, p, Gone).(waitLock := None)
    case Crash => Goes(s, p, Gone).(waitLock := Unlocked(s.waitLock, p), stateLock := Unlocked(s.stateLock, p))
  }

  ghost predicate Step(s: System, t: System) {
    exists p, a :: Enabled(s, p, a) && t == Do(s, p, a)
  }

  const FRESH: System := System(None, map[], None, None, [], [], [])

  ghost predicate Run(run: seq<System>) {
    run != [] && run[0] == FRESH && forall i, j :: 0 <= i && j == i + 1 < |run| ==> Step(run[i], run[j])
  }

  // ---- The invariant ----

  predicate HoldsWait(proc: Proc) {
    proc.Waiting? || proc.Watching? || proc.Reaping? || proc.HasBoth?
  }

  predicate HoldsState(proc: Proc) {
    proc.InNotice? || proc.HasBoth? || proc.Cleared?
  }

  ghost predicate Locks(s: System) {
    && (forall p: Pid :: HoldsWait(At(s, p)) <==> s.waitLock == Some(p))
    && (forall p: Pid :: HoldsState(At(s, p)) <==> s.stateLock == Some(p))
  }

  function Pending(s: System): Option<Notice> {
    if s.saved.Some? then s.saved.value.pending else None
  }

  /** What a hook inside the state lock read is still there. */
  ghost predicate HooksSee(s: System) {
    forall p :: HoldsState(At(s, p)) ==> Pending(s) == Some(At(s, p).notice) && Truthy(Pending(s))
  }

  ghost predicate WaitersSee(s: System) {
    forall p :: At(s, p).Watching? ==> s.saved.Some? && !Truthy(Pending(s))
  }

  ghost predicate PrintersOk(s: System) {
    && (forall p :: At(s, p).Printing? ==> At(s, p).notice in s.taken && At(s, p).notice !in s.handed)
    && (forall p, q :: p != q && At(s, p).Printing? && At(s, q).Printing? ==> At(s, p).notice != At(s, q).notice)
  }

  /** After a hook gave the wait lock back, a new waiter gets no further than its first look. */
  ghost predicate ClearedAlone(s: System) {
    forall p, q :: At(s, p).Cleared? ==> !At(s, q).Watching? && !At(s, q).Reaping?
  }

  function Ids(notices: seq<Notice>): (ids: seq<Id>)
    ensures |ids| == |notices| && forall i :: 0 <= i < |ids| ==> ids[i] == notices[i].id
  {
    if notices == [] then [] else Ids(notices[..|notices| - 1]) + [notices[|notices| - 1].id]
  }

  ghost predicate Distinct<T(!new)>(s: seq<T>) {
    forall i, j :: 0 <= i < j < |s| ==> s[i] != s[j]
  }

  predicate AllTexts(notices: seq<Notice>) {
    forall n :: n in notices ==> n.text != ""
  }

  function PendingOnly(s: System): seq<Notice> {
    if Pending(s).Some? then [Pending(s).value] else []
  }

  ghost predicate Books(s: System) {
    && Ids(s.posted) == Offered(s)
    && Distinct(Ids(s.posted)) && Distinct(s.taken) && Distinct(s.handed)
    && (forall n :: n in s.taken ==> n in s.posted)
    && (forall n :: n in s.handed ==> n in s.taken)
    && (Pending(s).Some? ==> Pending(s).value in s.posted && Pending(s).value !in s.taken)
    && (AllTexts(s.posted) ==> s.posted == s.taken + PendingOnly(s))
  }

  ghost predicate Inv(s: System) {
    Locks(s) && HooksSee(s) && WaitersSee(s) && PrintersOk(s) && ClearedAlone(s) && Books(s)
  }

  // ---- Each step keeps it ----

  lemma OthersStay(s: System, p: Pid, a: Action)
    requires Enabled(s, p, a)
    ensures forall q :: q != p ==> At(Do(s, p, a), q) == At(s, q)
  {
  }

  lemma DoKeepsLocks(s: System, p: Pid, a: Action)
    requires Inv(s) && Enabled(s, p, a)
    ensures Locks(Do(s, p, a))
  {
    hide Books, HooksSee, WaitersSee, PrintersOk, ClearedAlone;
    OthersStay(s, p, a);
  }

  lemma DoKeepsHooks(s: System, p: Pid, a: Action)
    requires Inv(s) && Enabled(s, p, a)
    ensures HooksSee(Do(s, p, a))
  {
    hide Books, WaitersSee, PrintersOk, ClearedAlone;
    OthersStay(s, p, a);
  }

  lemma DoKeepsWaiters(s: System, p: Pid, a: Action)
    requires Inv(s) && Enabled(s, p, a)
    ensures WaitersSee(Do(s, p, a))
  {
    hide Books, HooksSee, PrintersOk, ClearedAlone;
    OthersStay(s, p, a);
  }

  lemma SaveKeepsPrinters(s: System, p: Pid)
    requires Inv(s) && Enabled(s, p, NoticeSave)
    ensures PrintersOk(Do(s, p, NoticeSave))
  {
    var n := At(s, p).notice;
    OthersStay(s, p, NoticeSave);
    assert n !in s.taken by { assert HoldsState(At(s, p)); }
    assert n !in s.handed;
    hide WaitersSee, HooksSee, Locks, Books;
  }

  lemma PrintKeepsPrinters(s: System, p: Pid)
    requires PrintersOk(s) && Enabled(s, p, NoticePrint)
    ensures PrintersOk(Do(s, p, NoticePrint))
  {
    OthersStay(s, p, NoticePrint);
  }

  /** No other action makes a process print, takes a notice out of the file, or prints one. */
  lemma PrintersStay(s: System, p: Pid, a: Action)
    requires Enabled(s, p, a) && !a.NoticeSave? && !a.NoticePrint?
    ensures !At(Do(s, p, a), p).Printing? || At(Do(s, p, a), p) == At(s, p)
    ensures (Do(s, p, a).taken, Do(s, p, a).handed) == (s.taken, s.handed)
  {
  }

  lemma DoKeepsPrinters(s: System, p: Pid, a: Action)
    requires Inv(s) && Enabled(s, p, a)
    ensures PrintersOk(Do(s, p, a))
  {
    if a.NoticeSave? {
      SaveKeepsPrinters(s, p);
    } else if a.NoticePrint? {
      PrintKeepsPrinters(s, p);
    } else {
      OthersStay(s, p, a);
      PrintersStay(s, p, a);
      hide WaitersSee, HooksSee, ClearedAlone, Locks, Books, Do, Enabled;
    }
  }

  lemma DoKeepsClearedAlone(s: System, p: Pid, a: Action)
    requires Locks(s) && ClearedAlone(s) && Enabled(s, p, a)
    ensures ClearedAlone(Do(s, p, a))
  {
    OthersStay(s, p, a);
    assert forall q: Pid :: At(s, q).Watching? || At(s, q).Reaping? || At(s, q).HasBoth? ==> HoldsWait(At(s, q));
    assert forall q: Pid :: At(s, q).Cleared? ==> HoldsState(At(s, q));
  }

  lemma SaveKeepsBooks(s: System, p: Pid)
    requires Inv(s) && Enabled(s, p, NoticeSave)
    ensures Books(Do(s, p, NoticeSave))
  {
    var n, t := At(s, p).notice, Do(s, p, NoticeSave);
    assert HoldsState(At(s, p)) && Pending(s) == Some(n);
    hide Locks, HooksSee, WaitersSee, PrintersOk, ClearedAlone;
    assert t.taken == s.taken + [n] && PendingOnly(t) == [] && PendingOnly(s) == [n];
  }

  lemma PrintKeepsBooks(s: System, p: Pid)
    requires Inv(s) && Enabled(s, p, NoticePrint)
    ensures Books(Do(s, p, NoticePrint))
  {
    var n := At(s, p).notice;
    assert n in s.taken && n !in s.handed;
    hide Locks, HooksSee, WaitersSee, PrintersOk, ClearedAlone;
    assert Do(s, p, NoticePrint).handed == s.handed + [n];
  }

  lemma PostedMore(posted: seq<Notice>, n: Notice)
    requires Distinct(Ids(posted)) && n.id !in Ids(posted)
    ensures Ids(posted + [n]) == Ids(posted) + [n.id] && Distinct(Ids(posted + [n])) && n !in posted
    ensures AllTexts(posted + [n]) ==> AllTexts(posted)
  {
    assert (posted + [n])[..|posted|] == posted;
    assert forall i :: 0 <= i < |posted| ==> Ids(posted)[i] == posted[i].id && Ids(posted)[i] in Ids(posted);
    assert AllTexts(posted + [n]) ==> forall m :: m in posted ==> m in posted + [n];
  }

  /** A notice is posted where none is pending. */
  lemma PostKeepsBooks(s: System, t: System, n: Notice)
    requires Books(s) && !Truthy(Pending(s)) && n.id !in Offered(s)
    requires t.posted == s.posted + [n] && Pending(t) == Some(n) && Offered(t) == Offered(s) + [n.id]
    requires (t.taken, t.handed) == (s.taken, s.handed)
    ensures Books(t)
  {
    PostedMore(s.posted, n);
    hide Distinct, Ids;
    assert AllTexts(t.posted) ==> Pending(s).None?;
    assert n !in s.taken;
    assert PendingOnly(t) == [n];
    assert Pending(s).None? ==> PendingOnly(s) == [] && s.taken + [] == s.taken;
  }

  /** The waiter that posts a notice saw none pending, and no one else posts while it holds its lock. */
  lemma EventKeepsBooks(s: System, p: Pid, id: Id, text: string)
    requires Inv(s) && Enabled(s, p, WaitEvent(id, text))
    ensures Books(Do(s, p, WaitEvent(id, text)))
  {
    if !s.saved.value.closed && id !in s.saved.value.offered {
      assert !Truthy(Pending(s));
      hide Locks, HooksSee, WaitersSee, PrintersOk, ClearedAlone, Books;
      PostKeepsBooks(s, Do(s, p, WaitEvent(id, text)), Notice(id, text));
    }
  }

  function Offered(s: System): seq<Id> {
    if s.saved.Some? then s.saved.value.offered else []
  }

  lemma BooksStay(s: System, p: Pid, a: Action)
    requires Enabled(s, p, a) && !a.NoticeSave? && !a.NoticePrint? && !a.WaitEvent?
    ensures var t := Do(s, p, a);
            Pending(t) == Pending(s) && Offered(t) == Offered(s) && (t.posted, t.taken, t.handed) == (s.posted, s.taken, s.handed)
  {
  }

  lemma DoKeepsBooks(s: System, p: Pid, a: Action)
    requires Inv(s) && Enabled(s, p, a)
    ensures Books(Do(s, p, a))
  {
    match a
    case NoticeSave => SaveKeepsBooks(s, p);
    case NoticePrint => PrintKeepsBooks(s, p);
    case WaitEvent(id, text) => EventKeepsBooks(s, p, id, text);
    case _ =>
      BooksStay(s, p, a);
      hide Do, Enabled, Locks, HooksSee, WaitersSee, PrintersOk, ClearedAlone, Distinct, Ids;
  }

  lemma DoKeepsInv(s: System, p: Pid, a: Action)
    requires Inv(s) && Enabled(s, p, a)
    ensures Inv(Do(s, p, a))
  {
    DoKeepsLocks(s, p, a);
    DoKeepsHooks(s, p, a);
    DoKeepsWaiters(s, p, a);
    DoKeepsPrinters(s, p, a);
    DoKeepsClearedAlone(s, p, a);
    DoKeepsBooks(s, p, a);
    hide Locks, HooksSee, WaitersSee, PrintersOk, ClearedAlone, Books, Do, Enabled;
  }

  lemma {:induction false} RunKeepsInv(run: seq<System>, i: nat)
    requires Run(run) && i < |run|
    ensures Inv(run[i])
  {
    if i == 0 {
      assert forall p: Pid :: At(FRESH, p) == Gone;
    } else {
      RunKeepsInv(run, i - 1);
      assert Step(run[i - 1], run[i]);
      var p, a :| Enabled(run[i - 1], p, a) && run[i] == Do(run[i - 1], p, a);
      DoKeepsInv(run[i - 1], p, a);
    }
  }

  // ---- What that means ----

  /** In every reachable state: each message was offered at most once, each notice was printed at most
      once and only after it left the file, and, if no notice is empty, every notice that was ever posted
      is either the pending one or was taken, in order: none was overwritten. */
  lemma HandedOutOnce(run: seq<System>, i: nat)
    requires Run(run) && i < |run|
    ensures run[i].saved.Some? ==> Distinct(run[i].saved.value.offered) && run[i].saved.value.offered == Ids(run[i].posted)
    ensures Distinct(run[i].handed) && forall n :: n in run[i].handed ==> n in run[i].taken
    ensures AllTexts(run[i].posted) ==> run[i].posted == run[i].taken + PendingOnly(run[i])
  {
    RunKeepsInv(run, i);
  }

  predicate IsWaiter(proc: Proc) {
    proc.Waiting? || proc.Watching? || proc.Reaping?
  }

  /** While a hook holds the wait lock there is no waiter. From then until it has taken the notice out of
      the file no waiter watches or reaps: one that took the lock meanwhile is at its first look. All that
      time the notice stays the pending one. */
  lemma TakenWithoutWatcher(run: seq<System>, i: nat, hook: Pid)
    requires Run(run) && i < |run|
    ensures At(run[i], hook).HasBoth? ==> forall p :: !IsWaiter(At(run[i], p))
    ensures At(run[i], hook).Cleared? ==> forall p :: IsWaiter(At(run[i], p)) ==> At(run[i], p).Waiting?
    ensures HoldsState(At(run[i], hook)) ==> Pending(run[i]) == Some(At(run[i], hook).notice)
  {
    RunKeepsInv(run, i);
    assert forall p: Pid :: HoldsWait(At(run[i], p)) ==> run[i].waitLock == Some(p);
  }

  ghost predicate HeldByWaiter(s: System, p: Pid) {
    s.waitLock == Some(p) && IsWaiter(At(s, p))
  }

  /** Process `p` takes the wait lock between these states. */
  ghost predicate Takes(s: System, t: System, p: Pid) {
    Enabled(s, p, WaitTake) && t == Do(s, p, WaitTake)
  }

  ghost predicate TookAndHolds(run: seq<System>, from: nat, k: nat, j: nat, p: Pid) {
    from <= k < j < |run| && Takes(run[k], run[k + 1], p) && forall m :: k < m <= j ==> HeldByWaiter(run[m], p)
  }

  ghost predicate HoldsSince(run: seq<System>, from: nat, j: nat, p: Pid) {
    exists k :: TookAndHolds(run, from, k, j, p)
  }

  lemma NewWaiterTakes(s: System, t: System, p: Pid)
    requires Inv(s) && Step(s, t) && !HeldByWaiter(s, p) && HeldByWaiter(t, p)
    ensures Takes(s, t, p)
  {
    var q, a :| Enabled(s, q, a) && t == Do(s, q, a);
    OthersStay(s, q, a);
    assert HoldsWait(At(s, p)) <==> s.waitLock == Some(p);
  }

  /** From the moment a hook has given the wait lock back, and so when it replaces the file and when it
      prints: a waiter holds the lock exactly if it took it after that moment and kept it. */
  lemma {:induction false} WaiterCameAfter(run: seq<System>, clear: nat, j: nat, hook: Pid, p: Pid)
    requires Run(run) && clear < j < |run|
    requires Enabled(run[clear], hook, NoticeClear) && run[clear + 1] == Do(run[clear], hook, NoticeClear)
    ensures HeldByWaiter(run[j], p) <==> HoldsSince(run, clear + 1, j, p)
    decreases j
  {
    hide Run, Inv, Do, Enabled;
    if HeldByWaiter(run[j], p) {
      if j == clear + 1 {
        ClearedHasNoWaiter(run[clear], hook, p);
      } else if HeldByWaiter(run[j - 1], p) {
        WaiterCameAfter(run, clear, j - 1, hook, p);
        var k :| TookAndHolds(run, clear + 1, k, j - 1, p);
        assert TookAndHolds(run, clear + 1, k, j, p);
      } else {
        RunKeepsInv(run, j - 1);
        assert Step(run[j - 1], run[j]) by { RunStep(run, j - 1); }
        NewWaiterTakes(run[j - 1], run[j], p);
        assert TookAndHolds(run, clear + 1, j - 1, j, p);
      }
    }
  }

  lemma ClearedHasNoWaiter(s: System, hook: Pid, p: Pid)
    requires Enabled(s, hook, NoticeClear)
    ensures !HeldByWaiter(Do(s, hook, NoticeClear), p)
  {
  }

  lemma RunStep(run: seq<System>, i: nat)
    requires Run(run) && i + 1 < |run|
    ensures Step(run[i], run[i + 1])
  {
  }

  /** A step puts another notice in the place of a pending one only if that one's text is empty. */
  lemma OverwrittenOnlyIfEmpty(s: System, p: Pid, a: Action)
    requires Inv(s) && Enabled(s, p, a) && Pending(s).Some? && Pending(s).value.text != ""
    ensures Pending(Do(s, p, a)) == Pending(s) || (a.NoticeSave? && Do(s, p, a).taken == s.taken + [Pending(s).value])
  {
  }

  lemma RunMore(run: seq<System>, p: Pid, a: Action) returns (longer: seq<System>)
    requires Run(run) && Enabled(run[|run| - 1], p, a)
    ensures Run(longer) && longer == run + [Do(run[|run| - 1], p, a)]
  {
    longer := run + [Do(run[|run| - 1], p, a)];
    assert Step(run[|run| - 1], longer[|run|]);
  }

  /** And an empty one can be: from every state in which an empty notice is pending and nobody holds a
      lock, a waiter overwrites it with the next message. */
  lemma EmptyCanBeOverwritten(run: seq<System>, p: Pid, id: Id, text: string) returns (longer: seq<System>)
    requires Run(run)
    requires var s := run[|run| - 1];
             && At(s, p).Gone? && s.waitLock.None? && s.stateLock.None? && s.saved.Some? && !s.saved.value.closed
             && s.saved.value.pending.Some? && s.saved.value.pending.value.text == "" && id !in s.saved.value.offered
    ensures Run(longer) && run < longer
    ensures Pending(longer[|longer| - 1]) == Some(Notice(id, text)) && longer[|longer| - 1].taken == run[|run| - 1].taken
  {
    hide Run;
    longer := RunMore(run, p, WaitTake);
    longer := RunMore(longer, p, WaitCheck);
    longer := RunMore(longer, p, WaitEvent(id, text));
  }

  /** A session starts, and a waiter posts a notice. */
  lemma PostRun(binding: Binding, id: Id, text: string) returns (run: seq<System>)
    ensures Run(run)
    ensures var s := run[|run| - 1];
            && At(s, 0).Gone? && At(s, 1).Gone? && s.waitLock.None? && s.stateLock.None?
            && s.saved == Some(Saved(binding, [id], Some(Notice(id, text)), false)) && s.taken == []
  {
    run := [FRESH];
    hide Run;
    run := RunMore(run, 0, HookStart(binding));
    run := RunMore(run, 1, WaitTake);
    run := RunMore(run, 1, WaitCheck);
    run := RunMore(run, 1, WaitEvent(id, text));
    assert run[|run| - 1].saved.value.offered == [id];
    run := RunMore(run, 1, WaitExit);
  }

  /** So a run exists that loses a notice with an empty text: the next one takes its place, and no hook
      ever took it. */
  lemma EmptyIsLost(binding: Binding, first: Id, second: Id, text: string) returns (run: seq<System>)
    requires first != second
    ensures Run(run)
    ensures var s := run[|run| - 1]; Pending(s) == Some(Notice(second, text)) && s.taken == []
    ensures exists i :: 0 <= i < |run| && Pending(run[i]) == Some(Notice(first, ""))
  {
    var posted := PostRun(binding, first, "");
    run := EmptyCanBeOverwritten(posted, 1, second, text);
    assert run[|posted| - 1] == posted[|posted| - 1];
  }

  /** A hook has given the wait lock back, and a new waiter has taken it. */
  lemma ClearedRun(binding: Binding, id: Id, text: string) returns (run: seq<System>)
    requires text != ""
    ensures Run(run)
    ensures var s := run[|run| - 1];
            && At(s, 0) == Cleared(Notice(id, text)) && At(s, 1).Waiting? && s.waitLock == Some(1) && s.stateLock == Some(0)
            && s.saved == Some(Saved(binding, [id], Some(Notice(id, text)), false))
  {
    run := PostRun(binding, id, text);
    hide Run;
    run := RunMore(run, 0, NoticeEnter(binding));
    assert At(run[|run| - 1], 0) == InNotice(Notice(id, text));
    run := RunMore(run, 0, NoticeTry);
    assert At(run[|run| - 1], 0) == HasBoth(Notice(id, text));
    run := RunMore(run, 0, NoticeClear);
    run := RunMore(run, 1, WaitTake);
  }

  /** The file is not replaced under the wait lock: at the last step of this run the hook takes the notice
      out while a waiter holds the lock. */
  lemma SaveMayMeetWaiter(binding: Binding, id: Id, text: string) returns (run: seq<System>)
    requires text != ""
    ensures Run(run) && |run| > 1
    ensures var s, t := run[|run| - 2], run[|run| - 1];
            && Enabled(s, 0, NoticeSave) && t == Do(s, 0, NoticeSave) && t.taken == s.taken + [Notice(id, text)]
            && HeldByWaiter(s, 1) && HeldByWaiter(t, 1) && At(t, 1).Waiting?
  {
    run := ClearedRun(binding, id, text);
    hide Run;
    run := RunMore(run, 0, NoticeSave);
  }

  /** Nor is printing: the waiter may already watch. */
  lemma PrintMayMeetWaiter(binding: Binding, id: Id, text: string) returns (run: seq<System>)
    requires text != ""
    ensures Run(run)
    ensures var s := run[|run| - 1]; At(s, 0) == Printing(Notice(id, text)) && At(s, 1).Watching? && HeldByWaiter(s, 1)
  {
    run := ClearedRun(binding, id, text);
    hide Run;
    run := RunMore(run, 0, NoticeSave);
    run := RunMore(run, 1, WaitCheck);
  }

  // ---- Sessions ----

  /** The directory stays bound as it is, and a closed session stays closed. */
  predicate SessionStays(s: System, t: System) {
    s.saved.Some? ==>
      && t.saved.Some? && t.saved.value.binding == s.saved.value.binding
      && (s.saved.value.closed ==> t.saved.value.closed)
  }

  lemma DoKeepsSession(s: System, p: Pid, a: Action)
    requires Enabled(s, p, a)
    ensures SessionStays(s, Do(s, p, a))
  {
  }

  /** Over a run: one directory serves one session, and nothing opens it again. */
  lemma {:induction false} OneSession(run: seq<System>, i: nat, j: nat)
    requires Run(run) && i <= j < |run|
    ensures SessionStays(run[i], run[j])
    decreases j - i
  {
    if i == j {
    } else {
      OneSession(run, i, j - 1);
      assert Step(run[j - 1], run[j]);
      var p, a :| Enabled(run[j - 1], p, a) && run[j] == Do(run[j - 1], p, a);
      DoKeepsSession(run[j - 1], p, a);
    }
  }

  /** The directory belongs to another session or mailbox, or its session was closed. */
  predicate Refuses(s: System, binding: Binding) {
    s.saved.Some? && (s.saved.value.binding != binding || s.saved.value.closed)
  }

  /** The five steps of a notice hook that nobody disturbs. */
  ghost function Taken(s: System, p: Pid, binding: Binding): Option<System> {
    if !Enabled(s, p, NoticeEnter(binding)) then None
    else
      var entered := Do(s, p, NoticeEnter(binding));
      if !At(entered, p).InNotice? || !Enabled(entered, p, NoticeTry) then None
      else
        var both := Do(entered, p, NoticeTry);
        if !Enabled(both, p, NoticeClear) then None
        else
          var cleared := Do(both, p, NoticeClear);
          if !Enabled(cleared, p, NoticeSave) then None
          else Some(Do(Do(cleared, p, NoticeSave), p, NoticePrint))
  }

  /** A hook of the open session finds both locks free: the pending notice is printed and out of the file,
      and the locks are free again. A hook that finds anything else gets no further than its look. */
  lemma DeliveredWhenFree(s: System, p: Pid, binding: Binding)
    requires At(s, p).Gone? && s.stateLock.None? && s.waitLock.None?
    ensures Taken(s, p, binding).Some?
            <==> s.saved.Some? && !Refuses(s, binding) && s.saved.value.pending.Some? && s.saved.value.pending.value.text != ""
    ensures Taken(s, p, binding).Some? ==>
              var t := Taken(s, p, binding).value;
              && t.handed == s.handed + [s.saved.value.pending.value] && t.taken == s.taken + [s.saved.value.pending.value]
              && t.saved == Some(s.saved.value.(pending := None))
              && t.stateLock.None? && t.waitLock.None? && At(t, p).Gone?
  {
  }

  /** A waiter of the open session that nobody disturbs posts the first message that was not offered. */
  lemma PostedWhenFree(s: System, p: Pid, id: Id, text: string)
    requires At(s, p).Gone? && s.stateLock.None? && s.waitLock.None? && s.saved.Some? && !s.saved.value.closed
    requires s.saved.value.pending.None? || s.saved.value.pending.value.text == ""
    requires id !in s.saved.value.offered
    ensures var looked := Do(Do(s, p, WaitTake), p, WaitCheck);
            && At(looked, p).Watching? && Enabled(looked, p, WaitEvent(id, text))
            && var t := Do(looked, p, WaitEvent(id, text));
            && t.saved == Some(s.saved.value.(offered := s.saved.value.offered + [id], pending := Some(Notice(id, text))))
            && At(t, p).Reaping? && t.waitLock == Some(p)
  {
  }

  /** A waiter that looks at a closed session ends without posting. */
  lemma ClosedEndsWait(s: System, p: Pid, a: Action)
    requires Enabled(s, p, a) && (a.WaitCheck? || a.WaitPoll? || a.WaitEvent?)
    requires s.saved.Some? && s.saved.value.closed
    ensures At(Do(s, p, a), p).Gone? || At(Do(s, p, a), p).Reaping?
    ensures Do(s, p, a).saved == s.saved && Do(s, p, a).posted == s.posted
  {
  }

  // ---- The commands ----

  /** One process among others. */
  class Command {
    const me: Pid
    var sys: System
    ghost var run: seq<System>

    ghost predicate Valid()
      reads this
    {
      Run(run) && run[|run| - 1] == sys && Inv(sys)
    }

    constructor (me: Pid)
      ensures Valid() && this.me == me && sys == FRESH
    {
      this.me, sys, run := me, FRESH, [FRESH];
      new;
      RunKeepsInv(run, 0);
    }

    method Advance(p: Pid, a: Action)
      requires Valid() && Enabled(sys, p, a)
      modifies this
      ensures Valid() && sys == Do(old(sys), p, a) && run == old(run) + [sys]
    {
      ghost var longer := RunMore(run, p, a);
      DoKeepsInv(sys, p, a);
      hide Run, Inv, Enabled, Do;
      sys, run := Do(sys, p, a), longer;
    }

    /** Hooks and waiters of other processes go on. */
    method Others()
      requires Valid()
      modifies this
      ensures Valid() && old(run) <= run && At(sys, me) == At(old(sys), me) && Offered(old(sys)) <= Offered(sys)
      ensures old(sys).taken <= sys.taken && SessionStays(old(sys), sys)
    {
      hide Run, Inv;
      var steps: nat :| true;
      for n := 0 to steps
        invariant Valid() && old(run) <= run && At(sys, me) == At(old(sys), me) && Offered(old(sys)) <= Offered(sys)
        invariant old(sys).taken <= sys.taken && SessionStays(old(sys), sys)
      {
        hide Do, Enabled;
        var p: Pid, a: Action :| true;
        if p != me && Enabled(sys, p, a) {
          OthersStay(sys, p, a);
          OfferedGrows(sys, p, a);
          DoKeepsSession(sys, p, a);
          Advance(p, a);
        }
      }
    }

    /** `hook("start")`: it binds a directory that is not bound yet, and no other. */
    method StartSession(binding: Binding) returns (enabled: bool)
      requires Valid() && At(sys, me).Gone?
      modifies this
      ensures Valid() && old(run) <= run && At(sys, me).Gone? && SessionStays(old(sys), sys)
      ensures enabled ==> old(sys).saved.None? && sys.saved == Some(Saved(binding, [], None, false))
    {
      hide Run, Inv;
      Others();
      enabled := sys.stateLock.None? && sys.saved.None?;
      if sys.stateLock.None? {
        Advance(me, HookStart(binding));
      }
    }

    /** `hook("end")`: only the session of the directory closes it. */
    method EndSession(binding: Binding) returns (closed: bool)
      requires Valid() && At(sys, me).Gone?
      modifies this
      ensures Valid() && old(run) <= run && At(sys, me).Gone? && SessionStays(old(sys), sys)
      ensures closed ==> sys.saved.Some? && sys.saved.value.binding == binding && sys.saved.value.closed
      ensures old(sys).saved.Some? && old(sys).saved.value.binding != binding ==> !closed
    {
      hide Run, Inv;
      Others();
      closed := sys.stateLock.None? && sys.saved.Some? && sys.saved.value.binding == binding;
      if sys.stateLock.None? {
        Advance(me, HookEnd(binding));
      }
    }

    /** `hook("notice")`: what it prints, if anything, is a notice that this call took out of the file. A
        hook of another session or of a closed one prints nothing. It may be cut off anywhere. */
    method TakeNotice(binding: Binding) returns (output: Option<Notice>)
      requires Valid() && At(sys, me).Gone?
      modifies this
      ensures Valid() && old(run) <= run && At(sys, me).Gone?
      ensures output.Some? ==> |sys.handed| > 0 && sys.handed[|sys.handed| - 1] == output.value
      ensures output.Some? ==> output.value !in old(sys).taken && output.value in sys.taken
      ensures Refuses(old(sys), binding) ==> output.None?
      ensures output.Some? ==> sys.saved.Some? && sys.saved.value.binding == binding
    {
      hide Run, Inv;
      output := None;
      Others();
      // The state lock is waited for.
      if sys.stateLock.None? {
        Advance(me, NoticeEnter(binding));
        PrefixMembers(old(sys).taken, sys.taken);
        if At(sys, me).InNotice? {
          output := TryTake();
        }
      }
    }

    method TryTake() returns (output: Option<Notice>)
      requires Valid() && At(sys, me).InNotice?
      modifies this
      ensures Valid() && old(run) <= run && At(sys, me).Gone?
      ensures output.Some? ==> |sys.handed| > 0 && sys.handed[|sys.handed| - 1] == output.value
      ensures output.Some? ==> output.value !in old(sys).taken && output.value in sys.taken
      ensures SessionStays(old(sys), sys)
    {
      hide Run, Inv;
      output := None;
      Others();
      Advance(me, NoticeTry);
      if At(sys, me).HasBoth? {
        Others();
        Advance(me, NoticeClear);
        Others();
        PrefixMembers(old(sys).taken, sys.taken);
        output := Output();
      }
    }

    /** The file is replaced before the notice is printed. */
    method Output() returns (output: Option<Notice>)
      requires Valid() && At(sys, me).Cleared?
      modifies this
      ensures Valid() && old(run) <= run && At(sys, me).Gone?
      ensures output.Some? ==> |sys.handed| > 0 && sys.handed[|sys.handed| - 1] == output.value
      ensures output.Some? ==> output.value !in old(sys).taken && output.value in sys.taken
      ensures SessionStays(old(sys), sys)
    {
      hide Run, Inv;
      output := None;
      if * {
        Advance(me, Crash);
        return;
      }
      ClearedSaved(sys, me);
      Advance(me, NoticeSave);
      ghost var taken := sys.taken;
      Others();
      PrefixMembers(taken, sys.taken);
      if * {
        Advance(me, Crash);
        return;
      }
      output := Some(At(sys, me).notice);
      Advance(me, NoticePrint);
    }

    /** `wait`: it holds the wait lock to its end, and posts at most one notice, of a message that was
        not offered before. */
    method Wait() returns (posted: Option<Id>)
      requires Valid() && At(sys, me).Gone?
      modifies this
      ensures Valid() && old(run) <= run && At(sys, me).Gone?
      ensures posted.Some? ==> posted.value !in Offered(old(sys)) && posted.value in Offered(sys)
      ensures old(sys).saved.Some? && old(sys).saved.value.closed ==> posted.None?
    {
      hide Run, Inv;
      posted := None;
      Others();
      if sys.waitLock.Some? {
        return;
      }
      Advance(me, WaitTake);
      posted := Look();
      Others();
      End();
    }

    /** `wait` from its first look at the state. */
    method Look() returns (posted: Option<Id>)
      requires Valid() && At(sys, me).Waiting?
      modifies this
      ensures Valid() && old(run) <= run && Offered(old(sys)) <= Offered(sys)
      ensures posted.Some? ==> posted.value !in Offered(old(sys)) && posted.value in Offered(sys)
      ensures old(sys).saved.Some? && old(sys).saved.value.closed ==> posted.None?
    {
      hide Run, Inv;
      posted := None;
      Others();
      if sys.stateLock.None? {
        Advance(me, WaitCheck);
        if At(sys, me).Watching? {
          posted := Watch();
        }
      }
    }

    /** The end of a waiter: its locks are released. */
    method End()
      requires Valid()
      modifies this
      ensures Valid() && old(run) <= run && At(sys, me).Gone? && Offered(sys) == Offered(old(sys))
    {
      hide Run, Inv;
      Advance(me, Crash);
    }

    /** The loop of `wait` over its polls and events, until it has posted a notice or must end. */
    method Watch() returns (posted: Option<Id>)
      requires Valid() && At(sys, me).Watching?
      modifies this
      ensures Valid() && old(run) <= run && (At(sys, me).Reaping? || At(sys, me).Watching?)
      ensures Offered(old(sys)) <= Offered(sys)
      ensures posted.Some? ==> posted.value !in Offered(old(sys)) && posted.value in Offered(sys) && At(sys, me).Reaping?
      ensures old(sys).saved.Some? && old(sys).saved.value.closed ==> posted.None?
    {
      hide Run, Inv;
      posted := None;
      var polls: nat :| true;
      for n := 0 to polls
        invariant Valid() && old(run) <= run && At(sys, me).Watching? && Offered(old(sys)) <= Offered(sys)
        invariant SessionStays(old(sys), sys)
      {
        Others();
        assert sys.saved.Some? by { WatchingSaved(sys, me); }
        if sys.stateLock.Some? {
          continue;
        }
        if * {
          Advance(me, WaitPoll);
        } else {
          var id: Id, text: string :| true;
          var unoffered := !sys.saved.value.closed && id !in sys.saved.value.offered;
          Advance(me, WaitEvent(id, text));
          if unoffered {
            return Some(id);
          }
        }
        if At(sys, me).Reaping? {
          return;
        }
      }
    }
  }

  lemma PrefixMembers(a: seq<Notice>, b: seq<Notice>)
    requires a <= b
    ensures forall n :: n in a ==> n in b
  {
  }

  lemma OfferedGrows(s: System, p: Pid, a: Action)
    requires Enabled(s, p, a)
    ensures Offered(s) <= Offered(Do(s, p, a)) && s.taken <= Do(s, p, a).taken
  {
  }

  lemma ClearedSaved(s: System, p: Pid)
    requires Inv(s) && HoldsState(At(s, p))
    ensures s.saved.Some? && At(s, p).notice !in s.taken
  {
  }

  lemma WatchingSaved(s: System, p: Pid)
    requires Inv(s) && At(s, p).Watching?
    ensures s.saved.Some?
  {
  }
}
