/** The loop that brings mailbox notices into one managed native session
    (integrations/managed_receiver.py): one state directory over any number of runs, crashes and
    recoveries. */
module ManagedSession {
  import opened Common

  type Id = string

  datatype Phase = New | Idle | Starting | Active | Inflight | NeedsInspection

  datatype Notice = Notice(id: Id, number: nat)

  /** The state file. `lifecycle` says that `lifecycle_version` is 1. */
  datatype Record = Record(phase: Phase, session: Option<string>, pending: Option<Notice>, lastSeq: nat, lifecycle: bool)

  /** A message of the peer: `settled` once a request has its reply or an answer its ACK. */
  datatype Mail = Mail(number: nat, settled: bool)

  /** What follows when the state is saved. */
  datatype Next =
    | ToBoot | ToLaunch | ToFeed(fed: nat) | ToPrompt
    | ToDispose | ToClose | ToExit | ToRetire(retry: Option<Id>)

  /** The process that holds the lock, with its state in memory. `fed` is the last number that its
      watcher gave it. `Saving` has not replaced the file yet, `Renamed` has. */
  datatype Proc =
    | Off
    | Saving(rec: Record, next: Next)
    | Renamed(rec: Record, next: Next)
    | Booting(rec: Record)
    | Launching(rec: Record)
    | Feeding(rec: Record, fed: nat)
    | Prompting(rec: Record)
    | InTurn(rec: Record)
    | Disposing(rec: Record)
    | Closing(rec: Record, failed: bool)

  /** What the peer was sent, the last number given, and the prompts and the completed turns of each
      message. */
  datatype World = World(mail: map<Id, Mail>, top: nat, prompts: multiset<Id>, done: multiset<Id>)

  /** `clean` is the adapter's CLEAN_SHUTDOWN_REQUIRED. `retries` counts the recoveries that named a
      message for retry. `alive` says that native processes of a session may be left. They inherited the
      descriptor of the lock, and keep it until they end. */
  datatype System = System(clean: bool, disk: Option<Record>, proc: Proc, world: World, retries: multiset<Id>, alive: bool)

  datatype Action =
    | Arrive(id: Id, number: nat)
    | Settle(id: Id)
    | NativeEnds
    | Run
    | Recover(discard: string, message: Option<Id>, settled: bool)
    | Rename
    | Synced
    | SaveFails
    | Boot
    | NoteSession(session: string)
    | Launched
    | Event(id: Id)
    | Prompt
    | TurnEnds(completed: bool)
    | Fails
    | Disposed(ok: bool, marked: bool)
    | Closed(ok: bool, marked: bool)
    | Crash

  function Blank(): Record {
    Record(New, None, None, 0, false)
  }

  /** What a new process finds. */
  function Durable(s: System): Record {
    if s.disk.Some? then s.disk.value else Blank()
  }

  predicate LegacyIdle(clean: bool, rec: Record) {
    clean && rec.phase.Idle? && !rec.lifecycle
  }

  /** `worker` up to its launch of the session: an uncertain state is refused. */
  function BootTo(clean: bool, rec: Record): Proc {
    if LegacyIdle(clean, rec) then Saving(rec.(phase := NeedsInspection), ToExit)
    else if !rec.phase.New? && !rec.phase.Idle? then Off
    else Saving(rec.(phase := Starting, lifecycle := clean || rec.lifecycle), ToLaunch)
  }

  /** `recover`: whether it accepts what the operator says of this state. */
  predicate Recovers(s: System, discard: string, message: Option<Id>, settled: bool) {
    && s.disk.Some?
    && var rec := s.disk.value;
    && ((!rec.phase.New? && !rec.phase.Idle?) || LegacyIdle(s.clean, rec))
    && discard == (if rec.session.Some? && rec.session.value != "" then rec.session.value else "unknown")
    && match rec.pending
       case Some(notice) => message == Some(notice.id) && notice.id in s.world.mail && s.world.mail[notice.id].settled == settled
       case None => message.None? && settled
  }

  function Recovered(rec: Record, settled: bool): Record {
    Record(New, None, None, if rec.pending.Some? && settled then rec.pending.value.number else rec.lastSeq, rec.lifecycle)
  }

  predicate Has(proc: Proc, pending: bool) {
    match proc
    case Prompting(rec) => rec.pending.Some? == pending
    case InTurn(rec) => rec.pending.Some? == pending
    case _ => false
  }

  /** The watcher gives the mail in order and leaves out only what is settled. */
  predicate Fed(mail: map<Id, Mail>, fed: nat, id: Id) {
    id in mail && mail[id].number > fed
    && forall other :: other in mail && fed < mail[other].number < mail[id].number ==> mail[other].settled
  }

  predicate Enabled(s: System, a: Action) {
    match a
    case Arrive(id, number) => number > s.world.top && id !in s.world.mail
    case Settle(id) => id in s.world.mail
    case NativeEnds => true
    // Both need the lock, which the processes of an earlier session keep while they live.
    case Run => s.proc.Off? && !s.alive
    case Recover(discard, message, settled) => s.proc.Off? && !s.alive && Recovers(s, discard, message, settled)
    case Rename => s.proc.Saving?
    case Synced => s.proc.Renamed?
    case SaveFails => s.proc.Saving? || s.proc.Renamed?
    case Boot => s.proc.Booting?
    case NoteSession(_) => s.proc.Launching?
    case Launched => s.proc.Launching?
    case Event(id) => s.proc.Feeding? && Fed(s.world.mail, s.proc.fed, id)
    case Prompt => s.proc.Prompting? && Has(s.proc, true)
    case TurnEnds(_) => s.proc.InTurn? && Has(s.proc, true)
    case Fails => s.proc.Launching? || s.proc.Feeding? || s.proc.Prompting? || s.proc.InTurn?
    // Cancellation of an adapter that needs no clean shutdown is not recorded.
    case Disposed(ok, marked) => s.proc.Disposing? && (s.clean ==> ok || marked)
    case Closed(ok, marked) => s.proc.Closing? && (s.clean ==> ok || marked)
    case Crash => true
  }

  /** Where a process goes on when its save fails. */
  function AfterFailure(rec: Record, next: Next): Proc {
    match next
    case ToFeed(_) => Disposing(rec)
    case ToPrompt => Disposing(rec)
    case ToDispose => Disposing(rec)
    case ToClose => Closing(rec, true)
    case _ => Off
  }

  function AfterSave(rec: Record, next: Next): Proc {
    match next
    case ToBoot => Booting(rec)
    case ToLaunch => Launching(rec)
    case ToFeed(fed) => Feeding(rec, fed)
    case ToPrompt => Prompting(rec)
    case ToDispose => Disposing(rec)
    case ToClose => Closing(rec, true)
    case ToExit => Off
    case ToRetire(_) => Off
  }

  function Running(clean: bool): Phase {
    if clean then Active else Idle
  }

  function OnEvent(rec: Record, id: Id, mail: Mail): Proc {
    if mail.number <= rec.lastSeq || mail.settled then Feeding(rec, mail.number)
    else Saving(rec.(phase := Inflight, pending := Some(Notice(id, mail.number))), ToPrompt)
  }

  function OnTurnEnd(s: System, rec: Record, completed: bool): Proc
    requires rec.pending.Some?
  {
    var number := rec.pending.value.number;
    if completed
    then Saving(rec.(phase := Running(s.clean), pending := None, lastSeq := number), ToFeed(number))
    else Saving(rec.(phase := NeedsInspection), ToDispose)
  }

  /** The end of the `finally` block. */
  function OnClosed(s: System, rec: Record, failed: bool, ok: bool, marked: bool): Proc {
    if !ok then if marked then Saving(rec.(phase := NeedsInspection), ToExit) else Off
    else if !failed && s.clean && rec.phase.Active? then Saving(rec.(phase := Idle), ToExit)
    else Off
  }

  function Do(s: System, a: Action): System
    requires Enabled(s, a)
  {
    match a
    case Arrive(id, number) => s.(world := s.world.(mail := s.world.mail[id := Mail(number, false)], top := number))
    case Settle(id) => s.(world := s.world.(mail := s.world.mail[id := s.world.mail[id].(settled := true)]))
    case NativeEnds => s.(alive := false)
    case Run => s.(proc := if s.disk.None? then Saving(Blank(), ToBoot) else Booting(s.disk.value))
    case Recover(_, message, settled) =>
      s.(proc := Saving(Recovered(s.disk.value, settled), ToRetire(if settled then None else message)))
    case Rename =>
      var retiring := s.proc.next.ToRetire?;
      s.(disk := Some(s.proc.rec), proc := Renamed(s.proc.rec, s.proc.next),
         retries := if retiring && s.proc.next.retry.Some? then s.retries + multiset{s.proc.next.retry.value} else s.retries)
    case Synced => s.(proc := AfterSave(s.proc.rec, s.proc.next), alive := s.alive || s.proc.next.ToLaunch?)
    case SaveFails => s.(proc := AfterFailure(s.proc.rec, s.proc.next))
    case Boot => s.(proc := BootTo(s.clean, s.proc.rec))
    case NoteSession(session) => s.(proc := Launching(s.proc.rec.(session := Some(session))))
    case Launched => s.(proc := Saving(s.proc.rec.(phase := Running(s.clean)), ToFeed(0)))
    case Event(id) => s.(proc := OnEvent(s.proc.rec, id, s.world.mail[id]))
    case Prompt =>
      s.(proc := InTurn(s.proc.rec), world := s.world.(prompts := s.world.prompts + multiset{s.proc.rec.pending.value.id}))
    case TurnEnds(completed) =>
      s.(proc := OnTurnEnd(s, s.proc.rec, completed),
         world := if completed then s.world.(done := s.world.done + multiset{s.proc.rec.pending.value.id}) else s.world)
    case Fails => s.(proc := Disposing(s.proc.rec))
    case Disposed(ok, marked) =>
      s.(proc := if !ok && marked then Saving(s.proc.rec.(phase := NeedsInspection), ToClose) else Closing(s.proc.rec, !ok))
    case Closed(ok, marked) =>
      s.(proc := OnClosed(s, s.proc.rec, s.proc.failed, ok, marked), alive := s.alive && !(ok && !s.proc.failed))
    case Crash => s.(proc := Off)
  }

  ghost predicate Step(s: System, t: System) {
    exists a :: Enabled(s, a) && t == Do(s, a)
  }

  /** A fresh directory, or the idle record of an older version. */
  ghost predicate Init(s: System) {
    && s.proc.Off? && s.world.prompts == s.world.done == s.retries == multiset{} && MailOk(s.world)
    && match s.disk
       case None => !s.alive
       case Some(rec) =>
         rec.phase.Idle? && rec.pending.None? && !rec.lifecycle && rec.lastSeq <= s.world.top && Accounted(s.world, rec.lastSeq + 1)
  }

  ghost predicate Runs(run: seq<System>) {
    run != [] && Init(run[0]) && forall i, j :: 0 <= i && j == i + 1 < |run| ==> Step(run[i], run[j])
  }

  // ---- The invariant ----

  ghost predicate MailOk(w: World) {
    && (forall id :: id in w.mail ==> 0 < w.mail[id].number <= w.top)
    && (forall id, other :: id in w.mail && other in w.mail && id != other ==> w.mail[id].number != w.mail[other].number)
  }

  /** Every message below `n` is settled or had a completed turn. */
  ghost predicate Accounted(w: World, n: nat) {
    forall id :: id in w.mail && w.mail[id].number < n ==> w.mail[id].settled || id in w.done
  }

  predicate Names(w: World, notice: Notice) {
    notice.id in w.mail && w.mail[notice.id].number == notice.number
  }

  predicate Quiescent(phase: Phase) {
    !phase.Inflight? && !phase.NeedsInspection?
  }

  /** What every saved state and every state in memory satisfies. */
  ghost predicate RecordOk(w: World, rec: Record) {
    && (Quiescent(rec.phase) ==> rec.pending.None?)
    && (rec.phase.Inflight? ==> rec.pending.Some?)
    && rec.lastSeq <= w.top && Accounted(w, rec.lastSeq + 1)
    && (rec.pending.Some? ==> PendingOk(w, rec, rec.pending.value))
  }

  ghost predicate PendingOk(w: World, rec: Record, notice: Notice) {
    rec.lastSeq < notice.number && Names(w, notice) && Accounted(w, notice.number)
  }

  /** The record is at or beyond this message. */
  predicate Reached(rec: Record, mail: map<Id, Mail>, id: Id) {
    id in mail && (mail[id].number <= rec.lastSeq || rec.pending == Some(Notice(id, mail[id].number)))
  }

  /** Only messages that the record has reached were prompted without a recovery for each prompt. */
  ghost predicate Bounded(w: World, retries: multiset<Id>, rec: Record) {
    forall id :: w.prompts[id] <= retries[id] + if Reached(rec, w.mail, id) then 1 else 0
  }

  /** `after` forgets nothing that `before` reached. */
  predicate Follows(before: Record, after: Record) {
    && before.lastSeq <= after.lastSeq
    && (before.pending.Some? ==> after.pending == before.pending || before.pending.value.number <= after.lastSeq)
  }

  ghost predicate Unprompted(w: World, retries: multiset<Id>, rec: Record) {
    rec.pending.Some? && w.prompts[rec.pending.value.id] <= retries[rec.pending.value.id]
  }

  ghost predicate FeedOk(clean: bool, w: World, rec: Record, fed: nat) {
    rec.pending.None? && rec.phase == Running(clean) && fed <= w.top && Accounted(w, fed + 1)
  }

  ghost predicate RetireOk(before: Record, rec: Record, retry: Option<Id>) {
    retry.Some? ==> before.pending.Some? && before.pending.value.id == retry.value && rec.lastSeq == before.lastSeq
  }

  ghost predicate NextOk(s: System, rec: Record, next: Next) {
    match next
    case ToFeed(fed) => FeedOk(s.clean, s.world, rec, fed)
    case ToPrompt => rec.phase.Inflight? && Durable(s).pending.None? && Durable(s).lastSeq == rec.lastSeq
    case ToLaunch => rec.phase.Starting?
    case ToBoot => true
    case ToRetire(retry) => RetireOk(Durable(s), rec, retry)
    case _ => true
  }

  ghost predicate SavedOk(s: System, rec: Record, next: Next) {
    match next
    case ToFeed(fed) => FeedOk(s.clean, s.world, rec, fed)
    case ToPrompt => rec.phase.Inflight? && Unprompted(s.world, s.retries, rec)
    case ToLaunch => rec.phase.Starting?
    case _ => true
  }

  ghost predicate ProcOk(s: System) {
    match s.proc
    case Off => true
    case Saving(rec, next) =>
      RecordOk(s.world, rec) && NextOk(s, rec, next) && ((next.ToRetire? && next.retry.Some?) || Follows(Durable(s), rec))
    case Renamed(rec, next) => Durable(s) == rec && SavedOk(s, rec, next)
    case Booting(rec) => Durable(s) == rec
    case Launching(rec) => RecordOk(s.world, rec) && rec.phase.Starting? && Follows(Durable(s), rec)
    case Feeding(rec, fed) => Durable(s) == rec && FeedOk(s.clean, s.world, rec, fed)
    case Prompting(rec) => Durable(s) == rec && rec.phase.Inflight? && Unprompted(s.world, s.retries, rec)
    case InTurn(rec) => Durable(s) == rec && rec.phase.Inflight? && rec.pending.Some?
    case Disposing(rec) => RecordOk(s.world, rec) && Follows(Durable(s), rec)
    case Closing(rec, _) => RecordOk(s.world, rec) && Follows(Durable(s), rec)
  }

  ghost predicate Inv(s: System) {
    MailOk(s.world) && RecordOk(s.world, Durable(s)) && Bounded(s.world, s.retries, Durable(s)) && ProcOk(s)
  }

  // ---- Each step keeps it ----

  /** The mailbox grows: a later one accounts for at least as much. */
  ghost predicate MailLater(w: World, v: World) {
    && w.top <= v.top && v.prompts == w.prompts && v.done == w.done
    && (forall id :: id in w.mail ==>
          id in v.mail && v.mail[id].number == w.mail[id].number && (w.mail[id].settled ==> v.mail[id].settled))
    && (forall id :: id in v.mail && id !in w.mail ==> v.mail[id].number > w.top)
  }

  lemma RecordLater(w: World, v: World, rec: Record)
    requires MailLater(w, v) && MailOk(w)
    ensures forall n: nat :: n <= w.top + 1 && Accounted(w, n) ==> Accounted(v, n)
    ensures RecordOk(w, rec) ==> RecordOk(v, rec)
    ensures forall id :: id in w.mail ==> (Reached(rec, w.mail, id) ==> Reached(rec, v.mail, id))
  {
  }

  lemma FeedLater(s: System, v: World, rec: Record, fed: nat)
    requires MailLater(s.world, v) && MailOk(s.world) && FeedOk(s.clean, s.world, rec, fed)
    ensures FeedOk(s.clean, v, rec, fed)
  {
  }

  lemma ProcLater(s: System, v: World)
    requires Inv(s) && MailLater(s.world, v)
    ensures ProcOk(s.(world := v))
  {
    var t := s.(world := v);
    assert Durable(t) == Durable(s) && v.prompts == s.world.prompts && v.done == s.world.done;
    if !s.proc.Off? {
      RecordLater(s.world, v, s.proc.rec);
    }
    if (s.proc.Saving? || s.proc.Renamed?) && s.proc.next.ToFeed? {
      FeedLater(s, v, s.proc.rec, s.proc.next.fed);
    }
    if s.proc.Feeding? {
      FeedLater(s, v, s.proc.rec, s.proc.fed);
    }
    hide RecordOk, Accounted, MailOk, MailLater, FeedOk, Bounded, Reached;
  }

  lemma WorldKeepsInv(s: System, v: World)
    requires Inv(s) && MailLater(s.world, v) && MailOk(v)
    ensures Inv(s.(world := v))
  {
    RecordLater(s.world, v, Durable(s));
    ProcLater(s, v);
    hide RecordOk, Accounted, MailOk, MailLater, ProcOk;
  }

  /** A process that moves without saving, prompting or recovering. */
  lemma MoveKeepsInv(s: System, t: System)
    requires Inv(s) && t == s.(proc := t.proc, alive := t.alive) && ProcOk(t)
    ensures Inv(t)
  {
    hide ProcOk;
  }

  lemma RecordChanges(w: World, rec: Record)
    requires RecordOk(w, rec)
    ensures RecordOk(w, rec.(phase := NeedsInspection))
    ensures rec.pending.None? ==> forall phase: Phase, session, lifecycle :: !phase.Inflight? ==>
              RecordOk(w, Record(phase, session, None, rec.lastSeq, lifecycle))
    ensures Quiescent(rec.phase) ==> rec.pending.None?
    ensures rec.pending.Some? ==> rec.lastSeq < rec.pending.value.number
    ensures RecordOk(w, Record(New, None, None, rec.lastSeq, rec.lifecycle))
  {
  }

  lemma RecordSettles(w: World, rec: Record, after: Record)
    requires MailOk(w) && RecordOk(w, rec) && rec.pending.Some? && Quiescent(after.phase) && after.pending.None?
    requires var id := rec.pending.value.id; id in w.done || (id in w.mail && w.mail[id].settled)
    requires after.lastSeq == rec.pending.value.number
    ensures RecordOk(w, after) && Accounted(w, after.lastSeq + 1) && after.lastSeq <= w.top
  {
    forall id | id in w.mail && w.mail[id].number < after.lastSeq + 1
      ensures w.mail[id].settled || id in w.done
    {
      assert id != rec.pending.value.id ==> w.mail[id].number != w.mail[rec.pending.value.id].number;
    }
  }

  lemma BootOk(s: System)
    requires Inv(s) && Enabled(s, Boot)
    ensures Inv(Do(s, Boot))
  {
    RecordChanges(s.world, s.proc.rec);
    MoveKeepsInv(s, Do(s, Boot)) by { hide RecordOk, Accounted, Bounded, MailOk; }
  }

  lemma BeginsOk(s: System, a: Action)
    requires Inv(s) && Enabled(s, a) && (a.Run? || a.Crash?)
    ensures Inv(Do(s, a))
  {
    RecordChanges(s.world, Durable(s));
    hide RecordOk, Accounted, Bounded, MailOk, FeedOk;
    assert ProcOk(Do(s, a));
    MoveKeepsInv(s, Do(s, a));
  }

  lemma NativeEndsOk(s: System)
    requires Inv(s)
    ensures Inv(Do(s, NativeEnds))
  {
    hide RecordOk, Accounted, Bounded, MailOk, FeedOk, Follows;
    assert ProcOk(Do(s, NativeEnds));
    MoveKeepsInv(s, Do(s, NativeEnds));
  }

  lemma SaveFailsOk(s: System)
    requires Inv(s) && Enabled(s, SaveFails)
    ensures Inv(Do(s, SaveFails))
  {
    hide RecordOk, Accounted, Bounded, MailOk, FeedOk;
    assert ProcOk(Do(s, SaveFails));
    MoveKeepsInv(s, Do(s, SaveFails));
  }

  lemma RecoverOk(s: System, a: Action)
    requires Inv(s) && Enabled(s, a) && a.Recover?
    ensures Inv(Do(s, a))
  {
    var rec := Durable(s);
    RecordChanges(s.world, rec);
    if a.settled && rec.pending.Some? {
      RecordSettles(s.world, rec, Recovered(rec, true));
    }
    hide RecordOk, Accounted, Bounded, MailOk, FeedOk;
    assert ProcOk(Do(s, a));
    MoveKeepsInv(s, Do(s, a));
  }

  lemma SyncedOk(s: System)
    requires Inv(s) && Enabled(s, Synced)
    ensures Inv(Do(s, Synced))
  {
    hide RecordOk, Accounted, Bounded, MailOk, FeedOk, Unprompted;
    assert ProcOk(Do(s, Synced));
    MoveKeepsInv(s, Do(s, Synced));
  }

  lemma LaunchOk(s: System, a: Action)
    requires Inv(s) && Enabled(s, a) && (a.NoteSession? || a.Launched?)
    ensures Inv(Do(s, a))
  {
    RecordChanges(s.world, s.proc.rec);
    assert FeedOk(s.clean, s.world, s.proc.rec.(phase := Running(s.clean)), 0);
    hide RecordOk, Accounted, Bounded, MailOk, FeedOk;
    assert ProcOk(Do(s, a));
    MoveKeepsInv(s, Do(s, a));
  }

  /** A completed turn settles its message for the record. */
  lemma CompletedSettles(clean: bool, w: World, v: World, rec: Record, after: Record)
    requires MailOk(w) && RecordOk(w, rec) && rec.pending.Some?
    requires v == w.(done := w.done + multiset{rec.pending.value.id})
    requires after == rec.(phase := Running(clean), pending := None, lastSeq := rec.pending.value.number)
    ensures MailOk(v) && RecordOk(v, rec) && RecordOk(v, after) && FeedOk(clean, v, after, after.lastSeq) && Follows(rec, after)
  {
    DoneMore(w, v, multiset{}, rec);
    RecordSettles(v, rec, after);
    assert PendingOk(w, rec, rec.pending.value);
  }

  lemma CompletedOk(s: System)
    requires Inv(s) && Enabled(s, TurnEnds(true))
    ensures Inv(Do(s, TurnEnds(true)))
  {
    var rec, v := s.proc.rec, Do(s, TurnEnds(true)).world;
    DoneMore(s.world, v, s.retries, rec);
    CompletedSettles(s.clean, s.world, v, rec, Do(s, TurnEnds(true)).proc.rec);
    hide RecordOk, Accounted, MailOk, Bounded, FeedOk, Follows;
  }

  lemma DoneMore(w: World, v: World, retries: multiset<Id>, rec: Record)
    requires v == w.(done := v.done) && w.done <= v.done
    ensures forall n: nat :: Accounted(w, n) ==> Accounted(v, n)
    ensures RecordOk(w, rec) ==> RecordOk(v, rec)
    ensures MailOk(w) ==> MailOk(v)
    ensures Bounded(w, retries, rec) ==> Bounded(v, retries, rec)
  {
  }

  lemma TurnOk(s: System, completed: bool)
    requires Inv(s) && Enabled(s, TurnEnds(completed))
    ensures Inv(Do(s, TurnEnds(completed)))
  {
    if completed {
      CompletedOk(s);
    } else {
      RecordChanges(s.world, s.proc.rec);
      hide RecordOk, Accounted, Bounded, MailOk;
      assert ProcOk(Do(s, TurnEnds(false)));
      MoveKeepsInv(s, Do(s, TurnEnds(false)));
    }
  }

  lemma FailsOk(s: System)
    requires Inv(s) && Enabled(s, Fails)
    ensures Inv(Do(s, Fails))
  {
    hide RecordOk, Accounted, Bounded, MailOk, FeedOk;
    assert ProcOk(Do(s, Fails));
    MoveKeepsInv(s, Do(s, Fails));
  }

  lemma ClosingOk(s: System, a: Action)
    requires Inv(s) && Enabled(s, a) && (a.Disposed? || a.Closed?)
    ensures Inv(Do(s, a))
  {
    var rec := s.proc.rec;
    assert RecordOk(s.world, rec.(phase := NeedsInspection)) by { RecordChanges(s.world, rec); }
    assert rec.phase.Active? ==> RecordOk(s.world, rec.(phase := Idle)) by { RecordChanges(s.world, rec); }
    hide RecordOk, Accounted, Bounded, MailOk, FeedOk;
    assert ProcOk(Do(s, a));
    MoveKeepsInv(s, Do(s, a));
  }

  /** A message between the watcher's last number and the next is settled; one that the record is past
      was accounted for. */
  lemma EventOk(s: System, id: Id)
    requires Inv(s) && Enabled(s, Event(id))
    ensures Inv(Do(s, Event(id)))
  {
    var rec, mail := s.proc.rec, s.world.mail[id];
    FedAccounts(s.world, s.proc.fed, id, rec.lastSeq);
    hide Accounted, Bounded, MailOk;
    assert ProcOk(Do(s, Event(id)));
    MoveKeepsInv(s, Do(s, Event(id)));
  }

  lemma FedAccounts(w: World, fed: nat, id: Id, lastSeq: nat)
    requires MailOk(w) && Fed(w.mail, fed, id) && Accounted(w, fed + 1) && Accounted(w, lastSeq + 1)
    ensures Accounted(w, w.mail[id].number) && w.mail[id].number <= w.top
    ensures w.mail[id].settled || w.mail[id].number <= lastSeq ==> Accounted(w, w.mail[id].number + 1)
  {
    forall other | other in w.mail && w.mail[other].number <= w.mail[id].number && other != id
      ensures w.mail[other].settled || other in w.done
    {
      assert w.mail[other].number != w.mail[id].number;
    }
  }

  lemma PromptOk(s: System)
    requires Inv(s) && Enabled(s, Prompt)
    ensures Inv(Do(s, Prompt))
  {
    var w, v, rec := s.world, Do(s, Prompt).world, s.proc.rec;
    forall n: nat | Accounted(w, n)
      ensures Accounted(v, n)
    {
    }
    assert RecordOk(v, rec);
    PromptBounded(w, s.retries, rec);
    hide Accounted, Bounded, RecordOk;
  }

  lemma PromptBounded(w: World, retries: multiset<Id>, rec: Record)
    requires Bounded(w, retries, rec) && rec.pending.Some? && Names(w, rec.pending.value)
    requires w.prompts[rec.pending.value.id] <= retries[rec.pending.value.id]
    ensures Bounded(w.(prompts := w.prompts + multiset{rec.pending.value.id}), retries, rec)
  {
  }

  /** Replacing the file: what the old record reached, the new one reaches, or a retry is counted. */
  lemma RenameBounded(w: World, retries: multiset<Id>, before: Record, rec: Record, retry: Option<Id>)
    requires Bounded(w, retries, before) && RecordOk(w, before) && MailOk(w)
    requires Follows(before, rec) || (retry.Some? && RetireOk(before, rec, retry))
    ensures Bounded(w, if retry.Some? then retries + multiset{retry.value} else retries, rec)
  {
    hide Accounted;
    var counted := if retry.Some? then retries + multiset{retry.value} else retries;
    forall id
      ensures w.prompts[id] <= counted[id] + if Reached(rec, w.mail, id) then 1 else 0
    {
      assert w.prompts[id] <= retries[id] + if Reached(before, w.mail, id) then 1 else 0;
      assert counted[id] == retries[id] + if retry == Some(id) then 1 else 0;
    }
  }

  lemma RenameOk(s: System)
    requires Inv(s) && Enabled(s, Rename)
    ensures Inv(Do(s, Rename))
  {
    var t, rec, next := Do(s, Rename), s.proc.rec, s.proc.next;
    var retry := if next.ToRetire? then next.retry else None;
    RenameBounded(s.world, s.retries, Durable(s), rec, retry);
    if next.ToPrompt? {
      UnpromptedYet(s, rec);
    }
    hide RecordOk, Accounted, MailOk, Bounded;
  }

  lemma UnpromptedYet(s: System, rec: Record)
    requires Inv(s) && rec.phase.Inflight? && RecordOk(s.world, rec)
    requires Durable(s).pending.None? && Durable(s).lastSeq == rec.lastSeq
    ensures Unprompted(s.world, s.retries, rec)
  {
    var notice := rec.pending.value;
    assert PendingOk(s.world, rec, notice);
    assert !Reached(Durable(s), s.world.mail, notice.id);
  }

  lemma MailStep(s: System, a: Action)
    requires MailOk(s.world) && Enabled(s, a) && (a.Arrive? || a.Settle?)
    ensures MailOk(Do(s, a).world) && MailLater(s.world, Do(s, a).world)
    ensures Do(s, a) == s.(world := Do(s, a).world)
  {
  }

  lemma MailOkStep(s: System, a: Action)
    requires Inv(s) && Enabled(s, a) && (a.Arrive? || a.Settle?)
    ensures Inv(Do(s, a))
  {
    MailStep(s, a);
    hide MailOk, MailLater, Do, Enabled;
    WorldKeepsInv(s, Do(s, a).world);
  }

  lemma DoKeepsInv(s: System, a: Action)
    requires Inv(s) && Enabled(s, a)
    ensures Inv(Do(s, a))
  {
    hide Inv, Do, Enabled;
    match a
    case Arrive(_, _) => MailOkStep(s, a);
    case Settle(_) => MailOkStep(s, a);
    case NativeEnds => NativeEndsOk(s);
    case Run => BeginsOk(s, a);
    case Recover(_, _, _) => RecoverOk(s, a);
    case Rename => RenameOk(s);
    case Synced => SyncedOk(s);
    case SaveFails => SaveFailsOk(s);
    case Boot => BootOk(s);
    case NoteSession(_) => LaunchOk(s, a);
    case Launched => LaunchOk(s, a);
    case Event(id) => EventOk(s, id);
    case Prompt => PromptOk(s);
    case TurnEnds(completed) => TurnOk(s, completed);
    case Fails => FailsOk(s);
    case Disposed(_, _) => ClosingOk(s, a);
    case Closed(_, _) => ClosingOk(s, a);
    case Crash => BeginsOk(s, a);
  }

  // ---- Whole runs ----

  lemma InitInv(s: System)
    requires Init(s)
    ensures Inv(s)
  {
  }

  lemma {:induction false} RunKeepsInv(run: seq<System>, i: nat)
    requires Runs(run) && i < |run|
    ensures Inv(run[i])
  {
    hide Init, Inv, Do, Enabled;
    if i == 0 {
      InitInv(run[0]);
    } else {
      RunKeepsInv(run, i - 1);
      assert Step(run[i - 1], run[i]);
      var a :| Enabled(run[i - 1], a) && run[i] == Do(run[i - 1], a);
      DoKeepsInv(run[i - 1], a);
    }
  }

  /** In every reachable state: a message is prompted at most once and once more for each recovery that
      named it for retry; every message up to the cursor is settled or had a completed turn; the pending
      message is beyond the cursor; a new or idle state has none. */
  lemma PromptedOncePerRetry(run: seq<System>, i: nat)
    requires Runs(run) && i < |run|
    ensures forall id :: run[i].world.prompts[id] <= 1 + run[i].retries[id]
    ensures var rec := Durable(run[i]);
            && (rec.phase.New? || rec.phase.Idle? ==> rec.pending.None?)
            && (rec.pending.Some? ==> rec.pending.value.number > rec.lastSeq)
            && forall id :: id in run[i].world.mail && run[i].world.mail[id].number <= rec.lastSeq ==>
                 run[i].world.mail[id].settled || id in run[i].world.done
  {
    RunKeepsInv(run, i);
    var s := run[i];
    forall id
      ensures s.world.prompts[id] <= 1 + s.retries[id]
    {
      assert s.world.prompts[id] <= s.retries[id] + if Reached(Durable(s), s.world.mail, id) then 1 else 0;
    }
    assert Durable(s).pending.Some? ==> PendingOk(s.world, Durable(s), Durable(s).pending.value);
  }

  /** No prompt and no turn since. */
  predicate SameTurns(s: System, t: System) {
    t.world.prompts == s.world.prompts && t.world.done == s.world.done
  }

  ghost predicate Grows(s: System, t: System) {
    && Durable(s).lastSeq <= Durable(t).lastSeq && s.retries <= t.retries
    && s.world.prompts <= t.world.prompts && s.world.done <= t.world.done
  }

  lemma GrowsSelf(s: System)
    ensures Grows(s, s)
  {
  }

  lemma DoGrows(s: System, a: Action)
    requires Inv(s) && Enabled(s, a)
    ensures Grows(s, Do(s, a))
  {
    hide RecordOk, Accounted, Bounded, MailOk, FeedOk, Unprompted;
  }

  /** The cursor never goes back, over any runs, crashes and recoveries. */
  lemma {:induction false} CursorNeverGoesBack(run: seq<System>, i: nat, j: nat)
    requires Runs(run) && i <= j < |run|
    ensures Grows(run[i], run[j])
    decreases j - i
  {
    if i == j {
    } else {
      CursorNeverGoesBack(run, i, j - 1);
      RunKeepsInv(run, j - 1);
      assert Step(run[j - 1], run[j]);
      var a :| Enabled(run[j - 1], a) && run[j] == Do(run[j - 1], a);
      DoGrows(run[j - 1], a);
    }
  }

  // ---- What a turn leaves ----

  /** The message is still pending behind the same cursor, in a phase that `run` refuses. */
  predicate Stuck(rec: Record, notice: Notice, lastSeq: nat) {
    rec.pending == Some(notice) && rec.lastSeq == lastSeq && (rec.phase.Inflight? || rec.phase.NeedsInspection?)
  }

  /** Nothing is pending, and the cursor is at this message. */
  predicate Consumed(clean: bool, rec: Record, number: nat) {
    rec.pending.None? && rec.lastSeq == number && rec.phase == if clean then Active else Idle
  }

  /** The end of a turn, once it is saved: a completed turn is in the log, its message is consumed and the
      loop goes on from there; any other turn leaves the message pending and stops the session. */
  lemma TurnConcludes(s: System, completed: bool)
    requires Inv(s) && Enabled(s, TurnEnds(completed))
    ensures var t := Do(Do(Do(s, TurnEnds(completed)), Rename), Synced);
            var notice := s.proc.rec.pending.value;
            && t.world.done == s.world.done + (if completed then multiset{notice.id} else multiset{})
            && t.disk.Some?
            && if completed then t.proc == Feeding(t.disk.value, notice.number) && Consumed(s.clean, t.disk.value, notice.number)
               else t.proc == Disposing(t.disk.value) && Stuck(t.disk.value, notice, Durable(s).lastSeq)
                    && t.disk.value.phase.NeedsInspection?
  {
    assert s.disk == Some(s.proc.rec) by { InTurnSaved(s); }
    hide Inv, Fed, Recovers, OnEvent, OnClosed, BootTo, Recovered;
  }

  lemma InTurnSaved(s: System)
    requires Inv(s) && s.proc.InTurn?
    ensures s.disk == Some(s.proc.rec)
  {
  }

  /** An end that fails and is recorded leaves a state that needs a recovery. */
  lemma FailedEnd(s: System, a: Action)
    requires (s.proc.Disposing? && a == Action.Disposed(false, true)) || (s.proc.Closing? && a == Closed(false, true))
    ensures var t := Do(Do(Do(s, a), Rename), Synced);
            && t.disk == Some(s.proc.rec.(phase := NeedsInspection))
            && if a.Disposed? then t.proc == Closing(t.disk.value, true) else t.proc.Off?
  {
  }

  /** A session that was active and is closed without an error leaves an idle state, and no process. */
  lemma CleanClose(s: System, marked: bool)
    requires s.clean && s.proc.Closing? && !s.proc.failed && s.proc.rec.phase.Active?
    ensures var t := Do(Do(Do(s, Closed(true, marked)), Rename), Synced);
            t.proc.Off? && t.disk == Some(s.proc.rec.(phase := Idle)) && !t.alive
  {
  }

  /** `t` follows `s` with this message prompted. If its turn completed, the loop goes on only from a saved
      state that consumed it; if not, it does not go on, and the message is pending in the file, in a state
      that needs a recovery, and in memory, behind the cursor of before. */
  predicate After(s: System, t: System, notice: Notice, lastSeq: nat) {
    && t.disk.Some?
    && if t.world.done == s.world.done + multiset{notice.id} then
         && (Consumed(s.clean, t.disk.value, notice.number) || Stuck(t.disk.value, notice, lastSeq))
         && (t.proc.Off?
             || (t.proc.Disposing? && Consumed(s.clean, t.proc.rec, notice.number))
             || (t.proc == Feeding(t.disk.value, notice.number) && Consumed(s.clean, t.disk.value, notice.number)))
       else
         && t.world.done == s.world.done && Stuck(t.disk.value, notice, lastSeq)
         && (t.proc.Off? || (t.proc.Disposing? && Stuck(t.proc.rec, notice, lastSeq)))
  }

  lemma AfterEarlier(s: System, before: System, t: System, notice: Notice, lastSeq: nat)
    requires After(before, t, notice, lastSeq) && before.world.done == s.world.done && before.clean == s.clean
    ensures After(s, t, notice, lastSeq)
  {
  }

  lemma AfterGoes(s: System, t: System, notice: Notice, lastSeq: nat)
    requires After(s, t, notice, lastSeq)
    ensures t.proc.Feeding? || t.proc.Disposing? || t.proc.Off?
  {
  }

  lemma StuckAfter(s: System, t: System, notice: Notice, lastSeq: nat)
    requires SameTurns(s, t) && t.disk.Some? && Stuck(t.disk.value, notice, lastSeq)
    requires t.proc.Off? || (t.proc.Disposing? && Stuck(t.proc.rec, notice, lastSeq))
    ensures After(s, t, notice, lastSeq)
  {
    OneMore(s.world.done, notice.id);
  }

  lemma OneMore(done: multiset<Id>, id: Id)
    ensures done + multiset{id} != done
  {
    assert (done + multiset{id})[id] == done[id] + 1;
  }

  lemma FeedingSaved(s: System)
    requires Inv(s) && s.proc.Feeding?
    ensures s.disk == Some(s.proc.rec) && s.proc.rec.pending.None?
  {
  }

  // ---- Uncertain states ----

  /** No process works on a state that is neither new nor idle. */
  predicate Uncertain(s: System) {
    && s.disk.Some? && !s.disk.value.phase.New? && !s.disk.value.phase.Idle?
    && (s.proc.Off? || s.proc == Booting(s.disk.value))
  }

  /** Such a state stays as it is, and nothing is prompted, until an operator recovers it. */
  lemma UncertainHolds(s: System, a: Action)
    requires Uncertain(s) && Enabled(s, a) && !a.Recover?
    ensures Uncertain(Do(s, a)) && Do(s, a).disk == s.disk && SameTurns(s, Do(s, a))
  {
  }

  /** The file claims that nothing of a session is left running. */
  predicate Quiet(rec: Record) {
    rec.phase.New? || (rec.phase.Idle? && rec.lifecycle)
  }

  predicate SessionMayRun(proc: Proc) {
    match proc
    case Launching(_) => true
    case Feeding(_, _) => true
    case Prompting(_) => true
    case InTurn(_) => true
    case Disposing(_) => true
    case Closing(_, _) => true
    case Saving(_, next) => next.ToFeed? || next.ToPrompt? || next.ToDispose? || next.ToClose?
    case Renamed(_, next) => next.ToLaunch? || next.ToFeed? || next.ToPrompt? || next.ToDispose? || next.ToClose?
    case _ => false
  }

  /** With an adapter that needs a clean shutdown, a quiet file means that nothing is left. */
  ghost predicate CleanOk(s: System) {
    s.clean ==>
      && (s.alive ==> !Quiet(Durable(s)))
      && (SessionMayRun(s.proc) ==> !Quiet(Durable(s)) && s.proc.rec.lifecycle)
      && match s.proc
         case Saving(rec, next) => (Quiet(rec) ==> !s.alive && !SessionMayRun(s.proc)) && (next.ToLaunch? ==> rec.lifecycle)
         case Launching(rec) => !Quiet(rec)
         case _ => true
  }

  /** The command works on the file and has no session. */
  predicate WithoutSession(proc: Proc) {
    match proc
    case Booting(_) => true
    case Saving(_, next) => next.ToBoot? || next.ToLaunch? || next.ToRetire?
    case Renamed(_, next) => next.ToBoot? || next.ToLaunch? || next.ToRetire?
    case _ => false
  }

  lemma StartsOff(s: System)
    requires Init(s)
    ensures !WithoutSession(s.proc)
  {
  }

  lemma StepKeepsApart(s: System, a: Action)
    requires Enabled(s, a) && (WithoutSession(s.proc) ==> !s.alive)
    ensures WithoutSession(Do(s, a).proc) ==> !Do(s, a).alive
  {
    hide Recovers, Fed;
  }

  /** No process of an earlier session is left when a session is launched or a state is recovered. */
  lemma {:induction false} SessionsNeverMeet(run: seq<System>, i: nat)
    requires Runs(run) && i < |run|
    ensures WithoutSession(run[i].proc) ==> !run[i].alive
  {
    hide Enabled, Do, WithoutSession;
    if i == 0 {
      assert !WithoutSession(run[0].proc) by { StartsOff(run[0]); }
    } else {
      SessionsNeverMeet(run, i - 1);
      assert Step(run[i - 1], run[i]);
      var a :| Enabled(run[i - 1], a) && run[i] == Do(run[i - 1], a);
      StepKeepsApart(run[i - 1], a);
    }
  }

  lemma DoKeepsClean(s: System, a: Action)
    requires Inv(s) && CleanOk(s) && Enabled(s, a)
    ensures CleanOk(Do(s, a))
  {
    hide RecordOk, Accounted, Bounded, MailOk, Unprompted;
  }

  /** An idle or new state is saved only when the session was closed and its processes are gone, so a
      crash during a session always leaves a state that needs recovery. */
  lemma {:induction false} QuietMeansStopped(run: seq<System>, i: nat)
    requires Runs(run) && i < |run|
    ensures CleanOk(run[i])
    ensures run[i].clean && Quiet(Durable(run[i])) ==> !run[i].alive
    ensures run[i].clean && SessionMayRun(run[i].proc) ==> run[i].proc.rec.lifecycle
  {
    hide Inv, Do, Enabled;
    if i == 0 {
    } else {
      QuietMeansStopped(run, i - 1);
      RunKeepsInv(run, i - 1);
      assert Step(run[i - 1], run[i]);
      var a :| Enabled(run[i - 1], a) && run[i] == Do(run[i - 1], a);
      DoKeepsClean(run[i - 1], a);
    }
  }

  // ---- The commands ----

  /** A state that a run refuses: a session may have been left in the middle of its work. */
  predicate NeedsRecovery(clean: bool, rec: Record) {
    match rec.phase
    case New => false
    case Idle => clean && !rec.lifecycle
    case _ => true
  }

  /** The operator names the saved session and the pending message, or says that there is none. */
  predicate Named(rec: Record, discard: string, message: Option<Id>) {
    && (rec.session.None? || rec.session == Some("") ==> discard == "unknown")
    && (rec.session.Some? && rec.session != Some("") ==> rec.session == Some(discard))
    && (rec.pending.None? <==> message.None?)
    && (rec.pending.Some? ==> message == Some(rec.pending.value.id))
  }

  /** What the operator says of the message is what the mailbox shows. */
  predicate AsShown(s: System, message: Option<Id>, settled: bool) {
    if message.None? then settled
    else message.value in s.world.mail && (settled <==> s.world.mail[message.value].settled)
  }

  /** A new state without session and message; the cursor moves to the message exactly if it is settled. */
  predicate IsRetired(before: Record, settled: bool, rec: Record) {
    && rec.phase.New? && rec.session.None? && rec.pending.None? && rec.lifecycle == before.lifecycle
    && (before.pending.Some? && settled ==> rec.lastSeq == before.pending.value.number)
    && (before.pending.None? || !settled ==> rec.lastSeq == before.lastSeq)
  }

  lemma RecoversNamed(s: System, discard: string, message: Option<Id>, settled: bool)
    ensures Recovers(s, discard, message, settled)
            <==> s.disk.Some? && NeedsRecovery(s.clean, s.disk.value) && Named(s.disk.value, discard, message)
                 && AsShown(s, message, settled)
    ensures s.disk.Some? ==> IsRetired(s.disk.value, settled, Recovered(s.disk.value, settled))
  {
  }

  lemma HasStart(run: seq<System>)
    requires Runs(run)
    ensures |run| > 0
  {
  }

  lemma RunMore(run: seq<System>, a: Action)
    requires Runs(run) && Enabled(run[|run| - 1], a)
    ensures Runs(run + [Do(run[|run| - 1], a)])
  {
    var longer := run + [Do(run[|run| - 1], a)];
    assert Step(run[|run| - 1], longer[|run|]);
  }

  /** `run` and `recover` of one state directory. Mail comes in and is settled at any time. */
  class Manager {
    var sys: System
    ghost var run: seq<System>

    ghost predicate Valid()
      reads this
    {
      Runs(run) && run[|run| - 1] == sys && Inv(sys)
    }

    constructor (clean: bool)
      ensures Valid() && sys == System(clean, None, Off, World(map[], 0, multiset{}, multiset{}), multiset{}, false)
    {
      var start := System(clean, None, Off, World(map[], 0, multiset{}, multiset{}), multiset{}, false);
      sys := start;
      run := [start];
      InitInv(start);
    }

    method Advance(a: Action)
      requires Valid() && Enabled(sys, a)
      modifies this
      ensures Valid() && sys == Do(old(sys), a) && run == old(run) + [sys]
    {
      RunMore(run, a);
      DoKeepsInv(sys, a);
      hide Runs, Inv, Enabled, Do;
      sys := Do(sys, a);
      run := run + [sys];
    }

    /** The mailbox goes on, and native processes may end. */
    method Mailbox()
      requires Valid()
      modifies this
      ensures Valid() && old(run) <= run && sys == old(sys).(world := sys.world, alive := sys.alive)
      ensures SameTurns(old(sys), sys)
    {
      hide Runs, Inv;
      var steps: nat :| true;
      for n := 0 to steps
        invariant Valid() && old(run) <= run && sys == old(sys).(world := sys.world, alive := sys.alive)
        invariant SameTurns(old(sys), sys)
      {
        var a: Action :| true;
        if (a.Arrive? || a.Settle? || a.NativeEnds?) && Enabled(sys, a) {
          Advance(a);
        }
      }
    }

    /** `save`: it may fail before or after it replaces the file, or the process may end there. */
    method Save() returns (ok: bool)
      requires Valid() && sys.proc.Saving?
      modifies this
      ensures Valid() && old(run) <= run
      ensures ok ==> sys.proc == AfterSave(old(sys).proc.rec, old(sys).proc.next) && sys.disk == Some(old(sys).proc.rec)
      ensures !ok ==> sys.proc.Off? || sys.proc == AfterFailure(old(sys).proc.rec, old(sys).proc.next)
      ensures sys.disk == old(sys).disk || sys.disk == Some(old(sys).proc.rec)
      ensures SameTurns(old(sys), sys) && sys.clean == old(sys).clean
    {
      hide Runs, Inv, BootTo, OnEvent, OnTurnEnd, OnClosed, Fed, Has, Recovers, AfterFailure, AfterSave;
      if * {
        Advance(Crash);
        return false;
      }
      if * {
        Advance(SaveFails);
        return false;
      }
      Advance(Rename);
      Mailbox();
      if * {
        Advance(Crash);
        return false;
      }
      if * {
        Advance(SaveFails);
        return false;
      }
      Advance(Synced);
      ok := true;
    }

    /** The `finally` block: stop the watcher, close the session, and release an active state only if
        both succeeded. */
    method Close()
      requires Valid() && sys.proc.Disposing?
      modifies this
      ensures Valid() && old(run) <= run && sys.proc.Off? && SameTurns(old(sys), sys)
    {
      hide Runs, Inv, BootTo, OnEvent, OnTurnEnd, OnClosed, Fed, Has, Recovers, Recovered;
      var disposed: bool, marked: bool :| sys.clean ==> disposed || marked;
      Advance(Disposed(disposed, marked));
      if sys.proc.Saving? {
        var saved := Save();
      }
      if sys.proc.Closing? {
        CloseSession();
      }
    }

    method CloseSession()
      requires Valid() && sys.proc.Closing?
      modifies this
      ensures Valid() && old(run) <= run && sys.proc.Off? && SameTurns(old(sys), sys)
    {
      hide Runs, Inv, BootTo, OnEvent, OnTurnEnd, Fed, Has, Recovers, Recovered;
      Mailbox();
      var closed: bool, marked: bool :| sys.clean ==> closed || marked;
      Advance(Closed(closed, marked));
      if sys.proc.Saving? {
        var saved := Save();
      }
    }

    /** One message that the watcher gives: skipped, or prompted and concluded. The log of completed turns
        tells which: without one, the cursor stays in memory and in the file. */
    method Handle(id: Id)
      requires Valid() && Enabled(sys, Event(id))
      modifies this
      ensures Valid() && old(run) <= run
      ensures sys.world.prompts == old(sys).world.prompts
              || sys.world.prompts == old(sys).world.prompts + multiset{id}
      ensures old(sys).world.mail[id].settled || old(sys).world.mail[id].number <= old(sys).proc.rec.lastSeq ==>
                sys.proc == Feeding(old(sys).proc.rec, old(sys).world.mail[id].number) && sys.world == old(sys).world
      ensures !old(sys).world.mail[id].settled && old(sys).world.mail[id].number > old(sys).proc.rec.lastSeq ==>
                var notice := Notice(id, old(sys).world.mail[id].number);
                || After(old(sys), sys, notice, old(sys).proc.rec.lastSeq)
                || (SameTurns(old(sys), sys) && sys.disk == old(sys).disk
                    && (sys.proc.Off? || (sys.proc.Disposing? && Stuck(sys.proc.rec, notice, old(sys).proc.rec.lastSeq))))
      ensures sys.proc.Feeding? || sys.proc.Disposing? || sys.proc.Off?
    {
      hide Runs, Inv, BootTo, OnClosed, Fed, Recovers, Recovered, Has, After;
      FeedingSaved(sys);
      Advance(Event(id));
      if sys.proc.Feeding? {
        return;
      }
      ghost var notice := sys.proc.rec.pending.value;
      var ok := Save();
      if ok {
        ghost var before := sys;
        var completed, saved := Turn(id);
        AfterEarlier(old(sys), before, sys, notice, old(sys).proc.rec.lastSeq);
        AfterGoes(old(sys), sys, notice, old(sys).proc.rec.lastSeq);
      } else {
        if sys.disk != old(sys).disk {
          StuckAfter(old(sys), sys, notice, old(sys).proc.rec.lastSeq);
        }
      }
    }

    /** The prompt and its turn, to the saved result. */
    method Turn(id: Id) returns (completed: bool, saved: bool)
      requires Valid() && sys.proc.Prompting? && sys.proc.rec.pending.Some? && sys.proc.rec.pending.value.id == id
      requires sys.disk == Some(sys.proc.rec) && sys.proc.rec.phase.Inflight?
      modifies this
      ensures Valid() && old(run) <= run
      ensures sys.world.prompts == old(sys).world.prompts + multiset{id}
      ensures completed <==> sys.world.done == old(sys).world.done + multiset{id}
      ensures After(old(sys), sys, old(sys).proc.rec.pending.value, old(sys).proc.rec.lastSeq)
      ensures sys.proc.Feeding? <==> completed && saved
      ensures saved && !completed ==> sys.proc.Disposing? && sys.disk == Some(sys.proc.rec)
    {
      hide Runs, Inv, BootTo, OnClosed, OnEvent, Fed, Recovers, Recovered;
      completed, saved := false, false;
      OneMore(sys.world.done, id);
      Advance(Prompt);
      Mailbox();
      // The session may fail in the turn, or the process may end there.
      if * {
        Advance(Crash);
        return;
      }
      if * {
        Advance(Fails);
        return;
      }
      completed :| true;
      saved := EndTurn(completed);
    }

    /** The end of the turn, and saving what it means. */
    method EndTurn(completed: bool) returns (saved: bool)
      requires Valid() && sys.proc.InTurn? && sys.proc.rec.pending.Some?
      requires sys.disk == Some(sys.proc.rec) && sys.proc.rec.phase.Inflight?
      modifies this
      ensures Valid() && old(run) <= run && sys.world.prompts == old(sys).world.prompts
      ensures var id := old(sys).proc.rec.pending.value.id;
              sys.world.done == old(sys).world.done + (if completed then multiset{id} else multiset{})
      ensures After(old(sys), sys, old(sys).proc.rec.pending.value, old(sys).proc.rec.lastSeq)
      ensures sys.proc.Feeding? <==> completed && saved
      ensures saved && !completed ==> sys.proc.Disposing? && sys.disk == Some(sys.proc.rec)
    {
      hide Runs, Inv, BootTo, OnClosed, OnEvent, Fed, Recovers, Recovered;
      OneMore(sys.world.done, sys.proc.rec.pending.value.id);
      Advance(TurnEnds(completed));
      saved := Save();
    }

    /** The native session from its launch to its end. */
    method Serve()
      requires Valid() && sys.proc.Launching?
      modifies this
      ensures Valid() && old(run) <= run && sys.proc.Off?
    {
      hide Runs, Inv, BootTo, OnClosed, OnEvent, OnTurnEnd, Fed, Has, Recovers, Recovered;
      var session: string :| true;
      Advance(NoteSession(session));
      if * {
        Advance(Crash);
        return;
      }
      if * {
        Advance(Fails);
      } else {
        Advance(Launched);
        var saved := Save();
        var events: nat :| true;
        for n := 0 to events
          invariant Valid() && old(run) <= run && (sys.proc.Feeding? || sys.proc.Disposing? || sys.proc.Off?)
        {
          if !sys.proc.Feeding? {
            break;
          }
          Mailbox();
          var id: Id :| true;
          if Enabled(sys, Event(id)) {
            Handle(id);
          }
        }
        if sys.proc.Feeding? {
          Advance(Fails);
        }
      }
      if sys.proc.Disposing? {
        Close();
      }
    }

    /** `run`: an uncertain state is left as it is, apart from the mark on an idle record of a version
        that did not close its sessions. `refused` asks for a recovery; `locked` says that a process of an earlier session
        still holds the lock. */
    method Worker() returns (refused: bool, locked: bool)
      requires Valid() && sys.proc.Off?
      modifies this
      ensures Valid() && old(run) <= run && sys.proc.Off? && Grows(old(sys), sys)
      ensures locked <==> old(sys).alive
      ensures locked ==> sys == old(sys) && !refused
      ensures refused ==> SameTurns(old(sys), sys)
      ensures !locked ==>
              var rec := Durable(old(sys));
              && (!rec.phase.New? && !rec.phase.Idle? ==> refused && sys.disk == old(sys).disk)
              && (LegacyIdle(old(sys).clean, rec) ==>
                    && SameTurns(old(sys), sys)
                    && (sys.disk == old(sys).disk || sys.disk == Some(rec.(phase := NeedsInspection)))
                    && (refused ==> sys.disk.value.phase.NeedsInspection?))
              && (refused ==> (!rec.phase.New? && !rec.phase.Idle?) || LegacyIdle(old(sys).clean, rec))
    {
      hide Runs, Inv, Grows, OnClosed, OnEvent, OnTurnEnd, Fed, Has, Recovers, Recovered;
      HasStart(run);
      ghost var at := |run| - 1;
      refused, locked := false, sys.alive;
      if locked {
        assert Grows(sys, sys) by { GrowsSelf(sys); }
        return;
      }
      Advance(Run);
      if sys.proc.Saving? {
        var saved := Save();
      }
      if sys.proc.Booting? {
        refused := Launch();
      }
      CursorNeverGoesBack(run, at, |run| - 1);
    }

    /** `worker` from its first look at the state. */
    method Launch() returns (refused: bool)
      requires Valid() && sys.proc.Booting? && sys.disk == Some(sys.proc.rec)
      modifies this
      ensures Valid() && old(run) <= run && sys.proc.Off?
      ensures refused ==> SameTurns(old(sys), sys)
      ensures var rec := old(sys).proc.rec;
              && (!rec.phase.New? && !rec.phase.Idle? ==> refused && sys.disk == old(sys).disk)
              && (LegacyIdle(old(sys).clean, rec) ==>
                    && SameTurns(old(sys), sys)
                    && (sys.disk == old(sys).disk || sys.disk == Some(rec.(phase := NeedsInspection)))
                    && (refused ==> sys.disk == Some(rec.(phase := NeedsInspection))))
              && (refused ==> (!rec.phase.New? && !rec.phase.Idle?) || LegacyIdle(old(sys).clean, rec))
    {
      hide Runs, Inv, OnClosed, OnEvent, OnTurnEnd, Fed, Has, Recovers, Recovered;
      Advance(Boot);
      if sys.proc.Off? {
        return true;
      }
      var ok := Save();
      if sys.proc.Launching? {
        Serve();
        return false;
      }
      refused := ok;
    }

    /** `recover`: whether it accepted what the operator said, and saved it. */
    method RecoverSession(discard: string, message: Option<Id>, settled: bool) returns (accepted: bool, ok: bool)
      requires Valid() && sys.proc.Off?
      modifies this
      ensures Valid() && old(run) <= run && sys.proc.Off? && Grows(old(sys), sys)
      ensures accepted <==>
                && !old(sys).alive && old(sys).disk.Some? && NeedsRecovery(old(sys).clean, old(sys).disk.value)
                && Named(old(sys).disk.value, discard, message) && AsShown(old(sys), message, settled)
      ensures SameTurns(old(sys), sys)
      ensures ok ==> accepted && sys.disk.Some? && IsRetired(old(sys).disk.value, settled, sys.disk.value)
      ensures !ok ==> sys.disk == old(sys).disk
                      || (accepted && sys.disk.Some? && IsRetired(old(sys).disk.value, settled, sys.disk.value))
    {
      RecoversNamed(sys, discard, message, settled);
      hide Runs, Inv, Grows, BootTo, OnClosed, OnEvent, OnTurnEnd, Fed, Has, Recovers, Recovered;
      HasStart(run);
      ghost var at := |run| - 1;
      accepted, ok := !sys.alive && Recovers(sys, discard, message, settled), false;
      if accepted {
        Advance(Recover(discard, message, settled));
        ok := Save();
      }
      CursorNeverGoesBack(run, at, |run| - 1);
    }
  }
}
