/** The ledger of notices admitted to an OpenHands conversation
    (integrations/openhands_receiver.py), over any number of launches, crashes and recoveries. */
module AdmissionLedger {
  import opened Common

  type Id = string

  datatype Phase = Idle | Active

  datatype Notice = Notice(id: Id, seqNo: int)

  datatype Binding = Binding(conversation: string, peer: string, database: string, program: string)

  datatype Record = Record(binding: Binding, phase: Phase, pending: Option<Notice>, lastSeq: int)

  datatype Error =
    | RecoveryRequired | BindingDiffers | RepeatedAdmission | Uncorrelated
    | NothingUncertain | OtherConversation | OtherNotice | SaveFailed

  datatype Disposition = Retry | Consumed

  /** The record is at or beyond the message `id` with number `seqNo`. */
  predicate Reached(rec: Option<Record>, id: Id, seqNo: int) {
    rec.Some? && (seqNo <= rec.value.lastSeq || (rec.value.pending.Some? && rec.value.pending.value.id == id))
  }

  /** Only what the record has reached was admitted without a recovery for each admission. */
  ghost predicate Bounded(rec: Option<Record>, number: Id -> int, admitted: multiset<Id>, retries: multiset<Id>) {
    forall id :: admitted[id] <= retries[id] + if Reached(rec, id, number(id)) then 1 else 0
  }

  /** An idle record has nothing pending; what is pending is beyond the cursor. */
  predicate RecordOk(rec: Record, number: Id -> int) {
    && (rec.pending.Some? ==>
          rec.phase.Active? && rec.lastSeq < rec.pending.value.seqNo && rec.pending.value.seqNo == number(rec.pending.value.id))
    && 0 <= rec.lastSeq
  }

  /** `after` forgets nothing that `before` reached. */
  predicate Follows(before: Option<Record>, after: Option<Record>) {
    before.Some? ==>
      && after.Some? && before.value.lastSeq <= after.value.lastSeq
      && (before.value.pending.Some? ==>
            after.value.pending == before.value.pending || before.value.pending.value.seqNo <= after.value.lastSeq)
  }

  predicate Grown(before: Option<Record>, after: Option<Record>) {
    before.Some? ==> after.Some? && before.value.lastSeq <= after.value.lastSeq
  }

  lemma FollowsBounded(before: Option<Record>, after: Option<Record>, number: Id -> int,
                       admitted: multiset<Id>, retries: multiset<Id>)
    requires Bounded(before, number, admitted, retries) && Follows(before, after)
    requires before.Some? ==> RecordOk(before.value, number)
    ensures Bounded(after, number, admitted, retries)
  {
    forall id
      ensures Reached(before, id, number(id)) ==> Reached(after, id, number(id))
    {
    }
  }

  /** A recovery for retry forgets one message, and is counted. */
  lemma RetryBounded(before: Record, after: Record, number: Id -> int, admitted: multiset<Id>, retries: multiset<Id>)
    requires Bounded(Some(before), number, admitted, retries) && before.pending.Some?
    requires after.pending.None? && after.lastSeq == before.lastSeq
    ensures Bounded(Some(after), number, admitted, retries + multiset{before.pending.value.id})
  {
    var id := before.pending.value.id;
    forall other
      ensures other != id && Reached(Some(before), other, number(other)) ==> Reached(Some(after), other, number(other))
    {
    }
  }

  class Ledger {
    /** The number that the mailbox gave to each message. */
    const number: Id -> int
    /** The state file. */
    var disk: Option<Record>
    /** Whether a process holds the lock, and its state in memory. */
    var open: bool
    var state: Option<Record>
    /** The pending notice is saved and was not admitted yet. */
    var reserved: bool
    /** Native admissions, and recoveries for retry, by message. */
    var admitted: multiset<Id>
    var retries: multiset<Id>

    ghost predicate Valid()
      reads this
    {
      && Bounded(disk, number, admitted, retries)
      && (disk.Some? ==> RecordOk(disk.value, number))
      && (open ==> Follows(disk, state) && (state.Some? ==> RecordOk(state.value, number)))
      && (reserved ==>
            && open && disk == state && state.Some? && state.value.pending.Some?
            && admitted[state.value.pending.value.id] <= retries[state.value.pending.value.id])
    }

    constructor (number: Id -> int)
      ensures Valid() && this.number == number && disk.None? && !open && admitted == retries == multiset{}
    {
      this.number := number;
      disk, open, state, reserved := None, false, None, false;
      admitted, retries := multiset{}, multiset{};
    }

    /** Takes the lock and reads the state file. */
    method Open()
      requires Valid() && !open
      modifies this`open, this`state
      ensures Valid() && open && state == disk
    {
      open, state := true, disk;
    }

    /** `close`, or the end of the process anywhere. */
    method Close()
      requires Valid()
      modifies this`open, this`state, this`reserved
      ensures Valid() && !open
    {
      open, state, reserved := false, None, false;
    }

    /** `save_state`: it may fail before or after it replaces the file. */
    method Save() returns (error: Option<Error>)
      requires Valid() && open && !reserved
      modifies this`disk
      ensures Valid() && (disk == old(disk) || disk == state) && Grown(old(disk), disk)
      ensures error.None? ==> disk == state
      ensures error.Some? ==> error.value.SaveFailed?
    {
      if * {
        return Some(SaveFailed);
      }
      FollowsBounded(disk, state, number, admitted, retries);
      disk := state;
      if * {
        return Some(SaveFailed);
      }
      error := None;
    }

    /** `preflight`: uncertain work is refused. */
    method Preflight() returns (error: Option<Error>)
      requires Valid() && open
      ensures error == if state.Some? && (state.value.phase.Active? || state.value.pending.Some?) then Some(RecoveryRequired) else None
    {
      error := if state.Some? && (state.value.phase != Idle || state.value.pending.Some?) then Some(RecoveryRequired) else None;
    }

    method Bind(binding: Binding) returns (error: Option<Error>)
      requires Valid() && open && !reserved
      modifies this`disk, this`state
      ensures Valid() && Grown(old(disk), disk)
      ensures old(state).Some? && (old(state).value.phase.Active? || old(state).value.pending.Some?
                                   || old(state).value.binding != binding) ==>
                error.Some? && state == old(state) && disk == old(disk)
      ensures error.None? ==>
                && disk == state && state.Some?
                && state.value == (if old(state).Some? then old(state).value.(phase := Active) else Record(binding, Active, None, 0))
      ensures error.Some? && !error.value.SaveFailed? ==>
                && state == old(state) && disk == old(disk) && state.Some?
                && error.value == (if state.value.phase.Active? || state.value.pending.Some? then RecoveryRequired else BindingDiffers)
                && (error.value.BindingDiffers? ==> state.value.binding != binding)
    {
      error := Preflight();
      if error.Some? {
        return;
      }
      if state.Some? && state.value.binding != binding {
        return Some(BindingDiffers);
      }
      if state.None? {
        state := Some(Record(binding, Idle, None, 0));
      }
      state := Some(state.value.(phase := Active));
      error := Save();
    }

    method Reserve(id: Id, seqNo: int) returns (error: Option<Error>)
      requires Valid() && open && !reserved && state.Some? && state.value.phase.Active? && seqNo == number(id)
      modifies this`disk, this`state, this`reserved
      ensures Valid() && Grown(old(disk), disk)
      ensures old(state).value.pending.Some? || seqNo <= old(state).value.lastSeq ==>
                error == Some(RepeatedAdmission) && state == old(state) && disk == old(disk)
      ensures error.None? ==> reserved && disk == state == Some(old(state).value.(pending := Some(Notice(id, seqNo))))
      ensures error.Some? ==> !reserved
      ensures error == Some(RepeatedAdmission) ==> old(state).value.pending.Some? || seqNo <= old(state).value.lastSeq
      ensures error.Some? && !error.value.SaveFailed? ==> error == Some(RepeatedAdmission)
      ensures disk == old(disk) || (disk == state && state.Some? && state.value.lastSeq == old(state).value.lastSeq)
    {
      if state.value.pending.Some? || seqNo <= state.value.lastSeq {
        return Some(RepeatedAdmission);
      }
      state := Some(state.value.(pending := Some(Notice(id, seqNo))));
      error := Save();
      if error.None? {
        assert !Reached(old(disk), id, seqNo);
        assert admitted[id] <= retries[id];
        reserved := true;
      }
    }

    /** The conversation admits the notice that was reserved. */
    method Admit()
      requires Valid() && reserved
      modifies this`admitted, this`reserved
      ensures Valid() && !reserved && admitted == old(admitted) + multiset{state.value.pending.value.id}
    {
      var id := state.value.pending.value.id;
      admitted, reserved := admitted + multiset{id}, false;
      assert forall other :: other != id ==> admitted[other] == old(admitted)[other];
    }

    method Consume(id: Id, seqNo: int) returns (error: Option<Error>)
      requires Valid() && open && !reserved && state.Some?
      modifies this`disk, this`state
      ensures Valid() && Grown(old(disk), disk)
      ensures old(state).value.pending != Some(Notice(id, seqNo)) ==>
                error == Some(Uncorrelated) && state == old(state) && disk == old(disk)
      ensures error.None? ==> disk == state == Some(old(state).value.(pending := None, lastSeq := seqNo))
      ensures error.Some? && !error.value.SaveFailed? ==> old(state).value.pending != Some(Notice(id, seqNo))
    {
      if state.value.pending != Some(Notice(id, seqNo)) {
        return Some(Uncorrelated);
      }
      state := Some(state.value.(lastSeq := seqNo, pending := None));
      error := Save();
    }

    method Finish() returns (error: Option<Error>)
      requires Valid() && open && !reserved && state.Some?
      modifies this`disk, this`state
      ensures Valid() && Grown(old(disk), disk)
      ensures old(state).value.pending.Some? ==> error.None? && state == old(state) && disk == old(disk)
      ensures old(state).value.pending.None? && error.None? ==> disk == state == Some(old(state).value.(phase := Idle))
      ensures error.Some? ==> error.value.SaveFailed?
    {
      error := None;
      if state.value.pending.None? {
        state := Some(state.value.(phase := Idle));
        error := Save();
      }
    }

    /** `recover`, a command of its own: the process ends with it. */
    method Recover(conversation: string, message: Option<Id>, disposition: Disposition) returns (error: Option<Error>)
      requires Valid() && open && !reserved && state == disk
      modifies this
      ensures Valid() && !open && admitted == old(admitted) && Grown(old(disk), disk)
      ensures error.None? ==>
                && old(state).Some? && old(state).value.phase.Active? && old(state).value.binding.conversation == conversation
                && Matches(old(state).value.pending, message, disposition)
                && disk == Some(Record(old(state).value.binding, Idle, None,
                                       if old(state).value.pending.Some? && disposition.Consumed?
                                       then old(state).value.pending.value.seqNo else old(state).value.lastSeq))
      ensures error.Some? && !error.value.SaveFailed? ==>
                && disk == old(disk) && retries == old(retries)
                && !(old(state).Some? && old(state).value.phase.Active? && old(state).value.binding.conversation == conversation
                     && Matches(old(state).value.pending, message, disposition))
      ensures retries == old(retries)
              || (disposition.Retry? && message.Some? && retries == old(retries) + multiset{message.value})
    {
      var given := state;
      open, state := false, None;
      if given.None? || given.value.phase != Active {
        return Some(NothingUncertain);
      }
      var rec := given.value;
      if rec.binding.conversation != conversation {
        return Some(OtherConversation);
      }
      if message != (if rec.pending.Some? then Some(rec.pending.value.id) else None) {
        return Some(OtherNotice);
      }
      if rec.pending.None? && disposition != Consumed {
        return Some(OtherNotice);
      }
      // The receipt of the recovery, and then the state; either may fail.
      if * {
        return Some(SaveFailed);
      }
      var after := rec.(phase := Idle, pending := None,
                        lastSeq := if rec.pending.Some? && disposition == Consumed then rec.pending.value.seqNo else rec.lastSeq);
      if rec.pending.Some? && disposition == Retry {
        RetryBounded(rec, after, number, admitted, retries);
        retries := retries + multiset{rec.pending.value.id};
      } else {
        FollowsBounded(disk, Some(after), number, admitted, retries);
      }
      disk := Some(after);
      if * {
        return Some(SaveFailed);
      }
      error := None;
    }

    /** Everything that happens to one state directory: launches, notices, crashes and recoveries. Each
        message is admitted at most once, and once more for each recovery that retries it. */
    method Live(events: seq<Id>)
      requires Valid() && !open
      modifies this
      ensures Valid() && !open
      ensures forall id :: admitted[id] <= 1 + retries[id]
      ensures Grown(old(disk), disk)
      ensures old(admitted) <= admitted && old(retries) <= retries
    {
      hide Bounded, RecordOk, Follows;
      for i := 0 to |events|
        invariant Valid() && !open && old(admitted) <= admitted && old(retries) <= retries
        invariant Grown(old(disk), disk)
      {
        Open();
        if * {
          var conversation: string, message: Option<Id>, disposition: Disposition :| true;
          var error := Recover(conversation, message, disposition);
        } else {
          var binding: Binding :| true;
          Launch(binding, events[i..]);
        }
      }
      AtMostOneMore(disk, number, admitted, retries);
    }

    /** One launch: bind, then the notices of the watcher until something fails or the program ends. */
    method Launch(binding: Binding, events: seq<Id>)
      requires Valid() && open && !reserved && state == disk
      modifies this
      ensures Valid() && !open && old(admitted) <= admitted && retries == old(retries)
      ensures Grown(old(disk), disk)
      ensures old(disk).Some? && old(disk).value.phase.Active? ==> disk == old(disk) && admitted == old(admitted)
    {
      hide Bounded, RecordOk, Follows;
      var error := Bind(binding);
      var failed := error.Some?;
      var i := 0;
      while i < |events| && !failed
        invariant 0 <= i <= |events| && Valid() && open && !reserved && old(admitted) <= admitted && retries == old(retries)
        invariant !failed ==> state.Some? && state.value.phase.Active?
        invariant Grown(old(disk), disk)
        invariant old(disk).Some? && old(disk).value.phase.Active? ==> failed && disk == old(disk) && admitted == old(admitted)
      {
        var id := events[i];
        i := i + 1;
        if number(id) <= state.value.lastSeq {
          continue;
        }
        failed := Take(id);
      }
      if !failed && state.Some? {
        if * {
          error := Finish();
        }
      }
      Close();
    }

    /** One notice: reserved, admitted, and consumed when its turn is over. */
    method Take(id: Id) returns (failed: bool)
      requires Valid() && open && !reserved && state.Some? && state.value.phase.Active? && number(id) > state.value.lastSeq
      modifies this`disk, this`state, this`reserved, this`admitted
      ensures Valid() && open && !reserved
      ensures admitted == old(admitted) || admitted == old(admitted) + multiset{id}
      ensures !failed ==> admitted == old(admitted) + multiset{id} && state.Some? && state.value.phase.Active?
                          && state.value.lastSeq == number(id) && state.value.pending.None?
      ensures Grown(old(disk), disk)
      ensures admitted == old(admitted) ==>
                disk == old(disk) || (disk.Some? && disk.value.lastSeq == old(state).value.lastSeq)
    {
      hide Bounded, RecordOk, Follows;
      var error := Reserve(id, number(id));
      if error.Some? {
        return true;
      }
      if * {
        reserved := false;
        return true;
      }
      Admit();
      if * {
        return true;
      }
      error := Consume(id, number(id));
      failed := error.Some?;
    }
  }

  /** The operator names the pending notice, or none if there is none to retry. */
  predicate Matches(pending: Option<Notice>, message: Option<Id>, disposition: Disposition) {
    match pending
    case None => message.None? && disposition.Consumed?
    case Some(notice) => message == Some(notice.id)
  }

  lemma AtMostOneMore(rec: Option<Record>, number: Id -> int, admitted: multiset<Id>, retries: multiset<Id>)
    requires Bounded(rec, number, admitted, retries)
    ensures forall id :: admitted[id] <= 1 + retries[id]
  {
    forall id
      ensures admitted[id] <= 1 + retries[id]
    {
      assert admitted[id] <= retries[id] + if Reached(rec, id, number(id)) then 1 else 0;
    }
  }
}
