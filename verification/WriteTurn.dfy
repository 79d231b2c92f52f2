/** Admission of contended sends before their first write transaction (src/write_turn.rs). The mode
    is one thread's. */
module WriteTurn {
  import opened Common

  datatype Mode = Normal | Fresh | Heir

  class Turn {
    var mode: Mode

    constructor ()
      ensures mode == Normal
    {
      mode := Normal;
    }

    /** Starts a probe and gives the mode that its end restores. */
    method Probe() returns (before: Mode)
      modifies this
      ensures mode == Fresh && before == old(mode)
    {
      before := mode;
      mode := Fresh;
    }

    method EndProbe(before: Mode)
      modifies this
      ensures mode == before
    {
      mode := before;
    }

    method StartedWrite()
      modifies this
      ensures mode == Normal
    {
      mode := Normal;
    }

    method Queued(held: bool)
      modifies this
      ensures mode == if held then Heir else Normal
    {
      mode := if held then Heir else Normal;
    }

    /** Whether a busy mailbox is waited for: `None` is the wait of any writer. */
    method Wait(interrupted: bool) returns (wait: Option<bool>)
      ensures wait == match mode case Normal => None case Fresh => Some(false) case Heir => Some(!interrupted)
    {
      wait := match mode case Normal => None case Fresh => Some(false) case Heir => Some(!interrupted);
    }
  }

  /** A clock in milliseconds: a pause may take longer than was asked for. */
  class Clock {
    var now: nat

    constructor (now: nat)
      ensures this.now == now
    {
      this.now := now;
    }

    method Sleep(pause: nat)
      modifies this
      ensures now >= old(now) + pause
    {
      var more: nat :| true;
      now := now + pause + more;
    }
  }

  const BUDGET: nat := 5000

  function Pause(wait: Option<bool>, attempt: nat): nat {
    if wait.Some? then 1 else if attempt == 0 then 1 else if attempt == 1 then 2 else 5
  }

  /** SQLite's busy handler of one thread (src/store.rs). `start` is when its locking event began. */
  class LockWait {
    const turn: Turn
    const clock: Clock
    var start: Option<nat>

    constructor (turn: Turn, clock: Clock)
      ensures this.turn == turn && this.clock == clock && start.None?
    {
      this.turn, this.clock, start := turn, clock, None;
    }

    /** `wait_for_lock`: whether SQLite tries again. A fresh send does not wait, and an interrupted heir
        stops waiting. `read` is what the clock shows at the look. */
    method WaitForLock(attempt: nat, interrupted: bool) returns (again: bool, ghost read: nat)
      modifies this, clock
      ensures clock.now >= read >= old(clock.now)
      ensures turn.mode == Fresh || (turn.mode == Heir && interrupted) ==>
                !again && start == old(start) && clock.now == old(clock.now)
      ensures turn.mode == Normal || (turn.mode == Heir && !interrupted) ==>
                && start == (if attempt > 0 && old(start).Some? then old(start) else Some(read))
                && (again <==> read < start.value + BUDGET)
                && (again ==> clock.now > read)
    {
      read := clock.now;
      var wait := turn.Wait(interrupted);
      if wait == Some(false) {
        return false, read;
      }
      clock.Sleep(0);
      read := clock.now;
      if attempt == 0 || start.None? {
        start := Some(clock.now);
      }
      var elapsed := if clock.now >= start.value then clock.now - start.value else 0;
      if elapsed > BUDGET {
        return false, read;
      }
      var remaining := BUDGET - elapsed;
      var pause := Pause(wait, attempt);
      clock.Sleep(if pause < remaining then pause else remaining);
      again := remaining != 0;
    }

    /** One locking event: SQLite asks again until the lock is free or the handler gives up. A writer
        whose lock never comes free waits out the budget, after at most 5000 looks; a fresh send
        gives up at once. */
    method Contend(free: nat -> bool, interrupted: nat -> bool) returns (locked: bool, attempts: nat)
      modifies this, clock
      ensures attempts <= BUDGET
      ensures locked ==> free(attempts)
      ensures forall k :: 0 <= k < attempts ==> !free(k)
      ensures !locked ==>
                && !free(attempts)
                && (turn.mode == Fresh || (turn.mode == Heir && interrupted(attempts)) || clock.now >= old(clock.now) + BUDGET)
      ensures turn.mode == Fresh ==> attempts == 0 && clock.now == old(clock.now)
    {
      attempts := 0;
      while !free(attempts)
        invariant forall k :: 0 <= k < attempts ==> !free(k)
        invariant turn.mode == Fresh ==> attempts == 0
        invariant attempts == 0 ==> clock.now == old(clock.now)
        invariant attempts > 0 ==>
                    start.Some? && old(clock.now) <= start.value && clock.now >= start.value + attempts
        invariant attempts <= BUDGET
        decreases BUDGET - attempts
      {
        var again;
        ghost var read;
        again, read := WaitForLock(attempts, interrupted(attempts));
        if !again {
          return false, attempts;
        }
        attempts := attempts + 1;
      }
      locked := true;
    }
  }
}
