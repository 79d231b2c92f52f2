/** Cleanup of an owned process group (src/os/linux/group.rs) while process numbers are reused: the
    history of the process table is explicit. */
module ProcessGroup {
  import opened Common

  type Pid = int

  /** One process of the table. `life` tells apart all processes that ever had a number; a handle (a
      pidfd) names a life. */
  type Life = nat
  datatype Info = Info(life: Life, group: int, start: nat, uid: int, exited: bool)

  /** The table holds every process that is not reaped. `born` is the number and the start time of every
      life so far. */
  datatype World = World(table: map<Pid, Info>, born: map<Life, (Pid, nat)>)

  datatype Event =
    | Fork(pid: Pid, info: Info)
    | Exit(pid: Pid)
    | Reap(pid: Pid)
    | SetGroup(pid: Pid, group: int)
    | SetUser(pid: Pid, uid: int)

  /** A number is free again once its process is reaped, but its start times do not repeat. */
  predicate Happens(w: World, e: Event) {
    match e
    case Fork(pid, info) =>
      pid !in w.table && info.life !in w.born && !info.exited && forall b :: b in w.born ==> w.born[b] != (pid, info.start)
    case Exit(pid) => pid in w.table
    case Reap(pid) => pid in w.table && w.table[pid].exited
    case SetGroup(pid, _) => pid in w.table
    case SetUser(pid, _) => pid in w.table
  }

  function After(w: World, e: Event): World
    requires Happens(w, e)
  {
    match e
    case Fork(pid, info) => World(w.table[pid := info], w.born[info.life := (pid, info.start)])
    case Exit(pid) => w.(table := w.table[pid := w.table[pid].(exited := true)])
    case Reap(pid) => w.(table := w.table - {pid})
    case SetGroup(pid, group) => w.(table := w.table[pid := w.table[pid].(group := group)])
    case SetUser(pid, uid) => w.(table := w.table[pid := w.table[pid].(uid := uid)])
  }

  ghost predicate WorldOk(w: World) {
    && (forall pid :: pid in w.table ==> w.table[pid].life in w.born && w.born[w.table[pid].life] == (pid, w.table[pid].start))
    && (forall a, b :: a in w.born && b in w.born && a != b ==> w.born[a] != w.born[b])
  }

  ghost predicate Passes(w: World, v: World) {
    exists e :: Happens(w, e) && v == After(w, e)
  }

  ghost predicate History(h: seq<World>) {
    h != [] && WorldOk(h[0]) && forall i, j :: 0 <= i && j == i + 1 < |h| ==> Passes(h[i], h[j])
  }

  // ---- A number names one life at a time, and a life does not come back ----

  predicate Has(w: World, pid: Pid, life: Life) {
    pid in w.table && w.table[pid].life == life
  }

  lemma {:induction false} HistoryOk(h: seq<World>, i: nat)
    requires History(h) && i < |h|
    ensures WorldOk(h[i])
  {
    if i == 0 {
    } else {
      HistoryOk(h, i - 1);
      assert Passes(h[i - 1], h[i]);
    }
  }

  /** What an event leaves alone. */
  lemma EventKeeps(w: World, v: World)
    requires WorldOk(w) && Passes(w, v)
    ensures forall b :: b in w.born ==> b in v.born && v.born[b] == w.born[b]
    ensures forall pid, life :: life in w.born && Has(v, pid, life) ==> Has(w, pid, life)
    ensures forall pid :: pid in w.table && pid in v.table && w.table[pid].life == v.table[pid].life && w.table[pid].exited ==>
              v.table[pid].exited
  {
  }

  lemma {:induction false} BornStays(h: seq<World>, i: nat, j: nat, life: Life)
    requires History(h) && i <= j < |h| && life in h[i].born
    ensures life in h[j].born && h[j].born[life] == h[i].born[life]
    decreases j - i
  {
    if i == j {
    } else {
      BornStays(h, i, j - 1, life);
      HistoryOk(h, j - 1);
      assert Passes(h[j - 1], h[j]);
      EventKeeps(h[j - 1], h[j]);
    }
  }

  /** A life that is there at two moments was there in between, under its number. */
  lemma {:induction false} ThereBetween(h: seq<World>, i: nat, j: nat, k: nat, pid: Pid, life: Life)
    requires History(h) && i <= j <= k < |h| && life in h[i].born && Has(h[k], pid, life)
    ensures Has(h[j], pid, life)
    decreases k - j
  {
    if j == k {
    } else {
      BornStays(h, i, k - 1, life);
      HistoryOk(h, k - 1);
      assert Passes(h[k - 1], h[k]);
      EventKeeps(h[k - 1], h[k]);
      ThereBetween(h, i, j, k - 1, pid, life);
    }
  }

  /** Two reads of the same number and start time saw the same life, and whatever was pinned under that
      number in between is that life. */
  lemma ReadsNameOneLife(h: seq<World>, i: nat, j: nat, k: nat, pid: Pid)
    requires History(h) && i <= j <= k < |h| && pid in h[i].table && pid in h[k].table
    requires h[i].table[pid].start == h[k].table[pid].start
    ensures pid in h[j].table && h[i].table[pid].life == h[j].table[pid].life == h[k].table[pid].life
  {
    HistoryOk(h, i);
    HistoryOk(h, k);
    var life := h[i].table[pid].life;
    BornStays(h, i, k, life);
    assert h[k].born[h[k].table[pid].life] == h[k].born[life];
    ThereBetween(h, i, j, k, pid, life);
  }

  // ---- What a handle in `members` stands for ----

  datatype Identity = Identity(group: int, start: nat)

  /** Moments of the history: the check of the anchor, the first read, the look at the owner, the pin and
      the second read of a member. */
  datatype Seen = Seen(anchor: nat, first: nat, owner: nat, pinned: nat, second: nat)

  /** At both reads around the pin the pinned process was in the group of the leader, and in between it
      had the user's id; the leader was there when the anchor was checked. */
  ghost predicate SeenOk(h: seq<World>, leader: Pid, leaderLife: Life, uid: int, pid: Pid, life: Life, seen: Seen) {
    && seen.anchor <= seen.first <= seen.owner <= seen.pinned <= seen.second < |h|
    && Has(h[seen.anchor], leader, leaderLife)
    && Has(h[seen.first], pid, life) && h[seen.first].table[pid].group == leader
    && Has(h[seen.owner], pid, life) && h[seen.owner].table[pid].uid == uid
    && Has(h[seen.pinned], pid, life)
    && Has(h[seen.second], pid, life) && h[seen.second].table[pid].group == leader
  }

  /** One signal: to which life, and when. */
  datatype Signal = Signal(pid: Pid, life: Life, value: int, seen: Seen, at: nat)

  /** A signal went to a member that was pinned between two reads under an unreaped leader: the leader
      was there from the check of the anchor to a check after the second read. */
  ghost predicate SignalOk(h: seq<World>, leader: Pid, leaderLife: Life, uid: int, s: Signal) {
    && SeenOk(h, leader, leaderLife, uid, s.pid, s.life, s.seen)
    && s.seen.second <= s.at < |h|
    && forall j :: s.seen.anchor <= j <= s.seen.second ==> Has(h[j], leader, leaderLife)
  }

  lemma SeenLonger(h: seq<World>, longer: seq<World>, leader: Pid, leaderLife: Life, uid: int, pid: Pid, life: Life, seen: Seen)
    requires h <= longer && SeenOk(h, leader, leaderLife, uid, pid, life, seen)
    ensures SeenOk(longer, leader, leaderLife, uid, pid, life, seen)
  {
    assert longer[seen.anchor] == h[seen.anchor] && longer[seen.first] == h[seen.first] && longer[seen.owner] == h[seen.owner];
    assert longer[seen.pinned] == h[seen.pinned] && longer[seen.second] == h[seen.second];
  }

  lemma SignalLonger(h: seq<World>, longer: seq<World>, leader: Pid, leaderLife: Life, uid: int, s: Signal)
    requires h <= longer && SignalOk(h, leader, leaderLife, uid, s)
    ensures SignalOk(longer, leader, leaderLife, uid, s)
  {
    SeenLonger(h, longer, leader, leaderLife, uid, s.pid, s.life, s.seen);
    assert forall j :: 0 <= j < |h| ==> longer[j] == h[j];
  }

  /** When the leader is there again at a later check, every signal to a member seen before is well-founded. */
  lemma SignalFounded(h: seq<World>, leader: Pid, leaderLife: Life, uid: int, pid: Pid, life: Life, seen: Seen, check: nat, value: int)
    requires History(h) && SeenOk(h, leader, leaderLife, uid, pid, life, seen)
    requires seen.second <= check < |h| && Has(h[check], leader, leaderLife)
    ensures SignalOk(h, leader, leaderLife, uid, Signal(pid, life, value, seen, |h| - 1))
  {
    HistoryOk(h, seen.anchor);
    forall j | seen.anchor <= j <= seen.second
      ensures Has(h[j], leader, leaderLife)
    {
      ThereBetween(h, seen.anchor, j, check, leader, leaderLife);
    }
  }

  // ---- Member when pinned ----

  /** Nobody moved the process to another group from one moment to another. */
  ghost predicate Unmoved(h: seq<World>, pid: Pid, from: nat, to: nat) {
    forall i, j :: from <= i && j == i + 1 <= to < |h| && pid in h[i].table && pid in h[j].table ==>
      h[j].table[pid].group == h[i].table[pid].group
  }

  /** The process was a member at every moment from the first read to the second, and so when it was
      pinned, exactly if nobody moved it in between. */
  lemma MemberWhenPinned(h: seq<World>, leader: Pid, leaderLife: Life, uid: int, pid: Pid, life: Life, seen: Seen)
    requires History(h) && SeenOk(h, leader, leaderLife, uid, pid, life, seen)
    ensures (forall j :: seen.first <= j <= seen.second ==> Has(h[j], pid, life) && h[j].table[pid].group == leader)
            <==> Unmoved(h, pid, seen.first, seen.second)
    ensures Unmoved(h, pid, seen.first, seen.second) ==> h[seen.pinned].table[pid].group == leader
  {
    if Unmoved(h, pid, seen.first, seen.second) {
      forall j | seen.first <= j <= seen.second
        ensures Has(h[j], pid, life) && h[j].table[pid].group == leader
      {
        GroupStays(h, seen.first, j, seen.second, pid, life);
      }
    }
  }

  lemma {:induction false} GroupStays(h: seq<World>, i: nat, j: nat, k: nat, pid: Pid, life: Life)
    requires History(h) && i <= j <= k < |h| && Has(h[i], pid, life) && Has(h[k], pid, life)
    requires Unmoved(h, pid, i, k)
    ensures Has(h[j], pid, life) && h[j].table[pid].group == h[i].table[pid].group
    decreases j - i
  {
    HistoryOk(h, i);
    ThereBetween(h, i, j, k, pid, life);
    if i == j {
    } else {
      GroupStays(h, i, j - 1, k, pid, life);
      assert pid in h[j - 1].table && pid in h[j].table;
    }
  }

  /** Otherwise it need not be: a process that leaves the group and comes back passes both reads. */
  lemma AwayWhenPinned(w: World, leader: Pid, leaderLife: Life, pid: Pid, other: int)
    returns (h: seq<World>, seen: Seen)
    requires WorldOk(w) && Has(w, leader, leaderLife) && pid in w.table && w.table[pid].group == leader != other
    ensures History(h) && h[0] == w && SeenOk(h, leader, leaderLife, w.table[pid].uid, pid, w.table[pid].life, seen)
    ensures h[seen.pinned].table[pid].group == other
  {
    var v := After(w, SetGroup(pid, other));
    var u := After(v, SetGroup(pid, leader));
    h := [w, v, u];
    seen := Seen(0, 0, 0, 1, 2);
    assert Passes(h[0], h[1]) && Passes(h[1], h[2]);
  }

  // ---- Liveness of a handle ----

  predicate LiveIn(w: World, life: Life) {
    life in w.born && Has(w, w.born[life].0, life) && !w.table[w.born[life].0].exited
  }

  lemma {:induction false} DeadStays(h: seq<World>, i: nat, j: nat, life: Life)
    requires History(h) && i <= j < |h| && life in h[i].born && !LiveIn(h[i], life)
    ensures life in h[j].born && !LiveIn(h[j], life)
    decreases j - i
  {
    BornStays(h, i, j, life);
    if i == j {
    } else {
      DeadStays(h, i, j - 1, life);
      HistoryOk(h, j - 1);
      assert Passes(h[j - 1], h[j]);
      EventKeeps(h[j - 1], h[j]);
    }
  }

  lemma HistoryMore(h: seq<World>, e: Event)
    requires History(h) && Happens(h[|h| - 1], e)
    ensures History(h + [After(h[|h| - 1], e)])
  {
    var longer := h + [After(h[|h| - 1], e)];
    assert Passes(h[|h| - 1], longer[|h|]);
  }

  datatype Reading<T> = Found(value: T) | Disappeared | Failed

  /** The process table, as one process sees it while everything else goes on. */
  class Kernel {
    var world: World
    ghost var history: seq<World>

    ghost predicate Valid()
      reads this
    {
      history != [] && History(history) && history[|history| - 1] == world
    }

    constructor (world: World)
      requires WorldOk(world)
      ensures Valid() && this.world == world
    {
      this.world, history := world, [world];
    }

    method Pass()
      requires Valid()
      modifies this
      ensures Valid() && old(history) <= history
    {
      hide History;
      var events: nat :| true;
      for n := 0 to events
        invariant Valid() && old(history) <= history
      {
        var e: Event :| true;
        if Happens(world, e) {
          HistoryMore(history, e);
          world := After(world, e);
          history := history + [world];
        }
      }
    }

    /** Lists `/proc`: whatever is there all the time is listed. The entries are there at its beginning; a
        process that comes or goes meanwhile may be listed or not. */
    method List() returns (entries: seq<Pid>)
      requires Valid()
      modifies this
      ensures Valid() && old(history) <= history
      ensures forall pid :: pid in world.table ==> pid in entries
    {
      hide History;
      Pass();
      entries := [];
      var rest: set<Pid> := world.table.Keys;
      while true
        invariant rest <= world.table.Keys
        invariant forall pid :: pid in world.table && pid !in rest ==> pid in entries
        decreases |rest|
      {
        if pid: Pid :| pid in rest {
          entries := entries + [pid];
          rest := rest - {pid};
        } else {
          break;
        }
      }
      var more: seq<Pid> :| true;
      entries := entries + more;
    }

    /** Reads `/proc/<pid>/stat`. */
    method Read(pid: Pid) returns (r: Reading<Identity>)
      requires Valid()
      modifies this
      ensures Valid() && old(history) <= history
      ensures r.Found? ==> pid in world.table && r.value == Identity(world.table[pid].group, world.table[pid].start)
      ensures r.Disappeared? ==> pid !in world.table
    {
      hide History;
      Pass();
      if * {
        return Failed;
      }
      r := if pid in world.table then Found(Identity(world.table[pid].group, world.table[pid].start)) else Disappeared;
    }

    /** The owner of `/proc/<pid>`. */
    method Owner(pid: Pid) returns (r: Reading<int>)
      requires Valid()
      modifies this
      ensures Valid() && old(history) <= history
      ensures r.Found? ==> pid in world.table && r.value == world.table[pid].uid
      ensures r.Disappeared? ==> pid !in world.table
    {
      hide History;
      Pass();
      if * {
        return Failed;
      }
      r := if pid in world.table then Found(world.table[pid].uid) else Disappeared;
    }

    /** `pidfd_open`. */
    method Pin(pid: Pid) returns (r: Reading<Life>)
      requires Valid()
      modifies this
      ensures Valid() && old(history) <= history
      ensures r.Found? ==> Has(world, pid, r.value)
      ensures r.Disappeared? ==> pid !in world.table
    {
      hide History;
      Pass();
      if * {
        return Failed;
      }
      r := if pid in world.table then Found(world.table[pid].life) else Disappeared;
    }

    /** `poll` on a handle. */
    method Alive(life: Life) returns (r: Reading<bool>)
      requires Valid()
      modifies this
      ensures Valid() && old(history) <= history
      ensures r.Found? ==> r.value == LiveIn(world, life)
      ensures !r.Disappeared?
    {
      hide History;
      Pass();
      if * {
        return Failed;
      }
      r := Found(LiveIn(world, life));
    }
  }

  // ---- The owned group ----

  type Key = (Pid, nat)

  /** The anchor as `new` read it at the moment `made`, the members that are pinned, and the signals that
      were sent. */
  ghost predicate GroupOk(h: seq<World>, leader: Pid, leaderLife: Life, start: nat, uid: int, made: nat,
                          members: map<Key, Life>, seen: map<Key, Seen>, sent: seq<Signal>)
  {
    && AnchorOk(h, leader, leaderLife, start, made)
    && members.Keys == seen.Keys
    && (forall key :: key in members ==>
          SeenOk(h, leader, leaderLife, uid, key.0, members[key], seen[key]) && StartOk(h, key, seen[key]))
    && (forall i :: 0 <= i < |sent| ==> SignalOk(h, leader, leaderLife, uid, sent[i]))
  }

  ghost predicate StartOk(h: seq<World>, key: Key, seen: Seen) {
    seen.first < |h| && key.0 in h[seen.first].table && h[seen.first].table[key.0].start == key.1
  }

  ghost predicate AnchorOk(h: seq<World>, leader: Pid, leaderLife: Life, start: nat, made: nat) {
    made < |h| && Has(h[made], leader, leaderLife) && h[made].table[leader].start == start
  }

  lemma GroupLonger(h: seq<World>, longer: seq<World>, leader: Pid, leaderLife: Life, start: nat, uid: int, made: nat,
                    members: map<Key, Life>, seen: map<Key, Seen>, sent: seq<Signal>)
    requires h <= longer && GroupOk(h, leader, leaderLife, start, uid, made, members, seen, sent)
    ensures GroupOk(longer, leader, leaderLife, start, uid, made, members, seen, sent)
  {
    assert longer[made] == h[made];
    hide SeenOk, SignalOk;
    forall key | key in members
      ensures SeenOk(longer, leader, leaderLife, uid, key.0, members[key], seen[key]) && StartOk(longer, key, seen[key])
    {
      assert longer[seen[key].first] == h[seen[key].first];
      SeenLonger(h, longer, leader, leaderLife, uid, key.0, members[key], seen[key]);
    }
    forall i | 0 <= i < |sent|
      ensures SignalOk(longer, leader, leaderLife, uid, sent[i])
    {
      SignalLonger(h, longer, leader, leaderLife, uid, sent[i]);
    }
  }

  /** The check of the anchor: the same start time at the number of the leader means the leader. */
  lemma AnchorHolds(h: seq<World>, leader: Pid, leaderLife: Life, start: nat, made: nat, now: nat)
    requires History(h) && AnchorOk(h, leader, leaderLife, start, made) && made <= now < |h|
    requires leader in h[now].table && h[now].table[leader].start == start
    ensures Has(h[now], leader, leaderLife)
  {
    ReadsNameOneLife(h, made, now, now, leader);
  }

  /** What the two reads, the look at the owner and the pin of one member give. */
  lemma MemberSeen(h: seq<World>, leader: Pid, leaderLife: Life, uid: int, pid: Pid, seen: Seen)
    requires History(h) && seen.anchor <= seen.first <= seen.owner <= seen.pinned <= seen.second < |h|
    requires Has(h[seen.anchor], leader, leaderLife)
    requires pid in h[seen.first].table && pid in h[seen.second].table && pid in h[seen.owner].table && pid in h[seen.pinned].table
    requires h[seen.first].table[pid].group == h[seen.second].table[pid].group == leader
    requires h[seen.first].table[pid].start == h[seen.second].table[pid].start
    requires h[seen.owner].table[pid].uid == uid
    ensures SeenOk(h, leader, leaderLife, uid, pid, h[seen.pinned].table[pid].life, seen)
  {
    ReadsNameOneLife(h, seen.first, seen.owner, seen.second, pid);
    ReadsNameOneLife(h, seen.first, seen.pinned, seen.second, pid);
  }

  datatype Error = NotOwner | AnchorChanged | AnchorUnreadable | OtherOwner | Unreadable | NotFinished

  predicate AnchorFailed(error: Error) {
    error.AnchorChanged? || error.AnchorUnreadable?
  }

  class OwnedGroup {
    const kernel: Kernel
    const leader: Pid
    const uid: int
    const identity: Identity
    /** What the leader's handle names. */
    const leaderLife: Life
    var members: map<Key, Life>
    ghost const made: nat
    ghost var seen: map<Key, Seen>
    ghost var sent: seq<Signal>

    ghost predicate Valid()
      reads this, kernel
    {
      && kernel.Valid()
      && GroupOk(kernel.history, leader, leaderLife, identity.start, uid, made, members, seen, sent)
      && identity.group == leader
    }

    constructor (kernel: Kernel, pid: Pid, uid: int, identity: Identity, life: Life, ghost made: nat)
      requires kernel.Valid() && identity.group == pid && AnchorOk(kernel.history, pid, life, identity.start, made)
      ensures Valid() && this.kernel == kernel && leader == pid && this.uid == uid && leaderLife == life && members == map[] && sent == []
    {
      this.kernel, leader, this.uid, this.identity, leaderLife := kernel, pid, uid, identity, life;
      members := map[];
      this.made, seen, sent := made, map[], [];
    }

    method CheckAnchor() returns (error: Option<Error>)
      requires Valid()
      modifies kernel
      ensures Valid() && old(kernel.history) <= kernel.history
      ensures error.None? ==> Has(kernel.world, leader, leaderLife) && kernel.world.table[leader].group == leader
      ensures error.Some? ==> AnchorFailed(error.value)
    {
      hide GroupOk, History;
      ghost var before := kernel.history;
      var r := kernel.Read(leader);
      GroupLonger(before, kernel.history, leader, leaderLife, identity.start, uid, made, members, seen, sent);
      if r.Failed? {
        return Some(AnchorUnreadable);
      }
      if r != Found(identity) {
        return Some(AnchorChanged);
      }
      AnchorOf(kernel.history, leader, leaderLife, identity.start, uid, made, members, seen, sent);
      AnchorHolds(kernel.history, leader, leaderLife, identity.start, made, |kernel.history| - 1);
      error := None;
    }

    /** One entry of `/proc`: a member of the group is pinned between two reads. `check` is when the
        anchor was checked. */
    method Inspect(pid: Pid, ghost check: nat) returns (error: Option<Error>)
      requires Valid() && check < |kernel.history| && Has(kernel.history[check], leader, leaderLife)
      modifies this`members, this`seen, kernel
      ensures Valid() && old(kernel.history) <= kernel.history && sent == old(sent)
      ensures old(members.Keys) <= members.Keys && forall key :: key in old(members) ==> members[key] == old(members)[key]
      ensures forall key :: key in members && key !in old(members) ==> key.0 == pid && seen[key].anchor == check
      ensures error.Some? ==> members == old(members) && !AnchorFailed(error.value)
      ensures error.None? ==>
                Covered(kernel.history, leader, uid, pid, members, |old(kernel.history)| - 1, |kernel.history| - 1)
    {
      hide GroupOk, History, Covered, SeenOk, StartOk;
      ghost var start := kernel.history;
      error := None;
      var found := kernel.Read(pid);
      ghost var first := |kernel.history| - 1;
      Longer(start);
      if found.Failed? {
        return Some(Unreadable);
      }
      if found.Disappeared? || found.value.group != leader {
        Absent(kernel.history, leader, uid, pid, members, |start| - 1, first, |kernel.history| - 1);
        return;
      }
      ghost var h1 := kernel.history;
      var owner := kernel.Owner(pid);
      ghost var looked := |kernel.history| - 1;
      Longer(h1);
      if owner.Disappeared? {
        Absent(kernel.history, leader, uid, pid, members, |start| - 1, looked, |kernel.history| - 1);
        return;
      }
      if owner.Failed? {
        return Some(Unreadable);
      }
      if owner.value != uid {
        return Some(OtherOwner);
      }
      var key := (pid, found.value.start);
      if key in members {
        KeyHeld(kernel.history, leader, leaderLife, identity.start, uid, made, members, seen, sent, key, |start| - 1, first,
                |kernel.history| - 1);
        return;
      }
      error := PinMember(key, check, first, looked, |start| - 1);
    }

    /** Pins a process that was just read as a member, and reads it again. */
    method PinMember(key: Key, ghost check: nat, ghost first: nat, ghost looked: nat, ghost from: nat)
      returns (error: Option<Error>)
      requires Valid() && key !in members
      requires check <= first <= looked < |kernel.history| && from <= first && Has(kernel.history[check], leader, leaderLife)
      requires key.0 in kernel.history[first].table && key.0 in kernel.history[looked].table
      requires kernel.history[first].table[key.0].group == leader && kernel.history[first].table[key.0].start == key.1
      requires kernel.history[looked].table[key.0].uid == uid
      modifies this`members, this`seen, kernel
      ensures Valid() && old(kernel.history) <= kernel.history && sent == old(sent)
      ensures members == old(members) || (key in members && members == old(members)[key := members[key]] && seen[key].anchor == check)
      ensures error.Some? ==> members == old(members) && !AnchorFailed(error.value)
      ensures error.None? ==> Covered(kernel.history, leader, uid, key.0, members, from, |kernel.history| - 1)
    {
      hide GroupOk, History, Covered, SeenOk, StartOk;
      error := None;
      ghost var h2 := kernel.history;
      var handle := kernel.Pin(key.0);
      ghost var pinned := |kernel.history| - 1;
      Longer(h2);
      if handle.Disappeared? {
        Absent(kernel.history, leader, uid, key.0, members, from, pinned, |kernel.history| - 1);
        return;
      }
      if handle.Failed? {
        return Some(Unreadable);
      }
      ghost var h3 := kernel.history;
      var current := kernel.Read(key.0);
      ghost var second := |kernel.history| - 1;
      Longer(h3);
      if current.Failed? {
        return Some(Unreadable);
      }
      if current == Found(Identity(leader, key.1)) {
        ghost var moments := Seen(check, first, looked, pinned, second);
        MemberSeen(kernel.history, leader, leaderLife, uid, key.0, moments);
        assert StartOk(kernel.history, key, moments) by { StartSeen(kernel.history, key, moments); }
        AddMember(kernel.history, leader, leaderLife, identity.start, uid, made, members, seen, sent, key, handle.value, moments);
        members, seen := members[key := handle.value], seen[key := moments];
        Added(kernel.history, leader, uid, key, handle.value, members, from, first, pinned, second);
      } else {
        Changed(kernel.history, leader, uid, key, members, from, first, second);
      }
    }

    /** Sends the signal to every member whose handle is not finished. */
    method SignalMembers(value: int, ghost check: nat) returns (active: Reading<bool>)
      requires Valid() && check < |kernel.history| && Has(kernel.history[check], leader, leaderLife)
      requires forall key :: key in members ==> seen[key].second <= check
      modifies this`sent, kernel
      ensures Valid() && old(kernel.history) <= kernel.history && old(sent) <= sent && !active.Disappeared?
      ensures forall i :: |old(sent)| <= i < |sent| ==> sent[i].value == value && sent[i].life in members.Values
      ensures active.Found? ==>
                && (!active.value ==> sent == old(sent))
                && forall key :: key in members ==>
                     Gone(kernel.history, members[key]) || Signalled(sent, |old(sent)|, members[key])
    {
      hide GroupOk, History, Gone, Signalled, SeenOk, SignalOk;
      var rest := members.Keys;
      var any := false;
      while rest != {}
        invariant Valid() && old(kernel.history) <= kernel.history && old(sent) <= sent && rest <= members.Keys
        invariant forall i :: |old(sent)| <= i < |sent| ==> sent[i].value == value && sent[i].life in members.Values
        invariant !any ==> sent == old(sent)
        invariant forall key :: key in members && key !in rest ==>
                    Gone(kernel.history, members[key]) || Signalled(sent, |old(sent)|, members[key])
        decreases |rest|
      {
        var key :| key in rest;
        ghost var before := kernel.history;
        var alive := kernel.Alive(members[key]);
        Longer(before);
        GoneLonger(before, kernel.history, members);
        if alive.Failed? {
          return Failed;
        }
        if alive.value {
          MemberOf(kernel.history, leader, leaderLife, identity.start, uid, made, members, seen, sent, key);
          ghost var s := Signal(key.0, members[key], value, seen[key], |kernel.history| - 1);
          CanSignal(kernel.history, leader, leaderLife, identity.start, uid, made, members, seen, sent, key, check, s);
          SentMore(sent, |old(sent)|, s, members);
          sent := sent + [s];
          any := true;
        } else {
          IsGone(kernel.history, leader, leaderLife, identity.start, uid, made, members, seen, sent, key);
        }
        rest := rest - {key};
      }
      active := Found(any);
    }

    /** One round. A failed check of the anchor sends nothing. Without an error every member that was
        pinned was found finished or was sent the signal, and `finished` says that none was sent. Pinned is
        at least every process of the user that was in the group from the first check of the anchor, at
        `check`, to the second, at `last`. */
    method Step(value: int) returns (finished: bool, error: Option<Error>, ghost check: nat, ghost last: nat)
      requires Valid()
      modifies this`members, this`seen, this`sent, kernel
      ensures Valid() && old(kernel.history) <= kernel.history && old(sent) <= sent
      ensures old(members.Keys) <= members.Keys
      ensures forall i :: |old(sent)| <= i < |sent| ==> sent[i].value == value && sent[i].life in members.Values
      ensures error.Some? && AnchorFailed(error.value) ==> sent == old(sent)
      ensures error.None? ==>
                && (forall key :: key in members ==>
                      Gone(kernel.history, members[key]) || Signalled(sent, |old(sent)|, members[key]))
                && (finished ==> sent == old(sent))
                && |old(kernel.history)| <= check + 1 && check <= last < |kernel.history|
                && forall pid :: Covered(kernel.history, leader, uid, pid, members, check, last)
    {
      hide GroupOk, History, Gone, Signalled, SeenOk, SignalOk, StartOk, Covered;
      check, last := 0, 0;
      finished := false;
      error := CheckAnchor();
      if error.Some? {
        return;
      }
      check := |kernel.history| - 1;
      ghost var before := kernel.history;
      var entries := kernel.List();
      Longer(before);
      ghost var listed := |kernel.history| - 1;
      for n := 0 to |entries|
        invariant Valid() && old(kernel.history) <= kernel.history && sent == old(sent) && error.None?
        invariant check <= listed < |kernel.history| && Has(kernel.history[check], leader, leaderLife)
        invariant |old(kernel.history)| <= check + 1
        invariant forall pid :: pid in kernel.history[listed].table ==> pid in entries
        invariant old(members.Keys) <= members.Keys
        invariant forall i :: 0 <= i < n ==>
                    Covered(kernel.history, leader, uid, entries[i], members, check, |kernel.history| - 1)
      {
        ghost var shorter, had := kernel.history, members;
        error := Inspect(entries[n], check);
        if error.Some? {
          return;
        }
        forall i | 0 <= i < n
          ensures Covered(kernel.history, leader, uid, entries[i], members, check, |kernel.history| - 1)
        {
          CoveredLater(shorter, kernel.history, leader, uid, entries[i], had, members, check);
        }
        CoveredFrom(kernel.history, leader, uid, entries[n], members, check, |shorter| - 1, |kernel.history| - 1);
      }
      ghost var shorter := kernel.history;
      error := CheckAnchor();
      if error.Some? {
        return;
      }
      last := |kernel.history| - 1;
      forall i | 0 <= i < |entries|
        ensures Covered(kernel.history, leader, uid, entries[i], members, check, last)
      {
        CoveredLater(shorter, kernel.history, leader, uid, entries[i], members, members, check);
      }
      AllCovered(kernel.history, leader, uid, entries, members, check, listed, last);
      SeenBefore(kernel.history, leader, leaderLife, identity.start, uid, made, members, seen, sent);
      ghost var scanned := kernel.history;
      var active := SignalMembers(value, |kernel.history| - 1);
      CoveredStays(scanned, kernel.history, leader, uid, members, check, last);
      if active.Failed? {
        return false, Some(Unreadable), check, last;
      }
      finished := !active.value;
    }

    /** `finish`: SIGTERM in the `gentle` rounds that begin within two seconds, then SIGKILL, and no round
        after four seconds, which is after `rounds` of them. Success means that every member that was ever
        pinned has ended. */
    method Finish(gentle: nat, rounds: nat) returns (error: Option<Error>, ghost check: nat, ghost last: nat)
      requires Valid() && 0 < rounds
      modifies this`members, this`seen, this`sent, kernel
      ensures Valid() && old(kernel.history) <= kernel.history && old(sent) <= sent
      ensures exists killed :: |old(sent)| <= killed <= |sent| && TermThenKill(sent, |old(sent)|, killed)
                               && (rounds <= gentle ==> killed == |sent|) && (gentle == 0 ==> killed == |old(sent)|)
      ensures error.None? ==> forall key :: key in members ==>
                Gone(kernel.history, members[key]) && !LiveIn(kernel.world, members[key])
      ensures error.None? ==>
                && |old(kernel.history)| <= check + 1 && check <= last < |kernel.history|
                && forall pid, life, start :: Stays(kernel.history, leader, uid, pid, life, start, check, last) ==>
                     !LiveIn(kernel.world, life)
    {
      hide GroupOk, History, Gone, SeenOk, SignalOk, StartOk, Covered, Stays;
      check, last := 0, 0;
      ghost var killed := |sent|;
      for n := 0 to rounds
        invariant Valid() && old(kernel.history) <= kernel.history && old(sent) <= sent
        invariant |old(sent)| <= killed <= |sent| && TermThenKill(sent, |old(sent)|, killed)
        invariant (n <= gentle ==> killed == |sent|) && (gentle == 0 ==> killed == |old(sent)|)
      {
        ghost var before := sent;
        var finished;
        finished, error, check, last := Step(if n < gentle then 15 else 9);
        RoundSent(before, sent, |old(sent)|, killed, n < gentle);
        killed := if n < gentle then |sent| else killed;
        if error.Some? {
          return;
        }
        if finished {
          forall key | key in members
            ensures Gone(kernel.history, members[key]) && !LiveIn(kernel.world, members[key])
          {
            assert !Signalled(sent, |before|, members[key]);
            GoneForEver(kernel.history, members[key]);
          }
          CoveredGone(kernel.history, leader, uid, members, check, last);
          return;
        }
      }
      error := Some(NotFinished);
    }

    /** What was known before time passed is still known. */
    lemma Longer(before: seq<World>)
      requires GroupOk(before, leader, leaderLife, identity.start, uid, made, members, seen, sent)
      requires before <= kernel.history && kernel.Valid() && identity.group == leader
      ensures Valid()
    {
      GroupLonger(before, kernel.history, leader, leaderLife, identity.start, uid, made, members, seen, sent);
    }
  }

  /** From `from` on, the signals before `killed` are SIGTERM and the others SIGKILL. */
  ghost predicate TermThenKill(sent: seq<Signal>, from: nat, killed: nat) {
    && (forall i :: from <= i < killed && i < |sent| ==> sent[i].value == 15)
    && (forall i :: from <= i < |sent| && killed <= i ==> sent[i].value == 9)
  }

  lemma RoundSent(before: seq<Signal>, sent: seq<Signal>, from: nat, killed: nat, gentle: bool)
    requires from <= killed <= |before| && before <= sent && TermThenKill(before, from, killed)
    requires gentle ==> killed == |before|
    requires forall i :: |before| <= i < |sent| ==> sent[i].value == if gentle then 15 else 9
    ensures TermThenKill(sent, from, if gentle then |sent| else killed)
  {
    assert forall i :: 0 <= i < |before| ==> sent[i] == before[i];
  }

  /** The life had ended at some moment, and so for ever. */
  ghost predicate Gone(h: seq<World>, life: Life) {
    exists j :: 0 <= j < |h| && life in h[j].born && !LiveIn(h[j], life)
  }

  lemma GoneForEver(h: seq<World>, life: Life)
    requires History(h) && Gone(h, life)
    ensures !LiveIn(h[|h| - 1], life)
  {
    var j :| 0 <= j < |h| && life in h[j].born && !LiveIn(h[j], life);
    DeadStays(h, j, |h| - 1, life);
  }

  lemma EndedIsGone(h: seq<World>, i: nat, pid: Pid, life: Life)
    requires History(h) && i < |h| && Has(h[i], pid, life) && !LiveIn(h[|h| - 1], life)
    ensures Gone(h, life)
  {
    HistoryOk(h, i);
    BornStays(h, i, |h| - 1, life);
  }

  ghost predicate Signalled(sent: seq<Signal>, from: nat, life: Life) {
    exists i :: from <= i < |sent| && sent[i].life == life
  }

  lemma GoneLonger(h: seq<World>, longer: seq<World>, members: map<Key, Life>)
    requires h <= longer
    ensures forall key :: key in members && Gone(h, members[key]) ==> Gone(longer, members[key])
  {
    assert forall j :: 0 <= j < |h| ==> longer[j] == h[j];
  }

  lemma SentMore(sent: seq<Signal>, from: nat, s: Signal, members: map<Key, Life>)
    requires from <= |sent|
    ensures forall key :: key in members && Signalled(sent, from, members[key]) ==> Signalled(sent + [s], from, members[key])
    ensures Signalled(sent + [s], from, s.life)
  {
    assert forall i :: 0 <= i < |sent| ==> (sent + [s])[i] == sent[i];
    assert (sent + [s])[|sent|] == s;
  }

  /** `new`: the child must lead its own group, and be the same process before and after the pin. */
  method Own(kernel: Kernel, pid: Pid, uid: int) returns (group: Option<OwnedGroup>, error: Option<Error>)
    requires kernel.Valid()
    modifies kernel
    ensures kernel.Valid() && (group.Some? <==> error.None?)
    ensures group.Some? ==>
              && fresh(group.value) && group.value.Valid() && group.value.kernel == kernel
              && group.value.leader == pid && group.value.uid == uid
              && group.value.sent == [] && Has(kernel.world, pid, group.value.leaderLife)
              && kernel.world.table[pid].group == pid
  {
    hide History;
    group, error := None, Some(Unreadable);
    var expected := kernel.Read(pid);
    if !expected.Found? {
      return;
    }
    if expected.value.group != pid {
      return None, Some(NotOwner);
    }
    ghost var first := |kernel.history| - 1;
    var handle := kernel.Pin(pid);
    if !handle.Found? {
      return;
    }
    ghost var pinned := |kernel.history| - 1;
    var again := kernel.Read(pid);
    if !again.Found? {
      return;
    }
    if again != expected {
      return None, Some(AnchorChanged);
    }
    ReadsNameOneLife(kernel.history, first, pinned, |kernel.history| - 1, pid);
    var owned := new OwnedGroup(kernel, pid, uid, expected.value, handle.value, first);
    group, error := Some(owned), None;
  }

  lemma MemberOf(h: seq<World>, leader: Pid, leaderLife: Life, start: nat, uid: int, made: nat,
                 members: map<Key, Life>, seen: map<Key, Seen>, sent: seq<Signal>, key: Key)
    requires GroupOk(h, leader, leaderLife, start, uid, made, members, seen, sent)
    requires key in members
    ensures key in seen && SeenOk(h, leader, leaderLife, uid, key.0, members[key], seen[key]) && StartOk(h, key, seen[key])
  {
    hide SeenOk, SignalOk, AnchorOk, StartOk;
  }

  lemma SeenBefore(h: seq<World>, leader: Pid, leaderLife: Life, start: nat, uid: int, made: nat,
                   members: map<Key, Life>, seen: map<Key, Seen>, sent: seq<Signal>)
    requires GroupOk(h, leader, leaderLife, start, uid, made, members, seen, sent)
    ensures forall key :: key in members ==> key in seen && seen[key].second < |h|
  {
    hide SignalOk, AnchorOk;
  }

  lemma AddSignal(h: seq<World>, leader: Pid, leaderLife: Life, start: nat, uid: int, made: nat,
                  members: map<Key, Life>, seen: map<Key, Seen>, sent: seq<Signal>, s: Signal)
    requires GroupOk(h, leader, leaderLife, start, uid, made, members, seen, sent)
    requires SignalOk(h, leader, leaderLife, uid, s)
    ensures GroupOk(h, leader, leaderLife, start, uid, made, members, seen, sent + [s])
  {
    hide SeenOk, SignalOk, AnchorOk;
  }

  /** The leader was there at the last check, so a signal to this member is well-founded. */
  lemma CanSignal(h: seq<World>, leader: Pid, leaderLife: Life, start: nat, uid: int, made: nat,
                  members: map<Key, Life>, seen: map<Key, Seen>, sent: seq<Signal>, key: Key, check: nat, s: Signal)
    requires GroupOk(h, leader, leaderLife, start, uid, made, members, seen, sent)
    requires History(h) && key in members && key in seen && check < |h| && Has(h[check], leader, leaderLife) && seen[key].second <= check
    requires s == Signal(key.0, members[key], s.value, seen[key], |h| - 1)
    ensures GroupOk(h, leader, leaderLife, start, uid, made, members, seen, sent + [s])
  {
    hide GroupOk, History, SeenOk, SignalOk;
    MemberOf(h, leader, leaderLife, start, uid, made, members, seen, sent, key);
    SignalFounded(h, leader, leaderLife, uid, key.0, members[key], seen[key], check, s.value);
    AddSignal(h, leader, leaderLife, start, uid, made, members, seen, sent, s);
  }

  lemma IsGone(h: seq<World>, leader: Pid, leaderLife: Life, start: nat, uid: int, made: nat,
               members: map<Key, Life>, seen: map<Key, Seen>, sent: seq<Signal>, key: Key)
    requires GroupOk(h, leader, leaderLife, start, uid, made, members, seen, sent)
    requires History(h) && key in members && h != [] && !LiveIn(h[|h| - 1], members[key])
    ensures Gone(h, members[key])
  {
    MemberOf(h, leader, leaderLife, start, uid, made, members, seen, sent, key);
    hide GroupOk, History, Gone, LiveIn;
    EndedIsGone(h, seen[key].pinned, key.0, members[key]);
  }

  /** This process of the user was in the group at every moment. */
  ghost predicate Stays(h: seq<World>, leader: Pid, uid: int, pid: Pid, life: Life, start: nat, from: nat, to: nat) {
    to < |h|
    && forall j :: from <= j <= to ==>
         && Has(h[j], pid, life) && h[j].table[pid].group == leader && h[j].table[pid].start == start
         && h[j].table[pid].uid == uid
  }

  predicate Holds(members: map<Key, Life>, pid: Pid, life: Life, start: nat) {
    (pid, start) in members && members[(pid, start)] == life
  }

  /** Whatever had this number and was a member all the time is pinned. */
  ghost predicate Covered(h: seq<World>, leader: Pid, uid: int, pid: Pid, members: map<Key, Life>, from: nat, to: nat) {
    forall life, start :: Stays(h, leader, uid, pid, life, start, from, to) ==> Holds(members, pid, life, start)
  }

  /** Nothing with this number was a member all the time. */
  lemma Absent(h: seq<World>, leader: Pid, uid: int, pid: Pid, members: map<Key, Life>, from: nat, k: nat, to: nat)
    requires from <= k <= to < |h| && (pid !in h[k].table || h[k].table[pid].group != leader)
    ensures Covered(h, leader, uid, pid, members, from, to)
  {
    forall life, start
      ensures !Stays(h, leader, uid, pid, life, start, from, to)
    {
      assert !(Has(h[k], pid, life) && h[k].table[pid].group == leader);
    }
  }

  lemma StaysAt(h: seq<World>, leader: Pid, uid: int, pid: Pid, life: Life, start: nat, from: nat, j: nat, to: nat)
    requires Stays(h, leader, uid, pid, life, start, from, to) && from <= j <= to
    ensures j < |h| && Has(h[j], pid, life) && h[j].table[pid].group == leader && h[j].table[pid].start == start
  {
  }

  lemma Changed(h: seq<World>, leader: Pid, uid: int, key: Key, members: map<Key, Life>, from: nat, first: nat, to: nat)
    requires from <= first <= to < |h| && key.0 in h[first].table && h[first].table[key.0].start == key.1
    requires key.0 !in h[to].table || h[to].table[key.0].group != leader || h[to].table[key.0].start != key.1
    ensures Covered(h, leader, uid, key.0, members, from, to)
  {
    hide Stays;
    forall life, start
      ensures !Stays(h, leader, uid, key.0, life, start, from, to)
    {
      if Stays(h, leader, uid, key.0, life, start, from, to) {
        StaysAt(h, leader, uid, key.0, life, start, from, first, to);
        StaysAt(h, leader, uid, key.0, life, start, from, to, to);
        assert false;
      }
    }
  }

  lemma Added(h: seq<World>, leader: Pid, uid: int, key: Key, handle: Life, members: map<Key, Life>, from: nat, first: nat,
              pinned: nat, to: nat)
    requires from <= first <= pinned <= to < |h| && key.0 in h[first].table && h[first].table[key.0].start == key.1
    requires Has(h[pinned], key.0, handle) && key in members && members[key] == handle
    ensures Covered(h, leader, uid, key.0, members, from, to)
  {
    forall life, start | Stays(h, leader, uid, key.0, life, start, from, to)
      ensures Holds(members, key.0, life, start)
    {
      assert Has(h[first], key.0, life) && h[first].table[key.0].start == start;
      assert Has(h[pinned], key.0, life);
    }
  }

  /** A member that is pinned already is pinned as this life: the start time tells lives apart. */
  lemma KeyHeld(h: seq<World>, leader: Pid, leaderLife: Life, began: nat, uid: int, made: nat, members: map<Key, Life>,
                seen: map<Key, Seen>, sent: seq<Signal>, key: Key, from: nat, first: nat, to: nat)
    requires GroupOk(h, leader, leaderLife, began, uid, made, members, seen, sent) && History(h)
    requires key in members && from <= first <= to < |h| && key.0 in h[first].table && h[first].table[key.0].start == key.1
    ensures Covered(h, leader, uid, key.0, members, from, to)
  {
    MemberOf(h, leader, leaderLife, began, uid, made, members, seen, sent, key);
    hide GroupOk, History, SignalOk;
    forall life, start | Stays(h, leader, uid, key.0, life, start, from, to)
      ensures Holds(members, key.0, life, start)
    {
      assert Has(h[first], key.0, life) && h[first].table[key.0].start == start;
      SameLife(h, key, members[key], life, seen[key].first, first);
    }
  }

  lemma SameLife(h: seq<World>, key: Key, a: Life, b: Life, i: nat, j: nat)
    requires History(h) && i < |h| && j < |h| && Has(h[i], key.0, a) && Has(h[j], key.0, b)
    requires h[i].table[key.0].start == h[j].table[key.0].start == key.1
    ensures a == b
  {
    if i <= j {
      ReadsNameOneLife(h, i, i, j, key.0);
    } else {
      ReadsNameOneLife(h, j, j, i, key.0);
    }
  }

  lemma StartSeen(h: seq<World>, key: Key, seen: Seen)
    requires seen.first < |h| && key.0 in h[seen.first].table && h[seen.first].table[key.0].start == key.1
    ensures StartOk(h, key, seen)
  {
  }

  /** More time and more members lose nothing. */
  lemma CoveredLater(h: seq<World>, longer: seq<World>, leader: Pid, uid: int, pid: Pid, had: map<Key, Life>,
                     members: map<Key, Life>, from: nat)
    requires h != [] && h <= longer && from < |h| && Covered(h, leader, uid, pid, had, from, |h| - 1)
    requires had.Keys <= members.Keys && forall key :: key in had ==> members[key] == had[key]
    ensures Covered(longer, leader, uid, pid, members, from, |longer| - 1)
  {
    hide Stays;
    forall life, start | Stays(longer, leader, uid, pid, life, start, from, |longer| - 1)
      ensures Holds(members, pid, life, start)
    {
      StaysEarlier(h, longer, leader, uid, pid, life, start, from, |h| - 1, |longer| - 1);
    }
  }

  lemma StaysEarlier(h: seq<World>, longer: seq<World>, leader: Pid, uid: int, pid: Pid, life: Life, start: nat, from: nat,
                     to: nat, later: nat)
    requires h <= longer && to < |h| && to <= later && Stays(longer, leader, uid, pid, life, start, from, later)
    ensures Stays(h, leader, uid, pid, life, start, from, to)
  {
    assert forall j :: 0 <= j < |h| ==> longer[j] == h[j];
  }

  lemma CoveredFrom(h: seq<World>, leader: Pid, uid: int, pid: Pid, members: map<Key, Life>, from: nat, later: nat, to: nat)
    requires from <= later && Covered(h, leader, uid, pid, members, later, to)
    ensures Covered(h, leader, uid, pid, members, from, to)
  {
    forall life, start | Stays(h, leader, uid, pid, life, start, from, to)
      ensures Stays(h, leader, uid, pid, life, start, later, to)
    {
    }
  }

  /** Every number that was not listed was free then. */
  lemma AllCovered(h: seq<World>, leader: Pid, uid: int, entries: seq<Pid>, members: map<Key, Life>, from: nat, listed: nat, to: nat)
    requires from <= listed <= to < |h| && forall pid :: pid in h[listed].table ==> pid in entries
    requires forall i :: 0 <= i < |entries| ==> Covered(h, leader, uid, entries[i], members, from, to)
    ensures forall pid :: Covered(h, leader, uid, pid, members, from, to)
  {
    forall pid
      ensures Covered(h, leader, uid, pid, members, from, to)
    {
      if pid !in h[listed].table {
        Absent(h, leader, uid, pid, members, from, listed, to);
      }
    }
  }

  lemma CoveredStays(h: seq<World>, longer: seq<World>, leader: Pid, uid: int, members: map<Key, Life>, from: nat, to: nat)
    requires h <= longer && to < |h| && forall pid :: Covered(h, leader, uid, pid, members, from, to)
    ensures forall pid :: Covered(longer, leader, uid, pid, members, from, to)
  {
    forall pid, life, start | Stays(longer, leader, uid, pid, life, start, from, to)
      ensures Holds(members, pid, life, start)
    {
      StaysEarlier(h, longer, leader, uid, pid, life, start, from, to, to);
      assert Covered(h, leader, uid, pid, members, from, to);
    }
  }

  lemma CoveredGone(h: seq<World>, leader: Pid, uid: int, members: map<Key, Life>, from: nat, to: nat)
    requires h != [] && forall pid :: Covered(h, leader, uid, pid, members, from, to)
    requires forall key :: key in members ==> !LiveIn(h[|h| - 1], members[key])
    ensures forall pid, life, start :: Stays(h, leader, uid, pid, life, start, from, to) ==> !LiveIn(h[|h| - 1], life)
  {
    forall pid, life, start | Stays(h, leader, uid, pid, life, start, from, to)
      ensures !LiveIn(h[|h| - 1], life)
    {
      assert Covered(h, leader, uid, pid, members, from, to);
      assert members[(pid, start)] == life;
    }
  }

  lemma AddMember(h: seq<World>, leader: Pid, leaderLife: Life, start: nat, uid: int, made: nat,
                  members: map<Key, Life>, seen: map<Key, Seen>, sent: seq<Signal>, key: Key, life: Life, moments: Seen)
    requires GroupOk(h, leader, leaderLife, start, uid, made, members, seen, sent)
    requires SeenOk(h, leader, leaderLife, uid, key.0, life, moments) && StartOk(h, key, moments)
    ensures GroupOk(h, leader, leaderLife, start, uid, made, members[key := life], seen[key := moments], sent)
  {
  }

  lemma AnchorOf(h: seq<World>, leader: Pid, leaderLife: Life, start: nat, uid: int, made: nat,
                 members: map<Key, Life>, seen: map<Key, Seen>, sent: seq<Signal>)
    requires GroupOk(h, leader, leaderLife, start, uid, made, members, seen, sent)
    ensures AnchorOk(h, leader, leaderLife, start, made)
  {
  }
}
