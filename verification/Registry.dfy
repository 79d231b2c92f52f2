/** The registered peers of a mailbox (src/store.rs) over whole runs. */
module Registry {
  import opened Common
  import opened Mailbox
  import opened MailboxRuns

  /** No session of a harness has two names. */
  ghost predicate OneName(db: Db) {
    forall a, b :: a in db.peers && b in db.peers && a != b && db.peers[a].session.Some? ==>
      (db.peers[a].harness, db.peers[a].session) != (db.peers[b].harness, db.peers[b].session)
  }

  lemma RegisterKeepsOneName(db: Db, name: Name, peer: Peer)
    requires OneName(db)
    ensures OneName(Apply(db, Register(name, peer)))
  {
  }

  lemma ApplyKeepsOneName(db: Db, op: Op)
    requires OneName(db)
    ensures OneName(Apply(db, op))
  {
    if op.Register? {
      RegisterKeepsOneName(db, op.name, op.peer);
    } else {
      assert Apply(db, op).peers == db.peers;
    }
  }

  lemma {:induction false} RunKeepsOneName(run: seq<System>, i: nat)
    requires Run(run) && i < |run| && OneName(run[0].db)
    ensures OneName(run[i].db)
  {
    if i == 0 {
    } else {
      RunKeepsOneName(run, i - 1);
      RunKeepsInv(run, i - 1);
      assert Step(run[i - 1], run[i]);
      var p, a :| Enabled(run[i - 1], p, a) && run[i] == Do(run[i - 1], p, a);
      hide Inv, Do, Enabled, OneName;
      OpOfStep(run[i - 1], p, a);
      if OpOf(run[i - 1], p, a).Some? {
        ApplyKeepsOneName(run[i - 1].db, OpOf(run[i - 1], p, a).value);
      }
    }
  }

  /** Over a run each session keeps one name and each name its address, which no later registration
      changes. */
  lemma OneNameOneAddress(run: seq<System>, i: nat, j: nat, name: Name)
    requires Run(run) && i <= j < |run| && OneName(run[0].db) && name in run[i].db.peers
    ensures name in run[j].db.peers && run[j].db.peers[name] == run[i].db.peers[name]
    ensures forall other :: other in run[j].db.peers && other != name && run[j].db.peers[other].session.Some? ==>
              (run[j].db.peers[other].harness, run[j].db.peers[other].session)
              != (run[i].db.peers[name].harness, run[i].db.peers[name].session)
    ensures forall peer :: RegisterError(run[j].db, name, peer)
              == if peer == run[i].db.peers[name] then None else Some(PeerHasAnotherAddress)
  {
    RunKeepsOneName(run, j);
    RunGrows(run, i, j);
    hide Run;
  }
}
