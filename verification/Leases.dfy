/** The relay's two steps in plain terms: what a claim takes and for how long, what a dispatch leaves, and that nobody
    touches a row before its lease or its waiting time is over. */
module Leases {
  import opened Model
  import opened Accounting
  import opened ControlPlane
  import opened Outbox
  import opened Protocol
  import opened Invariant
  import opened Delivery

  // ----- Claims -----

  /** Queued and due, or abandoned under a lease that is over. */
  predicate Available(row: OutboxRow, now: nat) {
    || (row.status.Queued? && row.nextAttemptAt <= now)
    || (row.status.Publishing? && row.lockExpiresAt.Some? && row.lockExpiresAt.value < now)
  }

  function AvailableRows(db: Db): set<nat> {
    set m: nat | m < |db.outbox| && Available(db.outbox[m], db.now)
  }

  predicate Claims(p: Node, m: nat) {
    exists k :: 0 <= k < |p.batch| && p.batch[k].id == m
  }

  /** Row `m` before and after a claim by `locker`. */
  predicate ClaimLeaves(cfg: Config, row: OutboxRow, after: OutboxRow, locker: nat, now: nat, taken: bool) {
    && (taken ==>
          && Available(row, now)
          && after == row.(status := Publishing, lockedBy := Some(locker),
                           lockExpiresAt := Some(now + AtLeastOne(cfg.lockTimeout)),
                           nextAttemptAt := if row.status.Queued? then row.nextAttemptAt else now))
    && (!taken && Available(row, now) ==>
          after == if row.status.Queued? then row
                   else row.(status := OutboxStatus.Queued, lockedBy := None, lockExpiresAt := None,
                             nextAttemptAt := now))
    && (!Available(row, now) ==> after == row)
  }

  /** A claim leases available rows only, for exactly the lock timeout, as many as there are up to the batch size;
      rows under an expired lease that it leaves behind are queued again; no other row changes. */
  lemma ClaimTakesAvailable(cfg: Config, p: Node, a: Action)
    requires a.RelayClaim? && p.batch == []
    ensures var q := Next(cfg, p, a);
            && q.db == p.db.(outbox := q.db.outbox) && |q.db.outbox| == |p.db.outbox|
            && |q.batch| == Min(|AvailableRows(p.db)|, AtLeastOne(cfg.batchSize))
            && (forall k :: 0 <= k < |q.batch| ==>
                  && q.batch[k].id < |p.db.outbox|
                  && q.batch[k] == Claimed(q.batch[k].id, p.db.outbox[q.batch[k].id].attempts,
                                           p.db.outbox[q.batch[k].id].maxAttempts))
            && (forall j, k :: 0 <= j < k < |q.batch| ==> q.batch[j].id != q.batch[k].id)
            && (forall m :: 0 <= m < |p.db.outbox| ==>
                  ClaimLeaves(cfg, p.db.outbox[m], q.db.outbox[m], a.locker, p.db.now, Claims(q, m)))
  {
    var rows, q := Recover(p.db.outbox, p.db.now), Next(cfg, p, a);
    var ids := ClaimIds(cfg, rows, p.db.now);
    ClaimStep(cfg, p, a);
    ClaimMeans(cfg, p, a.locker);
    ClaimIdsFacts(cfg, rows, p.db.now);
    DueRowsAreAvailable(p.db);
    forall m: nat | m < |p.db.outbox|
      ensures ClaimLeaves(cfg, p.db.outbox[m], q.db.outbox[m], a.locker, p.db.now, Claims(q, m))
    {
      assert Claims(q, m) <==> m in ids;
      assert rows[m] == RecoverRow(p.db.outbox[m], p.db.now);
    }
  }

  lemma DueRowsAreAvailable(db: Db)
    ensures var rows := Recover(db.outbox, db.now);
            |DueAmong(rows, db.now, |rows|)| == |AvailableRows(db)|
  {
    var rows := Recover(db.outbox, db.now);
    var due := DueAmong(rows, db.now, |rows|);
    DueAmongIsExact(rows, db.now, |rows|);
    forall m: nat ensures m in Elements(due) <==> m in AvailableRows(db) {
    }
    assert Elements(due) == AvailableRows(db);
    DistinctSize(due);
  }

  // ----- Dispatches -----

  /** A dispatch handles the head of the batch, as the broker decides, and nothing else. */
  lemma DispatchHandlesHead(cfg: Config, p: Node, a: Action)
    requires RelayOk(p) && a.RelayDispatch? && p.batch != []
    ensures var m, q := p.batch[0].id, Next(cfg, p, a);
            && m < |p.db.outbox| && |q.db.outbox| == |p.db.outbox|
            && q == Node(p.db.(outbox := q.db.outbox), p.batch[1..])
            && (forall r :: 0 <= r < |p.db.outbox| && r != m ==> q.db.outbox[r] == p.db.outbox[r])
            && DispatchLeaves(cfg, p.db.outbox[m], q.db.outbox[m], a.outcome, p.db.now)
  {
    assert CopyOk(p.db.outbox, p.batch[0]);
    DispatchStep(cfg, p, a);
    DispatchRowLeaves(cfg, p.db.outbox[p.batch[0].id], p.batch[0], a.outcome, p.db.now);
  }

  // ----- Nobody comes early -----

  /** Queued but not yet due, or leased to someone whose lease is not over. */
  predicate Asleep(row: OutboxRow, now: nat) {
    || (row.status.Queued? && now < row.nextAttemptAt)
    || (row.status.Publishing? && row.lockExpiresAt.Some? && now <= row.lockExpiresAt.value)
  }

  lemma AsleepRowStays(cfg: Config, p: Node, a: Action, m: nat)
    requires RelayOk(p) && m < |p.db.outbox| && Asleep(p.db.outbox[m], p.db.now)
    requires !(a.RelayDispatch? && AtHead(p, m))
    ensures m < |Next(cfg, p, a).db.outbox| && Next(cfg, p, a).db.outbox[m] == p.db.outbox[m]
    ensures !ClaimedBy(cfg, p, a, m)
  {
    if a.RelayClaim? && p.batch == [] {
      ClaimTakesAvailable(cfg, p, a);
      ClaimIdsFacts(cfg, Recover(p.db.outbox, p.db.now), p.db.now);
    } else if a.RelayDispatch? && p.batch != [] {
      assert CopyOk(p.db.outbox, p.batch[0]);
      DispatchHandlesHead(cfg, p, a);
    } else if !RelayMoves(a) {
      OthersOnlyAppend(cfg, p, a);
    }
  }

  /** In any run, with crashes anywhere: until its waiting time is over a queued row stays as it is and is not claimed;
      until its lease is over a leased row stays as it is and is not claimed again, unless its holder dispatches it. */
  lemma {:induction false} NobodyComesEarly(cfg: Config, p: Node, acts: seq<Action>, m: nat)
    requires RelayOk(p) && m < |p.db.outbox| && Asleep(p.db.outbox[m], Run(cfg, p, acts).db.now)
    requires p.db.outbox[m].status.Queued? || Ledger(cfg, p, acts, m).dispatches == 0
    ensures m < |Run(cfg, p, acts).db.outbox| && Run(cfg, p, acts).db.outbox[m] == p.db.outbox[m]
    ensures Ledger(cfg, p, acts, m).claims == 0
  {
    if acts != [] {
      var n := |acts| - 1;
      var mid := Run(cfg, p, acts[..n]);
      TimeOnlyGrows(cfg, mid, acts[n]);
      RunKeepsRelayOk(cfg, p, acts[..n]);
      NobodyComesEarly(cfg, p, acts[..n], m);
      if AtHead(mid, m) {
        assert CopyOk(mid.db.outbox, mid.batch[0]);
      }
      AsleepRowStays(cfg, mid, acts[n], m);
    }
  }

  /** After its k-th failed attempt a row is left alone for min(R, 2^k) seconds, whatever the run does. */
  lemma {:induction false} BackoffIsRespected(cfg: Config, p: Node, a: Action, acts: seq<Action>)
    requires RelayOk(p) && a.RelayDispatch? && p.batch != []
    requires var m, k := p.batch[0].id, p.batch[0].attempts + 1;
             && m < |Next(cfg, p, a).db.outbox| && Next(cfg, p, a).db.outbox[m].status.Queued?
             && 0.0 <= a.outcome.jitter <= 1.0
             && a.outcome.jitter <= (Min(AtLeastOne(cfg.retryMax), Pow2(k)) as real) * 0.25
             && Run(cfg, Next(cfg, p, a), acts).db.now < p.db.now + Min(AtLeastOne(cfg.retryMax), Pow2(k))
    ensures var m, q := p.batch[0].id, Next(cfg, p, a);
            && m < |Run(cfg, q, acts).db.outbox| && Run(cfg, q, acts).db.outbox[m] == q.db.outbox[m]
            && q.db.outbox[m].attempts == p.batch[0].attempts + 1
            && Ledger(cfg, q, acts, m).claims == 0
  {
    assert CopyOk(p.db.outbox, p.batch[0]);
    DispatchHandlesHead(cfg, p, a);
    StepKeepsRelayOk(cfg, p, a);
    NobodyComesEarly(cfg, Next(cfg, p, a), acts, p.batch[0].id);
  }
}
