/** The stale-task sweep: what it selects, what it changes, and how many sweeps clear a backlog. */
module Sweeping {
  import opened Model
  import opened Accounting
  import opened ControlPlane
  import opened Protocol
  import opened Invariant

  // ----- Task and outbox pairing -----

  predicate IsCommandRow(db: Db, t: nat, r: nat)
    requires t < |db.tasks|
  {
    r < |db.outbox| && db.outbox[r].task == t && db.outbox[r].topic == Lifecycle(db.tasks[t].command)
  }

  /** Every task has exactly one outbox row for its command; that row carries the task's own request id,
      and no other row does. */
  lemma ExactlyOneCommandRow(db: Db, t: nat) returns (r: nat)
    requires Inv(db) && t < |db.tasks|
    ensures IsCommandRow(db, t, r) && db.outbox[r].request == db.tasks[t].request
    ensures forall q :: IsCommandRow(db, t, q) ==> q == r
    ensures forall q :: 0 <= q < |db.outbox| && db.outbox[q].request == db.tasks[t].request ==> q == r
  {
    assert HasCommandRow(db, t);
    r :| 0 <= r < |db.outbox| && db.outbox[r].task == t && db.outbox[r].topic == Lifecycle(db.tasks[t].command);
    assert LinkOk(db, r);
    forall q | 0 <= q < |db.outbox| && (db.outbox[q].request == db.tasks[t].request || IsCommandRow(db, t, q))
      ensures q == r
    {
      assert LinkOk(db, q);
    }
  }

  /** The sweep's "no outbox row" case never arises, and it never picks a task whose command still waits
      to be published: a stale task's row was sent before the cutoff, or has failed. */
  lemma StaleTaskWasPublishedOrFailed(db: Db, t: nat, r: nat, cutoff: int)
    requires Inv(db) && t < |db.tasks| && IsCommandRow(db, t, r)
    ensures Stale(db, t, cutoff) <==>
              db.tasks[t].status.Queued? && db.tasks[t].createdAt < cutoff && Expired(db.outbox[r], cutoff)
    ensures Stale(db, t, cutoff) ==> !db.outbox[r].status.Queued? && !db.outbox[r].status.Publishing?
  {
    var own := ExactlyOneCommandRow(db, t);
    if HasExpiredCommandRow(db, t, cutoff) {
      var q :| 0 <= q < |db.outbox| && db.outbox[q].task == t && db.outbox[q].topic == Lifecycle(db.tasks[t].command)
               && Expired(db.outbox[q], cutoff);
      assert IsCommandRow(db, t, q);
    }
  }

  // ----- Selection -----

  lemma {:induction false} StaleAmongIsExact(db: Db, cutoff: int, n: nat)
    requires n <= |db.tasks|
    ensures forall t: nat :: t in StaleAmong(db, cutoff, n) <==> t < n && Stale(db, t, cutoff)
    ensures forall j, k :: 0 <= j < k < |StaleAmong(db, cutoff, n)| ==>
        StaleAmong(db, cutoff, n)[j] < StaleAmong(db, cutoff, n)[k]
  {
    if n > 0 {
      StaleAmongIsExact(db, cutoff, n - 1);
      var front := StaleAmong(db, cutoff, n - 1);
      assert forall j :: 0 <= j < |front| ==> front[j] in front;
    }
  }

  function AllStale(cfg: Config, db: Db): seq<nat> {
    StaleAmong(db, Cutoff(cfg, db.now), |db.tasks|)
  }

  /** A sweep picks stale tasks only, each once, and at most 100. */
  lemma PickIsStale(cfg: Config, db: Db)
    ensures |SweepPick(cfg, db)| == if |AllStale(cfg, db)| < SWEEP_LIMIT then |AllStale(cfg, db)| else SWEEP_LIMIT
    ensures forall t :: t in SweepPick(cfg, db) ==> t < |db.tasks| && Stale(db, t, Cutoff(cfg, db.now))
    ensures Distinct(SweepPick(cfg, db))
    ensures SweepPick(cfg, db) <= AllStale(cfg, db)
  {
    var all, pick := AllStale(cfg, db), SweepPick(cfg, db);
    StaleAmongIsExact(db, Cutoff(cfg, db.now), |db.tasks|);
    assert forall j :: 0 <= j < |pick| ==> pick[j] == all[j] && all[j] in all;
  }

  /** A sweep skips no stale task that is older than one it picks. */
  lemma PickIsOldestFirst(cfg: Config, db: Db, p: nat, t: nat)
    requires CreationOrder(db) && t < |db.tasks|
    requires p in SweepPick(cfg, db) && Stale(db, t, Cutoff(cfg, db.now)) && t !in SweepPick(cfg, db)
    ensures p < |db.tasks| && db.tasks[p].createdAt <= db.tasks[t].createdAt
  {
    var all, pick := AllStale(cfg, db), SweepPick(cfg, db);
    PickIsStale(cfg, db);
    StaleAmongIsExact(db, Cutoff(cfg, db.now), |db.tasks|);
    assert forall x :: 0 <= x < |pick| ==> all[x] != t;
    var j :| 0 <= j < |pick| && pick[j] == p;
    var k :| 0 <= k < |all| && all[k] == t;
    assert all[j] < all[k];
  }

  // ----- Effect -----

  function TimedOut(task: Task): Task {
    task.(status := TaskStatus.Failed, attempts := Max(task.attempts, 1), errorCode := Some("TIMEOUT"))
  }

  /** Row `i` after its active task, if it is among `ids`, has been undone. */
  function UndoneRow(db: Db, ids: seq<nat>, i: nat): Instance
    requires i < |db.instances|
  {
    var row := db.instances[i];
    if Pending(row.status) && row.lastTask.Some? && row.lastTask.value in ids && row.lastTask.value < |db.tasks|
    then Revert(row, db.tasks[row.lastTask.value].command, db.tasks[row.lastTask.value].payload)
    else row
  }

  predicate Queue(db: Db, ids: seq<nat>) {
    Distinct(ids) && forall t :: t in ids ==> t < |db.tasks| && db.tasks[t].status.Queued?
  }

  predicate Undone(db: Db, after: Db, ids: seq<nat>) {
    && after == db.(tasks := after.tasks, instances := after.instances)
    && |after.tasks| == |db.tasks| && |after.instances| == |db.instances|
    && (forall t :: 0 <= t < |db.tasks| ==> after.tasks[t] == if t in ids then TimedOut(db.tasks[t]) else db.tasks[t])
    && (forall i :: 0 <= i < |db.instances| ==> after.instances[i] == UndoneRow(db, ids, i))
  }

  /** Failing a list of queued tasks one by one changes each listed task and its own instance, and nothing
      else; no task is skipped and no undo sees the effect of another. */
  lemma {:induction false} FailAllEffect(db: Db, ids: seq<nat>)
    requires Inv(db) && Queue(db, ids)
    ensures Undone(db, FailAll(db, ids), ids)
  {
    if ids != [] {
      var front, t := ids[..|ids| - 1], ids[|ids| - 1];
      assert Queue(db, front) by {
        assert forall k :: k in front ==> k in ids;
      }
      FailAllEffect(db, front);
      var mid, after := FailAll(db, front), FailAll(db, ids);
      assert t in ids && t !in front;
      assert forall k :: k in ids <==> k in front || k == t;
      assert TaskOk(db, t);
      var i := db.tasks[t].instance;
      assert mid.tasks[t] == db.tasks[t] && mid.instances[i] == db.instances[i];
      forall j | 0 <= j < |db.instances| ensures after.instances[j] == UndoneRow(db, ids, j) {
        assert RowOk(db, j);
      }
    }
  }

  /** The order in which a sweep handles its tasks does not matter. */
  lemma SweepOrderIrrelevant(db: Db, ids: seq<nat>, other: seq<nat>)
    requires Inv(db) && Queue(db, ids) && Distinct(other)
    requires forall t :: t in ids <==> t in other
    ensures FailAll(db, other) == FailAll(db, ids)
  {
    FailAllEffect(db, ids);
    FailAllEffect(db, other);
    var a, b := FailAll(db, ids), FailAll(db, other);
    forall i | 0 <= i < |db.instances| ensures a.instances[i] == b.instances[i] {
      assert a.instances[i] == UndoneRow(db, ids, i) && b.instances[i] == UndoneRow(db, other, i);
    }
    assert a.tasks == b.tasks && a.instances == b.instances;
  }

  lemma PickIsQueue(cfg: Config, db: Db)
    requires Inv(db)
    ensures Queue(db, SweepPick(cfg, db))
  {
    PickIsStale(cfg, db);
  }

  predicate LeavesPending(db: Db, after: Db, i: nat) {
    && i < |db.instances| && i < |after.instances|
    && Pending(db.instances[i].status) && !Pending(after.instances[i].status)
  }

  /** One sweep: exactly the picked tasks fail, their pairwise distinct instances leave their pending
      status, and no other task, instance or outbox row changes. */
  lemma SweepEffect(cfg: Config, db: Db)
    requires Inv(db)
    ensures Undone(db, SweepOnce(cfg, db), SweepPick(cfg, db))
    ensures forall t :: t in SweepPick(cfg, db) ==>
        t < |db.tasks| && LeavesPending(db, SweepOnce(cfg, db), db.tasks[t].instance)
    ensures forall s, t :: 0 <= s < t < |db.tasks| && s in SweepPick(cfg, db) && t in SweepPick(cfg, db) ==>
              db.tasks[s].instance != db.tasks[t].instance
    ensures forall i :: 0 <= i < |db.instances| && SweepOnce(cfg, db).instances[i] != db.instances[i] ==>
              exists t :: 0 <= t < |db.tasks| && t in SweepPick(cfg, db) && db.tasks[t].instance == i
  {
    var pick, after := SweepPick(cfg, db), SweepOnce(cfg, db);
    PickIsQueue(cfg, db);
    FailAllEffect(db, pick);
    forall s, t | 0 <= s < t < |db.tasks| && s in pick && t in pick
      ensures db.tasks[s].instance != db.tasks[t].instance
    {
      if db.tasks[s].instance == db.tasks[t].instance {
        AtMostOneActiveTask(db, s, t);
      }
    }
    forall t | t in pick ensures t < |db.tasks| && LeavesPending(db, after, db.tasks[t].instance) {
      assert TaskOk(db, t);
      assert after.instances[db.tasks[t].instance] == UndoneRow(db, pick, db.tasks[t].instance);
    }
    forall i | 0 <= i < |db.instances| && after.instances[i] != db.instances[i]
      ensures exists t :: 0 <= t < |db.tasks| && t in pick && db.tasks[t].instance == i
    {
      assert after.instances[i] == UndoneRow(db, pick, i);
      assert RowOk(db, i);
      assert db.instances[i].lastTask.value in pick;
    }
  }

  // ----- A backlog of n stale tasks is cleared by ceil(n / 100) sweeps -----

  function SweepTimes(cfg: Config, db: Db, k: nat): Db {
    if k == 0 then db else SweepOnce(cfg, SweepTimes(cfg, db, k - 1))
  }

  lemma StaleAfter(db: Db, after: Db, ids: seq<nat>, t: nat, cutoff: int)
    requires Undone(db, after, ids) && t < |db.tasks|
    ensures Stale(after, t, cutoff) <==> Stale(db, t, cutoff) && t !in ids
  {
    assert HasCommandRow(after, t) <==> HasCommandRow(db, t);
    assert HasExpiredCommandRow(after, t, cutoff) <==> HasExpiredCommandRow(db, t, cutoff);
  }

  function Drop(s: seq<nat>, k: nat): seq<nat> {
    if |s| <= k then [] else s[k..]
  }

  /** The listing of the first `n` tasks is a prefix of the whole listing. */
  lemma {:induction false} StalePrefix(db: Db, cutoff: int, n: nat, m: nat)
    requires n <= m <= |db.tasks|
    ensures StaleAmong(db, cutoff, n) <= StaleAmong(db, cutoff, m)
    decreases m
  {
    if n < m {
      StalePrefix(db, cutoff, n, m - 1);
    }
  }

  function Take(s: seq<nat>, k: nat): seq<nat> {
    if |s| <= k then s else s[..k]
  }

  /** A stale task is among the first `k` listed exactly when fewer than `k` are listed before it. */
  lemma AmongFirst(db: Db, cutoff: int, k: nat, t: nat)
    requires t < |db.tasks| && Stale(db, t, cutoff)
    ensures t in Take(StaleAmong(db, cutoff, |db.tasks|), k) <==> |StaleAmong(db, cutoff, t)| < k
  {
    var all, at := StaleAmong(db, cutoff, |db.tasks|), |StaleAmong(db, cutoff, t)|;
    StaleAmongIsExact(db, cutoff, |db.tasks|);
    StalePrefix(db, cutoff, t + 1, |db.tasks|);
    assert StaleAmong(db, cutoff, t + 1)[at] == t;
    assert all[at] == t;
    if at < k {
      assert Take(all, k)[at] == t;
    }
  }

  lemma DropSnoc(s: seq<nat>, x: nat, k: nat)
    ensures Drop(s + [x], k) == if |s| < k then Drop(s, k) else Drop(s, k) + [x]
  {
  }

  lemma StaysStaleAfter(db: Db, after: Db, cutoff: int, k: nat, t: nat)
    requires t < |db.tasks|
    requires Undone(db, after, Take(StaleAmong(db, cutoff, |db.tasks|), k))
    ensures Stale(after, t, cutoff) <==> Stale(db, t, cutoff) && k <= |StaleAmong(db, cutoff, t)|
  {
    StaleAfter(db, after, Take(StaleAmong(db, cutoff, |db.tasks|), k), t, cutoff);
    if Stale(db, t, cutoff) {
      AmongFirst(db, cutoff, k, t);
    }
  }

  lemma StaleAmongAfter(db: Db, after: Db, cutoff: int, k: nat, n: nat)
    requires n <= |db.tasks|
    requires Undone(db, after, Take(StaleAmong(db, cutoff, |db.tasks|), k))
    ensures StaleAmong(after, cutoff, n) == Drop(StaleAmong(db, cutoff, n), k)
  {
    for m := 0 to n
      invariant StaleAmong(after, cutoff, m) == Drop(StaleAmong(db, cutoff, m), k)
    {
      StaysStaleAfter(db, after, cutoff, k, m);
      DropSnoc(StaleAmong(db, cutoff, m), m, k);
    }
  }

  lemma DropTwice(s: seq<nat>, n: nat)
    ensures Drop(Drop(s, SWEEP_LIMIT * n), SWEEP_LIMIT) == Drop(s, SWEEP_LIMIT * (n + 1))
  {
  }

  /** What one sweep takes off the listing. */
  lemma SweepTakesFirst(cfg: Config, db: Db)
    requires Inv(db)
    ensures Inv(SweepOnce(cfg, db)) && SweepOnce(cfg, db).now == db.now && |SweepOnce(cfg, db).tasks| == |db.tasks|
    ensures AllStale(cfg, SweepOnce(cfg, db)) == Drop(AllStale(cfg, db), SWEEP_LIMIT)
  {
    FailAllKeepsInv(db, SweepPick(cfg, db));
    PickIsQueue(cfg, db);
    FailAllEffect(db, SweepPick(cfg, db));
    StaleAmongAfter(db, SweepOnce(cfg, db), Cutoff(cfg, db.now), SWEEP_LIMIT, |db.tasks|);
  }

  lemma SweepTimesLeaves(cfg: Config, db: Db, k: nat)
    requires Inv(db)
    ensures Inv(SweepTimes(cfg, db, k))
    ensures SweepTimes(cfg, db, k).now == db.now && |SweepTimes(cfg, db, k).tasks| == |db.tasks|
    ensures AllStale(cfg, SweepTimes(cfg, db, k)) == Drop(AllStale(cfg, db), SWEEP_LIMIT * k)
  {
    var end := db;
    for n := 0 to k
      invariant end == SweepTimes(cfg, db, n) && Inv(end)
      invariant end.now == db.now && |end.tasks| == |db.tasks|
      invariant AllStale(cfg, end) == Drop(AllStale(cfg, db), SWEEP_LIMIT * n)
    {
      SweepTakesFirst(cfg, end);
      DropTwice(AllStale(cfg, db), n);
      end := SweepOnce(cfg, end);
    }
  }

  /** With nothing new arriving and the cutoff held fixed, n stale tasks are gone after ceil(n / 100) sweeps. */
  lemma BacklogIsCleared(cfg: Config, db: Db)
    requires Inv(db)
    ensures var sweeps := (|AllStale(cfg, db)| + SWEEP_LIMIT - 1) / SWEEP_LIMIT;
            forall t :: 0 <= t < |db.tasks| && Stale(db, t, Cutoff(cfg, db.now)) ==>
              && |SweepTimes(cfg, db, sweeps).tasks| == |db.tasks|
              && !Stale(SweepTimes(cfg, db, sweeps), t, Cutoff(cfg, db.now))
  {
    var sweeps := (|AllStale(cfg, db)| + SWEEP_LIMIT - 1) / SWEEP_LIMIT;
    SweepTimesLeaves(cfg, db, sweeps);
    assert AllStale(cfg, SweepTimes(cfg, db, sweeps)) == [];
    StaleAmongIsExact(SweepTimes(cfg, db, sweeps), Cutoff(cfg, db.now), |db.tasks|);
  }

  // ----- When a queued task is taken: the timeout in seconds -----

  /** Task `t` has been queued for longer than the timeout, and its command has failed to leave the outbox, or left
      it longer ago than the timeout. */
  ghost predicate LeftUnanswered(cfg: Config, db: Db, t: nat) {
    && t < |db.tasks| && db.tasks[t].status.Queued?
    && db.tasks[t].createdAt + AtLeastOne(cfg.queuedTimeout) < db.now
    && exists r: nat :: IsCommandRow(db, t, r) && Unanswered(cfg, db.outbox[r], db.now)
  }

  predicate Unanswered(cfg: Config, row: OutboxRow, now: nat) {
    || row.status.Failed?
    || (row.status.Sent? && row.sentAt.Some? && row.sentAt.value + AtLeastOne(cfg.queuedTimeout) < now)
  }

  lemma StaleMeansUnanswered(cfg: Config, db: Db, t: nat)
    requires Inv(db) && t < |db.tasks|
    ensures Stale(db, t, Cutoff(cfg, db.now)) <==> LeftUnanswered(cfg, db, t)
  {
    var r := ExactlyOneCommandRow(db, t);
    StaleTaskWasPublishedOrFailed(db, t, r, Cutoff(cfg, db.now));
    assert Expired(db.outbox[r], Cutoff(cfg, db.now)) <==> Unanswered(cfg, db.outbox[r], db.now);
  }

  /** The listing a sweep starts from is exactly the tasks left unanswered for longer than the timeout. */
  lemma ListingIsUnanswered(cfg: Config, db: Db, t: nat)
    requires Inv(db)
    ensures t in AllStale(cfg, db) <==> LeftUnanswered(cfg, db, t)
  {
    StaleAmongIsExact(db, Cutoff(cfg, db.now), |db.tasks|);
    if t < |db.tasks| {
      StaleMeansUnanswered(cfg, db, t);
    }
  }

  ghost function UnansweredBefore(cfg: Config, db: Db, t: nat): set<nat> {
    set u: nat | u < t && LeftUnanswered(cfg, db, u)
  }

  lemma ListedBefore(cfg: Config, db: Db, t: nat)
    requires Inv(db) && t <= |db.tasks|
    ensures |StaleAmong(db, Cutoff(cfg, db.now), t)| == |UnansweredBefore(cfg, db, t)|
  {
    var listed := StaleAmong(db, Cutoff(cfg, db.now), t);
    StaleAmongIsExact(db, Cutoff(cfg, db.now), t);
    forall u: nat | u < t ensures u in Elements(listed) <==> u in UnansweredBefore(cfg, db, t) {
      StaleMeansUnanswered(cfg, db, u);
    }
    assert Elements(listed) == UnansweredBefore(cfg, db, t);
    DistinctSize(listed);
  }

  /** In every reachable state: a sweep fails with "TIMEOUT" exactly those tasks left unanswered for longer than the
      timeout that have fewer than 100 such tasks before them, and no other task changes. */
  lemma {:induction false} SweepTimesOutExactly(cfg: Config, start: Node, acts: seq<Action>, a: Action, t: nat)
    requires Initial(start) && LegalRun(acts) && a.Sweep? && t < |Run(cfg, start, acts).db.tasks|
    ensures var p := Run(cfg, start, acts);
            var k, q := p.db.tasks[t], Next(cfg, p, a).db;
            && |q.tasks| == |p.db.tasks|
            && q.tasks[t] == (if LeftUnanswered(cfg, p.db, t) && |UnansweredBefore(cfg, p.db, t)| < 100
                              then k.(status := TaskStatus.Failed, attempts := Max(k.attempts, 1),
                                      errorCode := Some("TIMEOUT"))
                              else k)
  {
    RunKeepsInv(cfg, start, acts);
    SweepTimesOut(cfg, Run(cfg, start, acts), a, t);
  }

  lemma SweepTimesOut(cfg: Config, p: Node, a: Action, t: nat)
    requires Inv(p.db) && a.Sweep? && t < |p.db.tasks|
    ensures var k, q := p.db.tasks[t], Next(cfg, p, a).db;
            && |q.tasks| == |p.db.tasks|
            && q.tasks[t] == (if LeftUnanswered(cfg, p.db, t) && |UnansweredBefore(cfg, p.db, t)| < 100
                              then k.(status := TaskStatus.Failed, attempts := Max(k.attempts, 1),
                                      errorCode := Some("TIMEOUT"))
                              else k)
  {
    var pick := SweepPick(cfg, p.db);
    PickIsQueue(cfg, p.db);
    FailAllEffect(p.db, pick);
    StaleMeansUnanswered(cfg, p.db, t);
    PickIsStale(cfg, p.db);
    if LeftUnanswered(cfg, p.db, t) {
      AmongFirst(p.db, Cutoff(cfg, p.db.now), 100, t);
      ListedBefore(cfg, p.db, t);
    }
  }
}
