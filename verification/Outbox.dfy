/** The leased work queue: repository updates on `command_outbox` and one relay dispatch. */
module Outbox {
  import opened Model

  // ----- Repository updates, one row each -----

  function RecoverRow(row: OutboxRow, now: nat): OutboxRow {
    if LeaseExpired(row, now)
    then row.(status := OutboxStatus.Queued, lockedBy := None, lockExpiresAt := None, nextAttemptAt := now)
    else row
  }

  predicate LeaseExpired(row: OutboxRow, now: nat) {
    row.status.Publishing? && row.lockExpiresAt.Some? && row.lockExpiresAt.value < now
  }

  predicate Due(row: OutboxRow, now: nat) {
    row.status.Queued? && row.nextAttemptAt <= now
  }

  function ClaimRow(cfg: Config, row: OutboxRow, locker: nat, now: nat): OutboxRow {
    row.(status := Publishing, lockedBy := Some(locker), lockExpiresAt := Some(now + AtLeastOne(cfg.lockTimeout)))
  }

  function SentRow(row: OutboxRow, now: nat): OutboxRow {
    row.(status := Sent, sentAt := Some(now), lockedBy := None, lockExpiresAt := None)
  }

  function RetryRow(row: OutboxRow, delay: int, now: nat): OutboxRow {
    row.(status := OutboxStatus.Queued, attempts := row.attempts + 1, nextAttemptAt := now + AtLeastOne(delay),
         lockedBy := None, lockExpiresAt := None)
  }

  function FailedRow(row: OutboxRow): OutboxRow {
    row.(status := OutboxStatus.Failed, attempts := row.attempts + 1, lockedBy := None, lockExpiresAt := None)
  }

  // ----- Set updates of the repository, row by row -----

  function Recover(rows: seq<OutboxRow>, now: nat): (r: seq<OutboxRow>)
    ensures |r| == |rows|
    ensures forall k :: 0 <= k < |rows| ==> r[k] == RecoverRow(rows[k], now)
  {
    seq(|rows|, k requires 0 <= k < |rows| => RecoverRow(rows[k], now))
  }

  function DueAmong(rows: seq<OutboxRow>, now: nat, n: nat): seq<nat>
    requires n <= |rows|
  {
    if n == 0 then []
    else DueAmong(rows, now, n - 1) + if Due(rows[n - 1], now) then [n - 1] else []
  }

  function ClaimCount(cfg: Config, rows: seq<OutboxRow>, now: nat): nat {
    Min(|DueAmong(rows, now, |rows|)|, AtLeastOne(cfg.batchSize))
  }

  predicate DueAndDistinct(rows: seq<OutboxRow>, now: nat, ids: seq<nat>) {
    ids == [] ||
    var front, last := ids[..|ids| - 1], ids[|ids| - 1];
    last < |rows| && Due(rows[last], now) && last !in front && DueAndDistinct(rows, now, front)
  }

  /** None of `ids` was created after time `t`. */
  predicate NotAfter(rows: seq<OutboxRow>, ids: seq<nat>, t: nat) {
    ids == [] ||
    var front, last := ids[..|ids| - 1], ids[|ids| - 1];
    (last < |rows| ==> rows[last].createdAt <= t) && NotAfter(rows, front, t)
  }

  /** No due row among the first `n` that is left behind is older than one taken. */
  predicate OldestFirst(rows: seq<OutboxRow>, now: nat, ids: seq<nat>, n: nat)
    requires n <= |rows|
  {
    n == 0 ||
    (OldestFirst(rows, now, ids, n - 1)
     && (Due(rows[n - 1], now) && n - 1 !in ids ==> NotAfter(rows, ids, rows[n - 1].createdAt)))
  }

  /** What `claim_batch` may answer: due rows, each once, as many as there are up to the limit, none of them
      created after a due row left behind; in any order. */
  predicate LegalPick(cfg: Config, rows: seq<OutboxRow>, now: nat, ids: seq<nat>) {
    |ids| == ClaimCount(cfg, rows, now) && DueAndDistinct(rows, now, ids) && OldestFirst(rows, now, ids, |rows|)
  }

  /** The claimed rows: the database's choice, which is table order where it names no legal one. */
  function ClaimIds(cfg: Config, rows: seq<OutboxRow>, now: nat): seq<nat> {
    var ids := cfg.claimOrder(rows, now);
    if LegalPick(cfg, rows, now, ids) then ids else DueAmong(rows, now, |rows|)[..ClaimCount(cfg, rows, now)]
  }

  function ClaimAll(cfg: Config, rows: seq<OutboxRow>, ids: seq<nat>, locker: nat, now: nat): (r: seq<OutboxRow>)
    ensures |r| == |rows|
  {
    if ids == [] then rows
    else
      var rest, m := ClaimAll(cfg, rows, ids[..|ids| - 1], locker, now), ids[|ids| - 1];
      if m < |rows| then rest[m := ClaimRow(cfg, rows[m], locker, now)] else rest
  }

  lemma {:induction false} ClaimAllMeans(cfg: Config, rows: seq<OutboxRow>, ids: seq<nat>, locker: nat, now: nat)
    ensures forall k :: 0 <= k < |rows| ==>
              ClaimAll(cfg, rows, ids, locker, now)[k]
                == if k in ids then ClaimRow(cfg, rows[k], locker, now) else rows[k]
  {
    if ids != [] {
      var n := |ids| - 1;
      ClaimAllMeans(cfg, rows, ids[..n], locker, now);
      assert ids == ids[..n] + [ids[n]];
    }
  }

  /** What the due listing contains: exactly the due positions, each once, in order. */
  lemma {:induction false} DueAmongIsExact(rows: seq<OutboxRow>, now: nat, n: nat)
    requires n <= |rows|
    ensures forall k: nat :: k in DueAmong(rows, now, n) <==> k < n && Due(rows[k], now)
    ensures forall j, k :: 0 <= j < k < |DueAmong(rows, now, n)| ==>
        DueAmong(rows, now, n)[j] < DueAmong(rows, now, n)[k]
  {
    if n > 0 {
      DueAmongIsExact(rows, now, n - 1);
      var front := DueAmong(rows, now, n - 1);
      assert forall j :: 0 <= j < |front| ==> front[j] in front;
    }
  }

  lemma {:induction false} DueAndDistinctMeans(rows: seq<OutboxRow>, now: nat, ids: seq<nat>)
    ensures DueAndDistinct(rows, now, ids) <==>
              && (forall k :: 0 <= k < |ids| ==> ids[k] < |rows| && Due(rows[ids[k]], now))
              && (forall j, k :: 0 <= j < k < |ids| ==> ids[j] != ids[k])
  {
    if ids != [] {
      var n := |ids| - 1;
      DueAndDistinctMeans(rows, now, ids[..n]);
      assert forall k :: 0 <= k < n ==> ids[..n][k] == ids[k];
    }
  }

  /** A claim takes due rows only, each once, at most a batch, and some whenever one is due. */
  lemma ClaimIdsFacts(cfg: Config, rows: seq<OutboxRow>, now: nat)
    ensures forall m :: m in ClaimIds(cfg, rows, now) ==> m < |rows| && Due(rows[m], now)
    ensures forall k :: 0 <= k < |ClaimIds(cfg, rows, now)| ==>
              ClaimIds(cfg, rows, now)[k] < |rows| && Due(rows[ClaimIds(cfg, rows, now)[k]], now)
    ensures forall j, k :: 0 <= j < k < |ClaimIds(cfg, rows, now)| ==>
        ClaimIds(cfg, rows, now)[j] != ClaimIds(cfg, rows, now)[k]
    ensures |ClaimIds(cfg, rows, now)| == ClaimCount(cfg, rows, now) <= AtLeastOne(cfg.batchSize)
    ensures ClaimIds(cfg, rows, now) == [] ==> forall m :: 0 <= m < |rows| ==> !Due(rows[m], now)
  {
    var due, ids := DueAmong(rows, now, |rows|), ClaimIds(cfg, rows, now);
    DueAmongIsExact(rows, now, |rows|);
    DueAndDistinctMeans(rows, now, ids);
    if !LegalPick(cfg, rows, now, cfg.claimOrder(rows, now)) {
      assert forall k :: 0 <= k < |ids| ==> ids[k] == due[k] && due[k] in due;
    }
    if ids == [] {
      assert due == [];
      forall m: nat | m < |rows| ensures !Due(rows[m], now) {
        assert m !in due;
      }
    }
  }

  ghost predicate InCreationOrder(rows: seq<OutboxRow>) {
    forall m, n :: 0 <= m < n < |rows| ==> rows[m].createdAt <= rows[n].createdAt
  }

  lemma {:induction false} NotAfterMeans(rows: seq<OutboxRow>, ids: seq<nat>, t: nat)
    ensures NotAfter(rows, ids, t) <==> forall k :: 0 <= k < |ids| && ids[k] < |rows| ==> rows[ids[k]].createdAt <= t
  {
    if ids != [] {
      var n := |ids| - 1;
      NotAfterMeans(rows, ids[..n], t);
      assert forall k :: 0 <= k < n ==> ids[..n][k] == ids[k];
    }
  }

  lemma {:induction false} OldestFirstMeans(rows: seq<OutboxRow>, now: nat, ids: seq<nat>, n: nat)
    requires n <= |rows|
    ensures OldestFirst(rows, now, ids, n) <==>
              forall m, k :: 0 <= m < n && 0 <= k < |ids| && Due(rows[m], now) && m !in ids && ids[k] < |rows| ==>
                rows[ids[k]].createdAt <= rows[m].createdAt
  {
    if n > 0 {
      OldestFirstMeans(rows, now, ids, n - 1);
      NotAfterMeans(rows, ids, rows[n - 1].createdAt);
    }
  }

  /** On a table in creation order every claim is one the query allows: no due row left behind is older than
      a claimed one. */
  lemma ClaimIsOldestFirst(cfg: Config, rows: seq<OutboxRow>, now: nat)
    requires InCreationOrder(rows)
    ensures LegalPick(cfg, rows, now, ClaimIds(cfg, rows, now))
    ensures forall p, m :: p in ClaimIds(cfg, rows, now) && 0 <= m < |rows|
                           && Due(rows[m], now) && m !in ClaimIds(cfg, rows, now) ==>
              p < |rows| && rows[p].createdAt <= rows[m].createdAt
  {
    var due, ids := DueAmong(rows, now, |rows|), ClaimIds(cfg, rows, now);
    ClaimIdsFacts(cfg, rows, now);
    DueAmongIsExact(rows, now, |rows|);
    DueAndDistinctMeans(rows, now, ids);
    OldestFirstMeans(rows, now, ids, |rows|);
    if !LegalPick(cfg, rows, now, cfg.claimOrder(rows, now)) {
      forall m, k | 0 <= m < |rows| && 0 <= k < |ids| && Due(rows[m], now) && m !in ids
        ensures rows[ids[k]].createdAt <= rows[m].createdAt
      {
        assert m in due;
        var j :| 0 <= j < |due| && due[j] == m;
        assert j >= |ids| && due[k] < due[j];
      }
    }
  }

  // ----- One dispatch by the relay -----

  /** The relay's copy of a claimed row, as it was read at claim time. */
  datatype Claimed = Claimed(id: nat, attempts: nat, maxAttempts: nat)

  function CopyOf(rows: seq<OutboxRow>, m: nat): Claimed
    requires m < |rows|
  {
    Claimed(m, rows[m].attempts, rows[m].maxAttempts)
  }

  function Copies(rows: seq<OutboxRow>, ids: seq<nat>): (copies: seq<Claimed>)
    requires forall k :: 0 <= k < |ids| ==> ids[k] < |rows|
    ensures |copies| == |ids|
    ensures forall k :: 0 <= k < |ids| ==> copies[k] == CopyOf(rows, ids[k])
  {
    seq(|ids|, k requires 0 <= k < |ids| => CopyOf(rows, ids[k]))
  }

  /** Whether the broker took the message, whether `mark_sent` then committed, and the random jitter. */
  datatype Outcome = Outcome(published: bool, marked: bool, jitter: real)

  function Pow2(n: nat): (r: nat)
    ensures r >= 1
  {
    if n == 0 then 1 else 2 * Pow2(n - 1)
  }

  function DelayBase(retryMax: int, attempt: nat): int {
    Min(AtLeastOne(retryMax), Pow2(AtLeastOne(attempt)))
  }

  /** The range of `random.uniform(0.0, min(1.0, base * 0.25))`. */
  predicate JitterInRange(base: int, jitter: real) {
    0.0 <= jitter <= 1.0 && jitter <= (base as real) * 0.25
  }

  function RetryDelay(retryMax: int, attempt: nat, jitter: real): int {
    Max(1, (DelayBase(retryMax, attempt) as real + jitter).Floor)
  }

  /** The delay before attempt k+1 is `min(R, 2^k)`, or one second more when the jitter draws its upper end. */
  lemma RetryDelayBounds(retryMax: int, attempt: nat, jitter: real)
    requires attempt >= 1 && JitterInRange(DelayBase(retryMax, attempt), jitter)
    ensures Min(AtLeastOne(retryMax), Pow2(attempt)) <= RetryDelay(retryMax, attempt, jitter)
        <= AtLeastOne(retryMax) + 1
    ensures RetryDelay(retryMax, attempt, jitter)
        == Min(AtLeastOne(retryMax), Pow2(attempt)) + (if jitter == 1.0 then 1 else 0)
  {
    var base := DelayBase(retryMax, attempt);
    assert base >= 1;
    if jitter < 1.0 {
      assert (base as real + jitter).Floor == base;
    } else {
      assert base as real + jitter == (base + 1) as real;
    }
  }

  function DispatchRow(cfg: Config, row: OutboxRow, claimed: Claimed, o: Outcome, now: nat): OutboxRow {
    if o.published && o.marked then SentRow(row, now)
    else if claimed.attempts + 1 >= claimed.maxAttempts then FailedRow(row)
    else RetryRow(row, RetryDelay(cfg.retryMax, claimed.attempts + 1, o.jitter), now)
  }

  /** What a dispatch leaves of a claimed row, attempt counts and waiting times written out: published and marked it is
      sent; otherwise one more attempt has failed, and the row has failed for good or waits for its next one. */
  predicate DispatchLeaves(cfg: Config, row: OutboxRow, after: OutboxRow, o: Outcome, now: nat) {
    var k, wait := row.attempts + 1, Min(AtLeastOne(cfg.retryMax), Pow2(row.attempts + 1));
    && after == row.(status := after.status, attempts := after.attempts, nextAttemptAt := after.nextAttemptAt,
                     sentAt := after.sentAt, lockedBy := None, lockExpiresAt := None)
    && (o.published && o.marked ==>
          after.status.Sent? && after.attempts == row.attempts && after.sentAt == Some(now))
    && (!(o.published && o.marked) ==>
          && after.attempts == k && after.sentAt == row.sentAt
          && (k >= row.maxAttempts ==> after.status.Failed?)
          && (k < row.maxAttempts ==> after.status.Queued?)
          && (after.status.Queued? && 0.0 <= o.jitter <= 1.0 && o.jitter <= (wait as real) * 0.25 ==>
                && now + wait <= after.nextAttemptAt <= now + AtLeastOne(cfg.retryMax) + 1
                && after.nextAttemptAt == now + wait + if o.jitter == 1.0 then 1 else 0))
  }

  /** Dispatching a row whose copy is current. */
  lemma DispatchRowLeaves(cfg: Config, row: OutboxRow, claimed: Claimed, o: Outcome, now: nat)
    requires claimed.attempts == row.attempts && claimed.maxAttempts == row.maxAttempts
    ensures DispatchLeaves(cfg, row, DispatchRow(cfg, row, claimed, o, now), o, now)
  {
    var k := row.attempts + 1;
    if !(o.published && o.marked) && k < row.maxAttempts && JitterInRange(DelayBase(cfg.retryMax, k), o.jitter) {
      RetryDelayBounds(cfg.retryMax, k, o.jitter);
    }
  }

  /** Apart from jitter the wait is two seconds after the first failure and doubles from failure to failure until it
      reaches the maximum. */
  lemma BackoffDoubles(retryMax: int, k: nat)
    requires k >= 1
    ensures RetryDelay(retryMax, 1, 0.0) == Min(AtLeastOne(retryMax), 2)
    ensures RetryDelay(retryMax, k + 1, 0.0) == Min(AtLeastOne(retryMax), 2 * RetryDelay(retryMax, k, 0.0))
  {
    assert Pow2(0) == 1;
    RetryDelayBounds(retryMax, 1, 0.0);
    RetryDelayBounds(retryMax, k, 0.0);
    RetryDelayBounds(retryMax, k + 1, 0.0);
  }
}
