/** A drain on a standing clock: every ready row is published exactly once, whatever the batches. */
module Draining {
  import opened Model
  import opened Outbox
  import opened Accounting
  import opened Protocol
  import opened Delivery
  import opened Relay

  /** The rows a drain has to publish. */
  function ReadySet(rows: seq<OutboxRow>, now: nat): set<nat> {
    set m: nat | m < |rows| && Ready(rows[m], now)
  }

  /** What a drain makes of row `m`, whatever the batches it is split into. */
  function Drained(cfg: Config, row: OutboxRow, m: nat, o: Outcome, now: nat): OutboxRow {
    if Ready(row, now) then DispatchRow(cfg, RecoverRow(row, now), Claimed(m, row.attempts, row.maxAttempts), o, now)
    else row
  }

  /** Every ready row published once, no other row touched. */
  function DrainedTable(cfg: Config, rows: seq<OutboxRow>, outcomes: (nat, nat) -> Outcome,
      now: nat): (out: seq<OutboxRow>)
    ensures |out| == |rows|
    ensures forall m :: 0 <= m < |rows| ==> out[m] == Drained(cfg, rows[m], m, OutcomeOf(outcomes, 0, m), now)
  {
    seq(|rows|, m requires 0 <= m < |rows| => Drained(cfg, rows[m], m, OutcomeOf(outcomes, 0, m), now))
  }

  // ----- Halfway through a drain -----

  /** A drain that began with the table `rows`. */
  datatype Drain = Drain(cfg: Config, rows: seq<OutboxRow>, outcomes: (nat, nat) -> Outcome, locker: nat, now: nat)

  /** Row `m` when the rows in `done` have been handled and those in `held` are claimed. */
  function HalfwayRow(d: Drain, done: set<nat>, held: set<nat>, m: nat): OutboxRow
    requires m < |d.rows|
  {
    if m in done then Drained(d.cfg, d.rows[m], m, OutcomeOf(d.outcomes, 0, m), d.now)
    else if m in held then ClaimRow(d.cfg, RecoverRow(d.rows[m], d.now), d.locker, d.now)
    else RecoverRow(d.rows[m], d.now)
  }

  function Halfway(d: Drain, done: set<nat>, held: set<nat>): (out: seq<OutboxRow>)
    ensures |out| == |d.rows|
    ensures forall m :: 0 <= m < |out| ==> out[m] == HalfwayRow(d, done, held, m)
  {
    seq(|d.rows|, m requires 0 <= m < |d.rows| => HalfwayRow(d, done, held, m))
  }

  /** Handled and claimed rows are under no expired lease, and handled rows are not due again. */
  lemma HalfwayIsRecovered(d: Drain, done: set<nat>, held: set<nat>)
    ensures Recover(Halfway(d, done, held), d.now) == Halfway(d, done, held)
    ensures forall m: nat :: m in done && m < |d.rows| ==> !Due(Halfway(d, done, held)[m], d.now)
  {
    forall m | 0 <= m < |d.rows|
      ensures RecoverRow(HalfwayRow(d, done, held, m), d.now) == HalfwayRow(d, done, held, m)
    {
    }
  }

  /** The rows of the next batch, in the order they come back. */
  function NextIds(d: Drain, done: set<nat>): seq<nat> {
    ClaimIds(d.cfg, Halfway(d, done, {}), d.now)
  }

  /** A batch in the middle of a drain: distinct ready rows that have not been handled. */
  ghost predicate IsBatch(d: Drain, done: set<nat>, ids: seq<nat>) {
    && Distinct(ids) && Elements(ids) <= ReadySet(d.rows, d.now) - done
    && forall k :: 0 <= k < |ids| ==> ids[k] < |d.rows|
  }

  /** A claim in the middle of a drain takes ready rows only, none of them twice. */
  lemma ClaimContinues(d: Drain, done: set<nat>)
    ensures ClaimAll(d.cfg, Halfway(d, done, {}), NextIds(d, done), d.locker, d.now)
            == Halfway(d, done, Elements(NextIds(d, done)))
    ensures IsBatch(d, done, NextIds(d, done))
  {
    var out := Halfway(d, done, {});
    HalfwayIsRecovered(d, done, {});
    ClaimIdsFacts(d.cfg, out, d.now);
    ClaimAllMeans(d.cfg, out, NextIds(d, done), d.locker, d.now);
  }

  /** The copies a claim returns show the attempt counts the rows had when the drain began. */
  lemma CopiesMatch(d: Drain, done: set<nat>, ids: seq<nat>)
    requires IsBatch(d, done, ids)
    ensures Copies(Halfway(d, done, {}), ids) == Copies(d.rows, ids)
  {
    forall k | 0 <= k < |ids| ensures CopyOf(Halfway(d, done, {}), ids[k]) == CopyOf(d.rows, ids[k]) {
      assert ids[k] in Elements(ids);
    }
  }

  lemma DispatchContinues(d: Drain, done: set<nat>, held: set<nat>, m: nat)
    requires m in held && m !in done && m in ReadySet(d.rows, d.now)
    ensures var out := Halfway(d, done, held);
            out[m := DispatchRow(d.cfg, out[m], CopyOf(d.rows, m), OutcomeOf(d.outcomes, 0, m), d.now)]
            == Halfway(d, done + {m}, held - {m})
  {
  }

  // ----- A drain stays on track -----

  function IdList(messages: seq<Claimed>): (ids: seq<nat>)
    ensures |ids| == |messages| && forall k :: 0 <= k < |ids| ==> ids[k] == messages[k].id
  {
    seq(|messages|, k requires 0 <= k < |messages| => messages[k].id)
  }

  /** With `handed` published so far: no row twice, none that is not ready, and the table shows exactly what has
      been done. While nothing is held, expired leases may be waiting to be recovered. */
  ghost predicate OnTrack(d: Drain, p: Node, handed: seq<nat>) {
    var ids := IdList(p.batch);
    && p.db.now == d.now && Distinct(handed) && Elements(handed) <= ReadySet(d.rows, d.now)
    && IsBatch(d, Elements(handed), ids) && p.batch == Copies(d.rows, ids)
    && Recover(p.db.outbox, d.now) == Halfway(d, Elements(handed), Elements(ids))
    && (p.batch != [] ==> p.db.outbox == Halfway(d, Elements(handed), Elements(ids)))
  }

  lemma ClaimStaysOnTrack(d: Drain, p: Node, handed: seq<nat>)
    requires OnTrack(d, p, handed) && p.batch == []
    ensures OnTrack(d, Claim(d.cfg, p, d.locker), handed)
  {
    var done, q := Elements(handed), Claim(d.cfg, p, d.locker);
    var ids := NextIds(d, done);
    assert Elements(IdList(p.batch)) == {};
    ClaimContinues(d, done);
    CopiesMatch(d, done, ids);
    assert q.batch == Copies(d.rows, ids) && IdList(q.batch) == ids;
    HalfwayIsRecovered(d, done, Elements(ids));
  }

  lemma DispatchStaysOnTrack(d: Drain, p: Node, handed: seq<nat>, o: Outcome)
    requires OnTrack(d, p, handed) && DispatchReady(p) && o == OutcomeOf(d.outcomes, 0, p.batch[0].id)
    ensures OnTrack(d, Dispatch(d.cfg, p, o), handed + [p.batch[0].id])
  {
    var ids, m, q := IdList(p.batch), p.batch[0].id, Dispatch(d.cfg, p, o);
    var done, after := Elements(handed), handed + [p.batch[0].id];
    assert IdList(q.batch) == ids[1..] && ids[0] == m && m in Elements(ids);
    SplitElements(ids, 0);
    assert ids[0..] == ids;
    DispatchContinues(d, done, Elements(ids), m);
    assert Elements(after) == done + {m};
    assert q.batch == Copies(d.rows, ids[1..]);
    forall k | 0 <= k < |ids[1..]| ensures ids[1..][k] in Elements(ids) && ids[1..][k] != m {
      assert ids[1..][k] == ids[k + 1];
    }
    HalfwayIsRecovered(d, Elements(after), Elements(ids[1..]));
  }

  /** What the broker does to a row does not depend on when it comes. */
  ghost predicate Steady(outcomes: (nat, nat) -> Outcome) {
    forall n: nat, m: nat :: OutcomeOf(outcomes, n, m) == OutcomeOf(outcomes, 0, m)
  }

  lemma DrainStepStaysOnTrack(d: Drain, p: Node, handed: seq<nat>, a: Action)
    requires OnTrack(d, p, handed)
    requires (a.Tick? && a.seconds == 0) || a == RelayClaim(d.locker) || a.RelayDispatch?
    requires a.RelayDispatch? && DispatchReady(p) ==> a.outcome == OutcomeOf(d.outcomes, 0, p.batch[0].id)
    ensures OnTrack(d, Next(d.cfg, p, a), handed + if a.RelayDispatch? && DispatchReady(p) then [p.batch[0].id] else [])
  {
    if a.Tick? {
      TickStep(d.cfg, p, a.seconds);
      assert handed + [] == handed;
    } else if a.RelayDispatch? {
      DispatchStep(d.cfg, p, a);
      if DispatchReady(p) {
        DispatchStaysOnTrack(d, p, handed, a.outcome);
      } else {
        assert handed + [] == handed;
      }
    } else {
      assert handed + [] == handed;
      if p.batch == [] {
        ClaimStep(d.cfg, p, a);
        ClaimStaysOnTrack(d, p, handed);
      } else {
        ClaimWhileHolding(d.cfg, p, a);
      }
    }
  }

  lemma ClaimWhileHolding(cfg: Config, p: Node, a: Action)
    requires a.RelayClaim? && p.batch != []
    ensures Next(cfg, p, a) == p
  {
  }

  lemma {:induction false} DrainStaysOnTrack(d: Drain, start: Node, acts: seq<Action>)
    requires start.batch == [] && start.db.outbox == d.rows && start.db.now == d.now
    requires IsDrain(acts, d.locker) && Still(acts) && Steady(d.outcomes) && Follows(d.cfg, start, acts, d.outcomes)
    ensures OnTrack(d, Run(d.cfg, start, acts), Handed(d.cfg, start, acts))
  {
    if acts == [] {
      assert Elements(IdList(start.batch)) == {} && Elements(Handed(d.cfg, start, acts)) == {};
      assert Recover(d.rows, d.now) == Halfway(d, {}, {});
    } else {
      var n := |acts| - 1;
      DrainStaysOnTrack(d, start, acts[..n]);
      DrainStepStaysOnTrack(d, Run(d.cfg, start, acts[..n]), Handed(d.cfg, start, acts[..n]), acts[n]);
    }
  }

  /** A drain on a standing clock publishes no row twice and none that is not ready, wherever it stops. One that
      leaves nothing ready has published every ready row exactly once and touched no other; the table it leaves
      depends neither on the batch size nor on the order of the claims. */
  lemma {:induction false} StandingClockDrainIsExact(
    cfg: Config, locker: nat, start: Node, acts: seq<Action>, outcomes: (nat, nat) -> Outcome)
    requires start.batch == [] && IsDrain(acts, locker) && Still(acts)
    requires Steady(outcomes) && Follows(cfg, start, acts, outcomes)
    ensures var handed, ready := Handed(cfg, start, acts), ReadySet(start.db.outbox, start.db.now);
            && Distinct(handed) && (forall m :: m in handed ==> m in ready) && |handed| <= |ready|
    ensures var q := Run(cfg, start, acts);
            q.batch == [] && (forall m :: 0 <= m < |q.db.outbox| ==> !Ready(q.db.outbox[m], q.db.now)) ==>
              && (forall m :: m in ReadySet(start.db.outbox, start.db.now) ==> m in Handed(cfg, start, acts))
              && |Handed(cfg, start, acts)| == |ReadySet(start.db.outbox, start.db.now)|
              && q.db.outbox == DrainedTable(cfg, start.db.outbox, outcomes, start.db.now)
  {
    var d := Drain(cfg, start.db.outbox, outcomes, locker, start.db.now);
    var handed, ready, q := Handed(cfg, start, acts), ReadySet(d.rows, d.now), Run(cfg, start, acts);
    DrainStaysOnTrack(d, start, acts);
    assert forall m :: m in handed ==> m in Elements(handed);
    DistinctSize(handed);
    SubsetIsSmaller(Elements(handed), ready);
    if q.batch == [] && forall m :: 0 <= m < |q.db.outbox| ==> !Ready(q.db.outbox[m], q.db.now) {
      NothingLeft(d, q, handed);
    }
  }

  lemma NothingLeft(d: Drain, p: Node, handed: seq<nat>)
    requires OnTrack(d, p, handed) && p.batch == []
    requires forall m :: 0 <= m < |p.db.outbox| ==> !Ready(p.db.outbox[m], d.now)
    ensures Elements(handed) == ReadySet(d.rows, d.now)
    ensures p.db.outbox == DrainedTable(d.cfg, d.rows, d.outcomes, d.now)
  {
    var done := Elements(handed);
    assert Elements(IdList(p.batch)) == {};
    forall m: nat | m < |d.rows|
      ensures m !in done ==> !Ready(d.rows[m], d.now)
      ensures p.db.outbox[m] == HalfwayRow(d, done, {}, m)
    {
      assert Recover(p.db.outbox, d.now)[m] == HalfwayRow(d, done, {}, m);
    }
  }
}
