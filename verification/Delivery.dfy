/** Outbox facts over whole runs of the single relay, with crashes at any point: what each row goes through,
    the ledger of claims, and why no queued task stays queued. */
module Delivery {
  import opened Model
  import opened Accounting
  import opened ControlPlane
  import opened Outbox
  import opened Protocol
  import opened Requests
  import opened Invariant
  import opened Sweeping
  import opened Lifecycle

  // ----- The delivery invariant -----

  predicate Settled(row: OutboxRow) {
    row.status.Sent? || row.status.Failed?
  }

  predicate DeliveryOk(row: OutboxRow, now: nat) {
    && (row.status.Queued? || row.status.Publishing? || row.status.Sent? ==> row.attempts < row.maxAttempts)
    && (row.status.Failed? ==> row.attempts == row.maxAttempts)
    && (row.status.Publishing? ==> row.lockExpiresAt.Some?)
    && (row.status.Sent? ==> row.sentAt.Some? && row.sentAt.value <= now)
  }

  /** A claimed copy is current: the row is still publishing with the attempt count of the copy. */
  predicate CopyOk(rows: seq<OutboxRow>, c: Claimed) {
    && c.id < |rows| && rows[c.id].status.Publishing?
    && c == Claimed(c.id, rows[c.id].attempts, rows[c.id].maxAttempts)
  }

  ghost predicate RelayOk(p: Node) {
    && (forall m :: 0 <= m < |p.db.outbox| ==> DeliveryOk(p.db.outbox[m], p.db.now))
    && (forall k :: 0 <= k < |p.batch| ==> CopyOk(p.db.outbox, p.batch[k]))
    && (forall j, k :: 0 <= j < k < |p.batch| ==> p.batch[j].id != p.batch[k].id)
  }

  // ----- What each kind of step does to the outbox -----

  predicate RelayMoves(a: Action) {
    a.RelayClaim? || a.RelayDispatch? || a.RelayCrash?
  }

  predicate Appended(before: Db, after: Db) {
    && |before.outbox| <= |after.outbox| <= |before.outbox| + 1
    && (forall m :: 0 <= m < |before.outbox| ==> after.outbox[m] == before.outbox[m])
    && (forall m :: |before.outbox| <= m < |after.outbox| ==>
          && after.outbox[m].status.Queued? && after.outbox[m].attempts == 0 && after.outbox[m].maxAttempts >= 1
          && after.outbox[m].createdAt == before.now)
    && before.now <= after.now
  }

  lemma {:induction false} FailAllKeepsOutbox(db: Db, ids: seq<nat>)
    ensures FailAll(db, ids).outbox == db.outbox && FailAll(db, ids).now == db.now
  {
    if ids != [] {
      FailAllKeepsOutbox(db, ids[..|ids| - 1]);
    }
  }

  lemma RequestAppends(cfg: Config, db: Db, a: Action)
    requires CreatesTask(a)
    ensures Appended(db, Handle(cfg, db, a).db)
  {
    NormalForm(cfg, db, a);
  }

  /** Outside the relay, a step leaves every outbox row alone and adds at most one fresh row. */
  lemma OthersOnlyAppend(cfg: Config, p: Node, a: Action)
    requires !RelayMoves(a)
    ensures Appended(p.db, Next(cfg, p, a).db) && Next(cfg, p, a).batch == p.batch
  {
    match a
    case Cancel(_) =>
    case Result(_) =>
    case Sweep => FailAllKeepsOutbox(p.db, SweepPick(cfg, p.db));
    case ChangeQuota(_, _) =>
    case Tick(_) =>
    case _ => RequestAppends(cfg, p.db, a);
  }

  // ----- The relay's two steps -----

  lemma ClaimStep(cfg: Config, p: Node, a: Action)
    requires a.RelayClaim? && p.batch == []
    ensures Next(cfg, p, a) == Claim(cfg, p, a.locker)
  {
  }

  lemma DispatchStep(cfg: Config, p: Node, a: Action)
    requires a.RelayDispatch?
    ensures Next(cfg, p, a) == if DispatchReady(p) then Dispatch(cfg, p, a.outcome) else p
  {
  }

  // ----- The invariant is kept -----

  lemma ClaimKeepsRelayOk(cfg: Config, p: Node, locker: nat)
    requires RelayOk(p)
    ensures RelayOk(Claim(cfg, p, locker))
  {
    var rows := Recover(p.db.outbox, p.db.now);
    ClaimIdsFacts(cfg, rows, p.db.now);
    ClaimMeans(cfg, p, locker);
    var ids, q := ClaimIds(cfg, rows, p.db.now), Claim(cfg, p, locker);
    forall k | 0 <= k < |q.batch| ensures CopyOk(q.db.outbox, q.batch[k]) {
      assert ids[k] in ids;
    }
    forall m | 0 <= m < |q.db.outbox| ensures DeliveryOk(q.db.outbox[m], q.db.now) {
      assert DeliveryOk(p.db.outbox[m], p.db.now);
    }
  }

  lemma DispatchKeepsRelayOk(cfg: Config, p: Node, o: Outcome)
    requires RelayOk(p) && DispatchReady(p)
    ensures RelayOk(Dispatch(cfg, p, o))
  {
    var q, m := Dispatch(cfg, p, o), p.batch[0].id;
    assert CopyOk(p.db.outbox, p.batch[0]);
    forall k | 0 <= k < |q.batch| ensures CopyOk(q.db.outbox, q.batch[k]) {
      assert q.batch[k] == p.batch[k + 1] && CopyOk(p.db.outbox, p.batch[k + 1]);
    }
  }

  lemma StepKeepsRelayOk(cfg: Config, p: Node, a: Action)
    requires RelayOk(p)
    ensures RelayOk(Next(cfg, p, a))
  {
    if !RelayMoves(a) {
      OthersOnlyAppend(cfg, p, a);
    } else {
      match a
      case RelayClaim(locker) => if p.batch == [] { ClaimKeepsRelayOk(cfg, p, locker); }
      case RelayDispatch(o) => if DispatchReady(p) { DispatchKeepsRelayOk(cfg, p, o); }
      case RelayCrash(_) =>
    }
  }

  /** In every reachable state a queued or publishing row has attempts left, a failed row has used them all,
      and a sent row has not. */
  lemma {:induction false} RunKeepsRelayOk(cfg: Config, p: Node, acts: seq<Action>)
    requires RelayOk(p)
    ensures RelayOk(Run(cfg, p, acts))
  {
    if acts != [] {
      RunKeepsRelayOk(cfg, p, acts[..|acts| - 1]);
      StepKeepsRelayOk(cfg, Run(cfg, p, acts[..|acts| - 1]), acts[|acts| - 1]);
    }
  }

  // ----- Claims are oldest first -----

  ghost predicate OutboxInOrder(db: Db) {
    InCreationOrder(db.outbox) && forall m :: 0 <= m < |db.outbox| ==> db.outbox[m].createdAt <= db.now
  }

  lemma StepKeepsOrder(cfg: Config, p: Node, a: Action)
    requires OutboxInOrder(p.db)
    ensures OutboxInOrder(Next(cfg, p, a).db)
  {
    if !RelayMoves(a) {
      OthersOnlyAppend(cfg, p, a);
    } else {
      RelayKeepsMessages(cfg, p, a);
    }
  }

  lemma RelayKeepsMessages(cfg: Config, p: Node, a: Action)
    requires RelayMoves(a)
    ensures SameMessages(p.db.outbox, Next(cfg, p, a).db.outbox) && Next(cfg, p, a).db.now == p.db.now
  {
    if a.RelayClaim? && p.batch == [] {
      ClaimStep(cfg, p, a);
      ClaimKeepsMessages(cfg, p, a.locker);
    } else if a.RelayDispatch? && DispatchReady(p) {
      DispatchStep(cfg, p, a);
      DispatchKeepsMessages(cfg, p, a.outcome);
    }
  }

  lemma {:induction false} RunKeepsOrder(cfg: Config, p: Node, acts: seq<Action>)
    requires OutboxInOrder(p.db)
    ensures OutboxInOrder(Run(cfg, p, acts).db)
  {
    if acts != [] {
      RunKeepsOrder(cfg, p, acts[..|acts| - 1]);
      StepKeepsOrder(cfg, Run(cfg, p, acts[..|acts| - 1]), acts[|acts| - 1]);
    }
  }

  /** In every reachable state a claim takes the oldest due rows, as many as the batch holds. */
  lemma {:induction false} ClaimsAreOldestFirst(cfg: Config, start: Node, acts: seq<Action>, m: nat)
    requires Initial(start)
    ensures var db := Run(cfg, start, acts).db;
            var rows := Recover(db.outbox, db.now);
            var ids := ClaimIds(cfg, rows, db.now);
            && |ids| == Min(|DueAmong(rows, db.now, |rows|)|, AtLeastOne(cfg.batchSize))
            && (m < |rows| && Due(rows[m], db.now) && m !in ids ==>
                  forall p :: p in ids ==> p < |rows| && rows[p].createdAt <= rows[m].createdAt)
  {
    RunKeepsOrder(cfg, start, acts);
    var db := Run(cfg, start, acts).db;
    ClaimIdsFacts(cfg, Recover(db.outbox, db.now), db.now);
    ClaimIsOldestFirst(cfg, Recover(db.outbox, db.now), db.now);
  }

  // ----- The ledger of one row -----

  /** What happened to row `m` along a run. */
  datatype Tally = Tally(claims: nat, dispatches: nat, recoveries: nat, publishes: nat)

  function One(b: bool): nat {
    if b then 1 else 0
  }

  predicate ClaimedBy(cfg: Config, p: Node, a: Action, m: nat) {
    a.RelayClaim? && p.batch == [] && m in ClaimIds(cfg, Recover(p.db.outbox, p.db.now), p.db.now)
  }

  predicate RecoveredBy(p: Node, a: Action, m: nat) {
    a.RelayClaim? && p.batch == [] && m < |p.db.outbox| && LeaseExpired(p.db.outbox[m], p.db.now)
  }

  predicate AtHead(p: Node, m: nat) {
    DispatchReady(p) && p.batch[0].id == m
  }

  /** The broker took the message: in a dispatch, or just before a crash lost the mark. */
  predicate PublishedBy(p: Node, a: Action, m: nat) {
    AtHead(p, m) && ((a.RelayDispatch? && a.outcome.published) || (a.RelayCrash? && a.published))
  }

  function Ledger(cfg: Config, p: Node, acts: seq<Action>, m: nat): Tally {
    if acts == [] then Tally(0, 0, 0, 0)
    else
      var n := |acts| - 1;
      var t, q, a := Ledger(cfg, p, acts[..n], m), Run(cfg, p, acts[..n]), acts[n];
      Tally(t.claims + One(ClaimedBy(cfg, q, a, m)),
            t.dispatches + One(a.RelayDispatch? && AtHead(q, m)),
            t.recoveries + One(RecoveredBy(q, a, m)),
            t.publishes + One(PublishedBy(q, a, m)))
  }

  /** Attempts used up by row `m`, counting the successful one; 0 before the row exists. */
  function Spent(db: Db, m: nat): nat {
    if m < |db.outbox| then db.outbox[m].attempts + One(db.outbox[m].status.Sent?) else 0
  }

  function Held(db: Db, m: nat): nat {
    One(m < |db.outbox| && db.outbox[m].status.Publishing?)
  }

  lemma ClaimMovesRow(cfg: Config, p: Node, locker: nat, m: nat)
    requires RelayOk(p)
    ensures var q, rows := Claim(cfg, p, locker), Recover(p.db.outbox, p.db.now);
            && Spent(q.db, m) == Spent(p.db, m)
            && Held(q.db, m) + One(m < |p.db.outbox| && LeaseExpired(p.db.outbox[m], p.db.now))
               == Held(p.db, m) + One(m in ClaimIds(cfg, rows, p.db.now))
  {
    ClaimMeans(cfg, p, locker);
    ClaimIdsFacts(cfg, Recover(p.db.outbox, p.db.now), p.db.now);
  }

  lemma ClaimBalances(cfg: Config, p: Node, a: Action, m: nat)
    requires RelayOk(p) && a.RelayClaim?
    ensures var q := Next(cfg, p, a);
            && Spent(q.db, m) == Spent(p.db, m)
            && Held(q.db, m) + One(RecoveredBy(p, a, m)) == Held(p.db, m) + One(ClaimedBy(cfg, p, a, m))
  {
    if p.batch == [] {
      ClaimStep(cfg, p, a);
      ClaimMovesRow(cfg, p, a.locker, m);
    }
  }

  lemma DispatchBalances(cfg: Config, p: Node, a: Action, m: nat)
    requires RelayOk(p) && a.RelayDispatch?
    ensures var q := Next(cfg, p, a);
            && Spent(q.db, m) == Spent(p.db, m) + One(AtHead(p, m))
            && Held(q.db, m) + One(AtHead(p, m)) == Held(p.db, m)
            && (m < |q.db.outbox| && q.db.outbox[m].status.Sent? ==>
                  m < |p.db.outbox| && (p.db.outbox[m].status.Sent? || PublishedBy(p, a, m)))
  {
    if DispatchReady(p) {
      assert CopyOk(p.db.outbox, p.batch[0]);
    }
  }

  lemma StepBalances(cfg: Config, p: Node, a: Action, m: nat)
    requires RelayOk(p)
    ensures var q := Next(cfg, p, a);
            && Spent(q.db, m) == Spent(p.db, m) + One(a.RelayDispatch? && AtHead(p, m))
            && Held(q.db, m) + One(RecoveredBy(p, a, m)) + One(a.RelayDispatch? && AtHead(p, m))
               == Held(p.db, m) + One(ClaimedBy(cfg, p, a, m))
  {
    if !RelayMoves(a) {
      OthersOnlyAppend(cfg, p, a);
    } else {
      match a
      case RelayClaim(_) => ClaimBalances(cfg, p, a, m);
      case RelayDispatch(_) => DispatchBalances(cfg, p, a, m);
      case RelayCrash(_) =>
    }
  }

  /** Every dispatch uses up one attempt, and every claim ends in a dispatch, a recovery, or is still held. */
  lemma {:induction false} LedgerBalances(cfg: Config, p: Node, acts: seq<Action>, m: nat)
    requires RelayOk(p)
    ensures var t, end := Ledger(cfg, p, acts, m), Run(cfg, p, acts).db;
            && Spent(end, m) == Spent(p.db, m) + t.dispatches
            && Held(end, m) + t.recoveries + t.dispatches == Held(p.db, m) + t.claims
  {
    if acts != [] {
      var n := |acts| - 1;
      LedgerBalances(cfg, p, acts[..n], m);
      RunKeepsRelayOk(cfg, p, acts[..n]);
      StepBalances(cfg, Run(cfg, p, acts[..n]), acts[n], m);
    }
  }

  /** From the start of the system: claims = attempts + [sent] + recoveries + [publishing]. */
  lemma {:induction false} ClaimsAreConserved(cfg: Config, start: Node, acts: seq<Action>, m: nat)
    requires Initial(start) && m < |Run(cfg, start, acts).db.outbox|
    ensures var t, row := Ledger(cfg, start, acts, m), Run(cfg, start, acts).db.outbox[m];
            && t.claims == row.attempts + One(row.status.Sent?) + t.recoveries + One(row.status.Publishing?)
            && DeliveryOk(row, Run(cfg, start, acts).db.now)
  {
    LedgerBalances(cfg, start, acts, m);
    RunKeepsRelayOk(cfg, start, acts);
  }

  // ----- Settled rows -----

  lemma StepKeepsSettled(cfg: Config, p: Node, a: Action, m: nat)
    requires RelayOk(p) && m < |p.db.outbox| && Settled(p.db.outbox[m])
    ensures m < |Next(cfg, p, a).db.outbox| && Next(cfg, p, a).db.outbox[m] == p.db.outbox[m]
  {
    if !RelayMoves(a) {
      OthersOnlyAppend(cfg, p, a);
    } else {
      match a
      case RelayClaim(_) =>
        if p.batch == [] {
          ClaimIdsFacts(cfg, Recover(p.db.outbox, p.db.now), p.db.now);
          ClaimMeans(cfg, p, a.locker);
        }
      case RelayDispatch(_) =>
        if DispatchReady(p) {
          assert CopyOk(p.db.outbox, p.batch[0]);
        }
      case RelayCrash(_) =>
    }
  }

  /** A sent or failed row never changes again. */
  lemma {:induction false} SettledForever(cfg: Config, p: Node, acts: seq<Action>, m: nat)
    requires RelayOk(p) && m < |p.db.outbox| && Settled(p.db.outbox[m])
    ensures m < |Run(cfg, p, acts).db.outbox| && Run(cfg, p, acts).db.outbox[m] == p.db.outbox[m]
  {
    if acts != [] {
      var n := |acts| - 1;
      SettledForever(cfg, p, acts[..n], m);
      RunKeepsRelayOk(cfg, p, acts[..n]);
      StepKeepsSettled(cfg, Run(cfg, p, acts[..n]), acts[n], m);
    }
  }

  predicate SentAt(db: Db, m: nat) {
    m < |db.outbox| && db.outbox[m].status.Sent?
  }

  lemma StepPublishesBeforeSent(cfg: Config, p: Node, a: Action, m: nat)
    requires RelayOk(p)
    ensures SentAt(Next(cfg, p, a).db, m) ==> SentAt(p.db, m) || PublishedBy(p, a, m)
  {
    if !RelayMoves(a) {
      OthersOnlyAppend(cfg, p, a);
    } else if a.RelayClaim? {
      if p.batch == [] {
        ClaimIdsFacts(cfg, Recover(p.db.outbox, p.db.now), p.db.now);
        ClaimMeans(cfg, p, a.locker);
      }
    } else if a.RelayDispatch? {
      DispatchBalances(cfg, p, a, m);
    }
  }

  /** At-least-once: a row that became sent was handed to the broker at least once. */
  lemma {:induction false} SentWasPublished(cfg: Config, p: Node, acts: seq<Action>, m: nat)
    requires RelayOk(p) && !SentAt(p.db, m)
    ensures SentAt(Run(cfg, p, acts).db, m) ==> Ledger(cfg, p, acts, m).publishes >= 1
  {
    if acts != [] {
      var n := |acts| - 1;
      SentWasPublished(cfg, p, acts[..n], m);
      RunKeepsRelayOk(cfg, p, acts[..n]);
      StepPublishesBeforeSent(cfg, Run(cfg, p, acts[..n]), acts[n], m);
    }
  }

  lemma {:induction false} RowsPersist(cfg: Config, p: Node, acts: seq<Action>, m: nat)
    requires RelayOk(p) && m < |p.db.outbox|
    ensures m < |Run(cfg, p, acts).db.outbox|
    ensures SameMessage(p.db.outbox[m], Run(cfg, p, acts).db.outbox[m])
  {
    if acts != [] {
      var n := |acts| - 1;
      var mid := Run(cfg, p, acts[..n]);
      RowsPersist(cfg, p, acts[..n], m);
      RunKeepsRelayOk(cfg, p, acts[..n]);
      StepKeepsMessage(cfg, mid, acts[n], m);
    }
  }

  lemma StepKeepsMessage(cfg: Config, p: Node, a: Action, m: nat)
    requires m < |p.db.outbox|
    ensures m < |Next(cfg, p, a).db.outbox| && SameMessage(p.db.outbox[m], Next(cfg, p, a).db.outbox[m])
  {
    if !RelayMoves(a) {
      OthersOnlyAppend(cfg, p, a);
    } else {
      RelayKeepsMessages(cfg, p, a);
    }
  }

  /** Whatever else happens in a run, a row is dispatched at most as often as it has attempts left, and
      once it has been dispatched that often it is sent or failed. */
  lemma {:induction false} DispatchBudget(cfg: Config, p: Node, acts: seq<Action>, m: nat)
    requires RelayOk(p) && m < |p.db.outbox|
    ensures m < |Run(cfg, p, acts).db.outbox|
    ensures Spent(p.db, m) + Ledger(cfg, p, acts, m).dispatches <= p.db.outbox[m].maxAttempts
    ensures Spent(p.db, m) + Ledger(cfg, p, acts, m).dispatches == p.db.outbox[m].maxAttempts ==>
              Settled(Run(cfg, p, acts).db.outbox[m])
  {
    LedgerBalances(cfg, p, acts, m);
    RunKeepsRelayOk(cfg, p, acts);
    RowsPersist(cfg, p, acts, m);
    assert DeliveryOk(Run(cfg, p, acts).db.outbox[m], Run(cfg, p, acts).db.now);
  }

  // ----- Progress: with nothing new arriving, a relay that keeps going settles every row -----

  function Left(row: OutboxRow): int {
    if Settled(row) then 0 else row.maxAttempts - row.attempts
  }

  /** Attempts left over the first `n` rows. */
  function Budget(rows: seq<OutboxRow>, n: nat): int
    requires n <= |rows|
  {
    if n == 0 then 0 else Budget(rows, n - 1) + Left(rows[n - 1])
  }

  function TotalBudget(p: Node): int {
    Budget(p.db.outbox, |p.db.outbox|)
  }

  lemma {:induction false} BudgetSame(a: seq<OutboxRow>, b: seq<OutboxRow>, n: nat)
    requires n <= |a| && n <= |b| && forall m :: 0 <= m < n ==> Left(a[m]) == Left(b[m])
    ensures Budget(a, n) == Budget(b, n)
  {
    if n > 0 {
      BudgetSame(a, b, n - 1);
    }
  }

  lemma {:induction false} BudgetUpdate(rows: seq<OutboxRow>, m: nat, row: OutboxRow, n: nat)
    requires m < |rows| && n <= |rows|
    ensures Budget(rows[m := row], n) == Budget(rows, n) + if m < n then Left(row) - Left(rows[m]) else 0
  {
    if n > 0 {
      BudgetUpdate(rows, m, row, n - 1);
    }
  }

  /** Attempts left are never negative; there are none left exactly when every row is settled. */
  lemma {:induction false} BudgetIsZeroIffSettled(p: Node, n: nat)
    requires RelayOk(p) && n <= |p.db.outbox|
    ensures Budget(p.db.outbox, n) >= 0
    ensures Budget(p.db.outbox, n) == 0 <==> forall m :: 0 <= m < n ==> Settled(p.db.outbox[m])
  {
    if n > 0 {
      BudgetIsZeroIffSettled(p, n - 1);
      assert DeliveryOk(p.db.outbox[n - 1], p.db.now);
    }
  }

  /** A time by which every row of the first `n` is due or its lease has expired. */
  function Horizon(rows: seq<OutboxRow>, n: nat): nat
    requires n <= |rows|
  {
    if n == 0 then 0
    else
      var row, rest := rows[n - 1], Horizon(rows, n - 1);
      var own := row.nextAttemptAt + if row.lockExpiresAt.Some? then row.lockExpiresAt.value + 1 else 0;
      if own < rest then rest else own
  }

  lemma {:induction false} HorizonCovers(rows: seq<OutboxRow>, n: nat)
    requires n <= |rows|
    ensures forall m :: 0 <= m < n ==>
              && rows[m].nextAttemptAt <= Horizon(rows, n)
              && (rows[m].lockExpiresAt.Some? ==> rows[m].lockExpiresAt.value < Horizon(rows, n))
  {
    if n > 0 {
      HorizonCovers(rows, n - 1);
    }
  }

  function Wait(p: Node, d: nat): Node {
    p.(db := p.db.(now := p.db.now + d))
  }

  function Patience(p: Node): nat {
    Horizon(p.db.outbox, |p.db.outbox|)
  }

  /** An idle relay waits until everything is due and claims; then it dispatches one message. */
  function ClaimPhase(cfg: Config, p: Node, locker: nat): Node {
    if p.batch == [] then Claim(cfg, Wait(p, Patience(p)), locker) else p
  }

  function Round(cfg: Config, p: Node, locker: nat, o: Outcome): Node {
    var q := ClaimPhase(cfg, p, locker);
    if DispatchReady(q) then Dispatch(cfg, q, o) else q
  }

  function Rounds(cfg: Config, p: Node, locker: nat, outcomes: nat -> Outcome, n: nat): Node {
    if n == 0 then p else Round(cfg, Rounds(cfg, p, locker, outcomes, n - 1), locker, outcomes(n - 1))
  }

  lemma TickStep(cfg: Config, p: Node, d: nat)
    ensures Next(cfg, p, Tick(d)) == Wait(p, d)
  {
  }

  /** What a relay does in one round: an idle one waits until everything is due and claims first. */
  function RoundActions(p: Node, locker: nat, o: Outcome): seq<Action> {
    (if p.batch == [] then [] + [Tick(Patience(p))] + [RelayClaim(locker)] else []) + [RelayDispatch(o)]
  }

  /** A round is a run of the clock and the relay alone. */
  lemma RoundIsARun(cfg: Config, p: Node, locker: nat, o: Outcome)
    ensures Round(cfg, p, locker, o) == Run(cfg, p, RoundActions(p, locker, o))
  {
    ClaimPhaseIsARun(cfg, p, locker);
    RunSnoc(cfg, p, if p.batch == [] then [] + [Tick(Patience(p))] + [RelayClaim(locker)] else [], RelayDispatch(o));
    DispatchStep(cfg, ClaimPhase(cfg, p, locker), RelayDispatch(o));
  }

  lemma ClaimPhaseIsARun(cfg: Config, p: Node, locker: nat)
    ensures p.batch == [] ==> ClaimPhase(cfg, p, locker) == Run(cfg, p, [] + [Tick(Patience(p))] + [RelayClaim(locker)])
  {
    if p.batch == [] {
      RunSnoc(cfg, p, [], Tick(Patience(p)));
      TickStep(cfg, p, Patience(p));
      RunThenClaim(cfg, p, [] + [Tick(Patience(p))], RelayClaim(locker));
    }
  }

  lemma RunThenClaim(cfg: Config, p: Node, acts: seq<Action>, a: Action)
    requires a.RelayClaim? && Run(cfg, p, acts).batch == []
    ensures Run(cfg, p, acts + [a]) == Claim(cfg, Run(cfg, p, acts), a.locker)
  {
    RunSnoc(cfg, p, acts, a);
    ClaimStep(cfg, Run(cfg, p, acts), a);
  }

  lemma ClaimFindsWork(cfg: Config, p: Node, locker: nat, m: nat)
    requires RelayOk(p) && p.batch == [] && m < |p.db.outbox| && !Settled(p.db.outbox[m])
    requires p.db.outbox[m].nextAttemptAt <= p.db.now
    requires p.db.outbox[m].lockExpiresAt.Some? ==> p.db.outbox[m].lockExpiresAt.value < p.db.now
    ensures Claim(cfg, p, locker).batch != []
  {
    var rows := Recover(p.db.outbox, p.db.now);
    assert DeliveryOk(p.db.outbox[m], p.db.now);
    ClaimIdsFacts(cfg, rows, p.db.now);
    assert Due(rows[m], p.db.now);
  }

  lemma WaitKeepsRelayOk(p: Node, d: nat)
    requires RelayOk(p)
    ensures RelayOk(Wait(p, d))
  {
    forall m | 0 <= m < |p.db.outbox| ensures DeliveryOk(p.db.outbox[m], p.db.now + d) {
      assert DeliveryOk(p.db.outbox[m], p.db.now);
    }
    forall k | 0 <= k < |p.batch| ensures CopyOk(Wait(p, d).db.outbox, p.batch[k]) {
      assert CopyOk(p.db.outbox, p.batch[k]);
    }
  }

  lemma IdleClaim(cfg: Config, p: Node, locker: nat)
    ensures var q := Claim(cfg, p, locker);
            && q.db == p.db.(outbox := q.db.outbox) && SameMessages(p.db.outbox, q.db.outbox)
            && TotalBudget(q) == TotalBudget(p)
  {
    var q := Claim(cfg, p, locker);
    ClaimKeepsMessages(cfg, p, locker);
    ClaimIdsFacts(cfg, Recover(p.db.outbox, p.db.now), p.db.now);
    ClaimMeans(cfg, p, locker);
    BudgetSame(p.db.outbox, q.db.outbox, |p.db.outbox|);
  }

  lemma PatienceFindsWork(cfg: Config, p: Node, locker: nat)
    requires RelayOk(p) && p.batch == [] && TotalBudget(p) > 0
    ensures ClaimPhase(cfg, p, locker).batch != []
  {
    BudgetIsZeroIffSettled(p, |p.db.outbox|);
    var m :| 0 <= m < |p.db.outbox| && !Settled(p.db.outbox[m]);
    HorizonCovers(p.db.outbox, |p.db.outbox|);
    WaitKeepsRelayOk(p, Patience(p));
    ClaimFindsWork(cfg, Wait(p, Patience(p)), locker, m);
  }

  lemma ClaimPhaseKeepsBudget(cfg: Config, p: Node, locker: nat)
    requires RelayOk(p)
    ensures var q := ClaimPhase(cfg, p, locker);
            RelayOk(q) && TotalBudget(q) == TotalBudget(p) && (TotalBudget(p) > 0 ==> DispatchReady(q))
  {
    var q := ClaimPhase(cfg, p, locker);
    if p.batch == [] {
      WaitKeepsRelayOk(p, Patience(p));
      ClaimKeepsRelayOk(cfg, Wait(p, Patience(p)), locker);
      IdleClaim(cfg, Wait(p, Patience(p)), locker);
      if TotalBudget(p) > 0 {
        PatienceFindsWork(cfg, p, locker);
      }
    }
    if q.batch != [] {
      assert CopyOk(q.db.outbox, q.batch[0]);
    } else {
      BudgetIsZeroIffSettled(p, |p.db.outbox|);
    }
  }

  lemma DispatchSpends(cfg: Config, p: Node, o: Outcome)
    requires RelayOk(p) && DispatchReady(p)
    ensures TotalBudget(Dispatch(cfg, p, o)) < TotalBudget(p)
  {
    var m := p.batch[0].id;
    assert CopyOk(p.db.outbox, p.batch[0]) && DeliveryOk(p.db.outbox[m], p.db.now);
    BudgetUpdate(p.db.outbox, m, DispatchRow(cfg, p.db.outbox[m], p.batch[0], o, p.db.now), |p.db.outbox|);
  }

  lemma {:induction false} RoundsSpend(cfg: Config, p: Node, locker: nat, outcomes: nat -> Outcome, n: nat)
    requires RelayOk(p)
    ensures var q := Rounds(cfg, p, locker, outcomes, n);
            RelayOk(q) && TotalBudget(q) <= if TotalBudget(p) <= n then 0 else TotalBudget(p) - n
  {
    if n == 0 {
      BudgetIsZeroIffSettled(p, |p.db.outbox|);
    } else {
      RoundsSpend(cfg, p, locker, outcomes, n - 1);
      var mid := Rounds(cfg, p, locker, outcomes, n - 1);
      ClaimPhaseKeepsBudget(cfg, mid, locker);
      var q := ClaimPhase(cfg, mid, locker);
      BudgetIsZeroIffSettled(mid, |mid.db.outbox|);
      if DispatchReady(q) {
        DispatchKeepsRelayOk(cfg, q, outcomes(n - 1));
        DispatchSpends(cfg, q, outcomes(n - 1));
      }
    }
  }

  /** Whatever the broker does to each publish, as many rounds as there are attempts left settle every row. */
  lemma {:induction false} RelaySettlesEverything(cfg: Config, p: Node, locker: nat, outcomes: nat -> Outcome)
    requires RelayOk(p)
    ensures TotalBudget(p) >= 0
    ensures var q := Rounds(cfg, p, locker, outcomes, TotalBudget(p));
            RelayOk(q) && forall m :: 0 <= m < |q.db.outbox| ==> Settled(q.db.outbox[m])
  {
    BudgetIsZeroIffSettled(p, |p.db.outbox|);
    RoundsSpend(cfg, p, locker, outcomes, TotalBudget(p));
    var q := Rounds(cfg, p, locker, outcomes, TotalBudget(p));
    BudgetIsZeroIffSettled(q, |q.db.outbox|);
  }

  // ----- No queued task is stuck -----

  /** The outbox is as it was, and task `t` is the same request, not queued unless it was. */
  predicate Kept(db: Db, after: Db, t: nat)
    requires t < |db.tasks|
  {
    && after.outbox == db.outbox && t < |after.tasks| && SameRequest(after.tasks[t], db.tasks[t])
    && (after.tasks[t].status.Queued? ==> db.tasks[t].status.Queued?)
  }

  lemma SweepKeeps(cfg: Config, db: Db, mid: Db, t: nat)
    requires Inv(mid) && t < |db.tasks| && Kept(db, mid, t)
    ensures Kept(db, SweepOnce(cfg, mid), t)
  {
    PickIsQueue(cfg, mid);
    FailAllEffect(mid, SweepPick(cfg, mid));
  }

  lemma SweepTimesKeep(cfg: Config, db: Db, k: nat, t: nat)
    requires Inv(db) && t < |db.tasks|
    ensures Kept(db, SweepTimes(cfg, db, k), t)
  {
    var end := db;
    for n := 0 to k
      invariant end == SweepTimes(cfg, db, n) && Inv(end) && Kept(db, end, t)
    {
      SweepKeeps(cfg, db, end, t);
      FailAllKeepsInv(end, SweepPick(cfg, end));
      end := SweepOnce(cfg, end);
    }
  }

  function Sweeps(cfg: Config, db: Db): nat {
    (|AllStale(cfg, db)| + SWEEP_LIMIT - 1) / SWEEP_LIMIT
  }

  /** Sweeping away everything stale takes out every queued task whose own row expired before the cutoff. */
  lemma ExpiredTaskLeavesQueue(cfg: Config, db: Db, t: nat, r: nat)
    requires Inv(db) && t < |db.tasks| && IsCommandRow(db, t, r)
    requires db.tasks[t].createdAt < Cutoff(cfg, db.now) && Expired(db.outbox[r], Cutoff(cfg, db.now))
    ensures var end := SweepTimes(cfg, db, Sweeps(cfg, db));
            t < |end.tasks| && !end.tasks[t].status.Queued?
  {
    var end, cutoff := SweepTimes(cfg, db, Sweeps(cfg, db)), Cutoff(cfg, db.now);
    SweepTimesKeep(cfg, db, Sweeps(cfg, db), t);
    SweepTimesLeaves(cfg, db, Sweeps(cfg, db));
    BacklogIsCleared(cfg, db);
    StaleTaskWasPublishedOrFailed(db, t, r, cutoff);
    StaleTaskWasPublishedOrFailed(end, t, r, cutoff);
  }

  /** Once a task's command row is sent or failed, the timeout and ceil(n / 100) sweeps take the task out of
      `queued`, n being the tasks stale by then. */
  lemma {:induction false} SettledTaskLeavesQueue(cfg: Config, p: Node, t: nat, r: nat, d: nat)
    requires Inv(p.db) && RelayOk(p) && t < |p.db.tasks| && IsCommandRow(p.db, t, r) && Settled(p.db.outbox[r])
    requires d > AtLeastOne(cfg.queuedTimeout)
    ensures var late := Wait(p, d).db;
            var end := SweepTimes(cfg, late, Sweeps(cfg, late));
            t < |end.tasks| && !end.tasks[t].status.Queued?
  {
    DeliveryKeepsInv(p.db, p.db.outbox, p.db.quotas, p.db.now + d);
    assert TaskOk(p.db, t) && DeliveryOk(p.db.outbox[r], p.db.now);
    assert IsCommandRow(Wait(p, d).db, t, r);
    ExpiredTaskLeavesQueue(cfg, Wait(p, d).db, t, r);
  }

  lemma RoundsKeepTasks(cfg: Config, p: Node, locker: nat, outcomes: nat -> Outcome, n: nat)
    requires Inv(p.db)
    ensures Inv(Rounds(cfg, p, locker, outcomes, n).db) && Rounds(cfg, p, locker, outcomes, n).db.tasks == p.db.tasks
  {
    var q := p;
    for i := 0 to n
      invariant q == Rounds(cfg, p, locker, outcomes, i) && Inv(q.db) && q.db.tasks == p.db.tasks
    {
      RoundKeepsTasks(cfg, q, locker, outcomes(i));
      q := Round(cfg, q, locker, outcomes(i));
    }
  }

  lemma RoundKeepsTasks(cfg: Config, p: Node, locker: nat, o: Outcome)
    requires Inv(p.db)
    ensures Inv(Round(cfg, p, locker, o).db) && Round(cfg, p, locker, o).db.tasks == p.db.tasks
  {
    var q := ClaimPhase(cfg, p, locker);
    if p.batch == [] {
      var late := Wait(p, Patience(p));
      IdleClaim(cfg, late, locker);
      DeliveryKeepsInv(p.db, q.db.outbox, p.db.quotas, late.db.now);
    }
    if DispatchReady(q) {
      DispatchKeepsMessages(cfg, q, o);
      DeliveryKeepsInv(q.db, Dispatch(cfg, q, o).db.outbox, q.db.quotas, q.db.now);
    }
  }

  /** From any reachable state, whatever the broker does: relay rounds, then the timeout and sweeps, leave no
      task queued that was there at the start. */
  lemma {:induction false} NoQueuedTaskIsStuck(cfg: Config, p: Node, locker: nat, outcomes: nat -> Outcome, t: nat,
      d: nat)
    requires Inv(p.db) && RelayOk(p) && t < |p.db.tasks| && d > AtLeastOne(cfg.queuedTimeout)
    ensures TotalBudget(p) >= 0
    ensures var late := Wait(Rounds(cfg, p, locker, outcomes, TotalBudget(p)), d).db;
            var end := SweepTimes(cfg, late, Sweeps(cfg, late));
            t < |end.tasks| && !end.tasks[t].status.Queued?
  {
    RelaySettlesEverything(cfg, p, locker, outcomes);
    var q := Rounds(cfg, p, locker, outcomes, TotalBudget(p));
    RoundsKeepTasks(cfg, p, locker, outcomes, TotalBudget(p));
    var r := ExactlyOneCommandRow(q.db, t);
    SettledTaskLeavesQueue(cfg, q, t, r, d);
  }

  // ----- ... in any run -----

  /** The queued tasks before task `t`. */
  function QueuedBefore(db: Db, t: nat): set<nat> {
    set u: nat | u < t && u < |db.tasks| && db.tasks[u].status.Queued?
  }

  lemma {:induction false} QueuedBeforeIsSmall(db: Db, t: nat)
    ensures |QueuedBefore(db, t)| <= t
  {
    if t == 0 {
      assert QueuedBefore(db, 0) == {};
    } else {
      QueuedBeforeIsSmall(db, t - 1);
      assert QueuedBefore(db, t) <= QueuedBefore(db, t - 1) + {t - 1};
      SubsetIsSmaller(QueuedBefore(db, t), QueuedBefore(db, t - 1) + {t - 1});
    }
  }

  lemma SubsetIsSmaller(a: set<nat>, b: set<nat>)
    requires a <= b
    ensures |a| <= |b|
  {
    assert a + (b - a) == b;
  }

  /** No step queues a task again. */
  lemma StepNeverRequeues(cfg: Config, p: Node, a: Action, t: nat)
    requires Inv(p.db) && t < |p.db.tasks|
    ensures QueuedBefore(Next(cfg, p, a).db, t) <= QueuedBefore(p.db, t)
  {
    forall u: nat | u < t ensures u in QueuedBefore(Next(cfg, p, a).db, t) ==> u in QueuedBefore(p.db, t) {
      StepClimbs(cfg, p, a, u);
    }
  }

  /** A sweep that leaves a stale task queued takes a hundred older ones instead. */
  lemma SweepTakesItOrHundred(cfg: Config, db: Db, t: nat)
    requires Inv(db) && t < |db.tasks| && Stale(db, t, Cutoff(cfg, db.now))
    ensures t < |SweepOnce(cfg, db).tasks|
    ensures SweepOnce(cfg, db).tasks[t].status.Queued? ==>
              |QueuedBefore(SweepOnce(cfg, db), t)| + SWEEP_LIMIT <= |QueuedBefore(db, t)|
  {
    var pick, after := SweepPick(cfg, db), SweepOnce(cfg, db);
    PickIsQueue(cfg, db);
    FailAllEffect(db, pick);
    if t !in pick {
      SkippedMeansFull(cfg, db, t);
      DistinctSize(pick);
      assert QueuedBefore(after, t) + Elements(pick) <= QueuedBefore(db, t);
      assert QueuedBefore(after, t) !! Elements(pick);
      SubsetIsSmaller(QueuedBefore(after, t) + Elements(pick), QueuedBefore(db, t));
    }
  }

  lemma SkippedMeansFull(cfg: Config, db: Db, t: nat)
    requires t < |db.tasks| && Stale(db, t, Cutoff(cfg, db.now)) && t !in SweepPick(cfg, db)
    ensures |SweepPick(cfg, db)| == SWEEP_LIMIT
    ensures forall u :: u in SweepPick(cfg, db) ==> u < t
  {
    var all, pick := AllStale(cfg, db), SweepPick(cfg, db);
    StaleAmongIsExact(db, Cutoff(cfg, db.now), |db.tasks|);
    PickIsStale(cfg, db);
    assert t in all;
    var k :| 0 <= k < |all| && all[k] == t;
    assert forall j :: 0 <= j < |pick| ==> pick[j] == all[j];
    assert k >= |pick|;
  }

  function Sweepings(acts: seq<Action>): nat {
    if acts == [] then 0 else Sweepings(acts[..|acts| - 1]) + One(acts[|acts| - 1].Sweep?)
  }

  /** The row of task `t` is settled and expired before the cutoff, and stays so. */
  predicate Overdue(cfg: Config, p: Node, t: nat, r: nat) {
    && t < |p.db.tasks| && IsCommandRow(p.db, t, r) && Settled(p.db.outbox[r])
    && p.db.tasks[t].createdAt < Cutoff(cfg, p.db.now) && Expired(p.db.outbox[r], Cutoff(cfg, p.db.now))
  }

  lemma OverdueIsStale(cfg: Config, p: Node, t: nat, r: nat)
    requires Inv(p.db) && Overdue(cfg, p, t, r) && p.db.tasks[t].status.Queued?
    ensures Stale(p.db, t, Cutoff(cfg, p.db.now))
  {
    StaleTaskWasPublishedOrFailed(p.db, t, r, Cutoff(cfg, p.db.now));
  }

  lemma TimeOnlyGrows(cfg: Config, p: Node, a: Action)
    ensures p.db.now <= Next(cfg, p, a).db.now
  {
    if !RelayMoves(a) {
      OthersOnlyAppend(cfg, p, a);
    } else {
      RelayKeepsMessages(cfg, p, a);
    }
  }

  lemma StepKeepsOverdue(cfg: Config, p: Node, a: Action, t: nat, r: nat)
    requires Inv(p.db) && RelayOk(p) && Overdue(cfg, p, t, r)
    ensures Overdue(cfg, Next(cfg, p, a), t, r)
  {
    StepClimbs(cfg, p, a, t);
    StepKeepsSettled(cfg, p, a, r);
    TimeOnlyGrows(cfg, p, a);
  }

  lemma OverdueStep(cfg: Config, p: Node, a: Action, t: nat, r: nat)
    requires Inv(p.db) && RelayOk(p) && Overdue(cfg, p, t, r)
    ensures t < |Next(cfg, p, a).db.tasks|
    ensures Next(cfg, p, a).db.tasks[t].status.Queued? ==>
              && p.db.tasks[t].status.Queued?
              && |QueuedBefore(Next(cfg, p, a).db, t)| + SWEEP_LIMIT * One(a.Sweep?) <= |QueuedBefore(p.db, t)|
  {
    StepClimbs(cfg, p, a, t);
    StepNeverRequeues(cfg, p, a, t);
    SubsetIsSmaller(QueuedBefore(Next(cfg, p, a).db, t), QueuedBefore(p.db, t));
    if a.Sweep? && p.db.tasks[t].status.Queued? {
      OverdueIsStale(cfg, p, t, r);
      SweepTakesItOrHundred(cfg, p.db, t);
    }
  }

  lemma {:induction false} OverdueRun(cfg: Config, p: Node, acts: seq<Action>, t: nat, r: nat)
    requires Inv(p.db) && RelayOk(p) && LegalRun(acts) && Overdue(cfg, p, t, r)
    ensures Overdue(cfg, Run(cfg, p, acts), t, r)
    ensures Run(cfg, p, acts).db.tasks[t].status.Queued? ==>
              |QueuedBefore(Run(cfg, p, acts).db, t)| + SWEEP_LIMIT * Sweepings(acts) <= |QueuedBefore(p.db, t)|
  {
    if acts != [] {
      var n := |acts| - 1;
      var mid := Run(cfg, p, acts[..n]);
      assert LegalRun(acts[..n]);
      OverdueRun(cfg, p, acts[..n], t, r);
      RunKeepsInv(cfg, p, acts[..n]);
      RunKeepsRelayOk(cfg, p, acts[..n]);
      StepKeepsOverdue(cfg, mid, acts[n], t, r);
      OverdueStep(cfg, mid, acts[n], t, r);
    }
  }

  /** Once its row has expired, a task is out of `queued` after at most t / 100 + 1 sweeps, whatever requests,
      results, retries and relay steps come in between. */
  lemma {:induction false} OverdueTaskLeavesQueue(cfg: Config, p: Node, acts: seq<Action>, t: nat, r: nat)
    requires Inv(p.db) && RelayOk(p) && LegalRun(acts) && Overdue(cfg, p, t, r)
    requires Sweepings(acts) >= t / SWEEP_LIMIT + 1
    ensures t < |Run(cfg, p, acts).db.tasks| && !Run(cfg, p, acts).db.tasks[t].status.Queued?
  {
    OverdueRun(cfg, p, acts, t, r);
    QueuedBeforeIsSmall(p.db, t);
  }

  lemma {:induction false} RunKeepsIdentity(cfg: Config, p: Node, acts: seq<Action>, t: nat, r: nat)
    requires Inv(p.db) && RelayOk(p) && LegalRun(acts) && t < |p.db.tasks| && IsCommandRow(p.db, t, r)
    ensures var q := Run(cfg, p, acts);
            && t < |q.db.tasks| && IsCommandRow(q.db, t, r) && p.db.now <= q.db.now
            && q.db.tasks[t].createdAt == p.db.tasks[t].createdAt
  {
    StatusChangesAtMostThreeTimes(cfg, p, acts, t);
    RowsPersist(cfg, p, acts, r);
    RunTimeGrows(cfg, p, acts);
  }

  lemma {:induction false} RunTimeGrows(cfg: Config, p: Node, acts: seq<Action>)
    ensures p.db.now <= Run(cfg, p, acts).db.now
  {
    if acts != [] {
      RunTimeGrows(cfg, p, acts[..|acts| - 1]);
      TimeOnlyGrows(cfg, Run(cfg, p, acts[..|acts| - 1]), acts[|acts| - 1]);
    }
  }

  /** A settled row is overdue once more than the timeout has passed. */
  lemma {:induction false} WaitingMakesOverdue(cfg: Config, p: Node, acts: seq<Action>, t: nat, r: nat)
    requires Inv(p.db) && RelayOk(p) && LegalRun(acts) && t < |p.db.tasks| && IsCommandRow(p.db, t, r)
    requires Settled(p.db.outbox[r]) && Run(cfg, p, acts).db.now > p.db.now + AtLeastOne(cfg.queuedTimeout)
    ensures Overdue(cfg, Run(cfg, p, acts), t, r)
  {
    RunKeepsIdentity(cfg, p, acts, t, r);
    SettledForever(cfg, p, acts, r);
    assert TaskOk(p.db, t) && DeliveryOk(p.db.outbox[r], p.db.now);
  }

  /** No queued task is stuck, whatever else happens. In any run: let the task's row be dispatched as often as it
      has attempts left, or be settled otherwise; let more than the timeout pass; let t / 100 + 1 sweeps take
      place. Then the task is out of `queued`. */
  lemma {:induction false} NoQueuedTaskIsStuckInAnyRun(
    cfg: Config, p: Node, relaying: seq<Action>, waiting: seq<Action>, sweeping: seq<Action>, t: nat, r: nat)
    requires Inv(p.db) && RelayOk(p) && LegalRun(relaying) && LegalRun(waiting) && LegalRun(sweeping)
    requires t < |p.db.tasks| && IsCommandRow(p.db, t, r) && r < |Run(cfg, p, relaying).db.outbox|
    requires || Spent(p.db, r) + Ledger(cfg, p, relaying, r).dispatches == p.db.outbox[r].maxAttempts
             || Settled(Run(cfg, p, relaying).db.outbox[r])
    requires Run(cfg, Run(cfg, p, relaying), waiting).db.now
             > Run(cfg, p, relaying).db.now + AtLeastOne(cfg.queuedTimeout)
    requires Sweepings(sweeping) >= t / SWEEP_LIMIT + 1
    ensures var end := Run(cfg, Run(cfg, Run(cfg, p, relaying), waiting), sweeping).db;
            t < |end.tasks| && !end.tasks[t].status.Queued?
  {
    var q := Run(cfg, p, relaying);
    DispatchBudget(cfg, p, relaying, r);
    RunKeepsIdentity(cfg, p, relaying, t, r);
    RunKeepsInv(cfg, p, relaying);
    RunKeepsRelayOk(cfg, p, relaying);
    WaitingMakesOverdue(cfg, q, waiting, t, r);
    RunKeepsInv(cfg, q, waiting);
    RunKeepsRelayOk(cfg, q, waiting);
    OverdueTaskLeavesQueue(cfg, Run(cfg, q, waiting), sweeping, t, r);
  }
}
