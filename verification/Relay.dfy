/** The outbox relay's drain loop over the mutable tables: a run of the transition system, and on a standing clock
    one publish for every ready row. */
module Relay {
  import opened Model
  import opened Outbox
  import opened Accounting
  import opened Protocol
  import opened Delivery
  import opened Tables = Database

  /** A drain publishes a row that is due, or that sits under an expired lease. */
  predicate Ready(row: OutboxRow, now: nat) {
    Due(RecoverRow(row, now), now)
  }

  // ----- Drains as runs -----

  /** The steps a drain is made of; the clock may move between any two of them. */
  predicate IsDrain(acts: seq<Action>, locker: nat) {
    forall k :: 0 <= k < |acts| ==> acts[k].Tick? || acts[k].RelayDispatch? || acts[k] == RelayClaim(locker)
  }

  /** The ids a run hands to the broker, in order. */
  function Handed(cfg: Config, start: Node, acts: seq<Action>): seq<nat> {
    if acts == [] then []
    else
      var front, a := acts[..|acts| - 1], acts[|acts| - 1];
      var q := Run(cfg, start, front);
      Handed(cfg, start, front) + if a.RelayDispatch? && DispatchReady(q) then [q.batch[0].id] else []
  }

  /** Every publish of the run goes as the broker decides: by its number and the row. */
  predicate Follows(cfg: Config, start: Node, acts: seq<Action>, outcomes: (nat, nat) -> Outcome) {
    acts == [] ||
    var front, a := acts[..|acts| - 1], acts[|acts| - 1];
    var q := Run(cfg, start, front);
    && Follows(cfg, start, front, outcomes)
    && (a.RelayDispatch? && DispatchReady(q) ==>
          a.outcome == OutcomeOf(outcomes, |Handed(cfg, start, front)|, q.batch[0].id))
  }

  function OutcomeOf(outcomes: (nat, nat) -> Outcome, n: nat, m: nat): Outcome {
    outcomes(n, m)
  }

  /** The clock stands still. */
  predicate Still(acts: seq<Action>) {
    forall k :: 0 <= k < |acts| && acts[k].Tick? ==> acts[k].seconds == 0
  }

  function TickOf(ticks: nat -> nat, n: nat): nat {
    ticks(n)
  }

  ghost predicate NeverTicks(ticks: nat -> nat) {
    forall n: nat :: TickOf(ticks, n) == 0
  }

  /** A drain in progress: how the tables and the held batch have come about, and whether the clock stands still. */
  datatype Trace = Trace(start: Node, acts: seq<Action>, still: bool)

  ghost predicate Tracks(cfg: Config, locker: nat, outcomes: (nat, nat) -> Outcome, tr: Trace, p: Node) {
    && IsDrain(tr.acts, locker) && Follows(cfg, tr.start, tr.acts, outcomes)
    && p == Run(cfg, tr.start, tr.acts) && RelayOk(p) && (tr.still ==> Still(tr.acts))
  }

  /** What one more action adds to a drain. */
  lemma Snoc(cfg: Config, outcomes: (nat, nat) -> Outcome, start: Node, acts: seq<Action>, a: Action)
    requires Follows(cfg, start, acts, outcomes)
    requires a.RelayDispatch? && DispatchReady(Run(cfg, start, acts)) ==>
               a.outcome == OutcomeOf(outcomes, |Handed(cfg, start, acts)|, Run(cfg, start, acts).batch[0].id)
    ensures Follows(cfg, start, acts + [a], outcomes)
    ensures Handed(cfg, start, acts + [a])
            == Handed(cfg, start, acts)
               + if a.RelayDispatch? && DispatchReady(Run(cfg, start, acts)) then [Run(cfg, start, acts).batch[0].id]
                 else []
  {
    assert (acts + [a])[..|acts|] == acts;
  }

  lemma ExtendQuietly(cfg: Config, locker: nat, outcomes: (nat, nat) -> Outcome, tr: Trace, p: Node, a: Action)
    requires Tracks(cfg, locker, outcomes, tr, p) && (a.Tick? || a == RelayClaim(locker))
    requires tr.still && a.Tick? ==> a.seconds == 0
    ensures Tracks(cfg, locker, outcomes, tr.(acts := tr.acts + [a]), Next(cfg, p, a))
    ensures Handed(cfg, tr.start, tr.acts + [a]) == Handed(cfg, tr.start, tr.acts)
  {
    Snoc(cfg, outcomes, tr.start, tr.acts, a);
    RunSnoc(cfg, tr.start, tr.acts, a);
    StepKeepsRelayOk(cfg, p, a);
  }

  lemma ExtendByDispatch(cfg: Config, locker: nat, outcomes: (nat, nat) -> Outcome, tr: Trace, p: Node, a: Action)
    requires Tracks(cfg, locker, outcomes, tr, p) && a.RelayDispatch? && DispatchReady(p)
    requires a.outcome == OutcomeOf(outcomes, |Handed(cfg, tr.start, tr.acts)|, p.batch[0].id)
    ensures Tracks(cfg, locker, outcomes, tr.(acts := tr.acts + [a]), Next(cfg, p, a))
    ensures Handed(cfg, tr.start, tr.acts + [a]) == Handed(cfg, tr.start, tr.acts) + [p.batch[0].id]
  {
    Snoc(cfg, outcomes, tr.start, tr.acts, a);
    RunSnoc(cfg, tr.start, tr.acts, a);
    StepKeepsRelayOk(cfg, p, a);
  }

  /** A claim that finds nothing leaves nothing ready. */
  lemma EmptyClaimMeansIdle(cfg: Config, p: Node, locker: nat)
    requires Claim(cfg, p, locker).batch == []
    ensures forall m :: 0 <= m < |p.db.outbox| ==>
              m < |Claim(cfg, p, locker).db.outbox| && !Ready(Claim(cfg, p, locker).db.outbox[m], p.db.now)
  {
    ClaimMeans(cfg, p, locker);
    ClaimIdsFacts(cfg, Recover(p.db.outbox, p.db.now), p.db.now);
  }

  /** The broker as the relay sees it: every publish call is recorded, whether it succeeds or not. */
  class Broker {
    var calls: seq<nat>

    constructor ()
      ensures calls == []
    {
      calls := [];
    }

    method PublishCommand(message: Claimed, o: Outcome) returns (ok: bool)
      modifies this
      ensures calls == old(calls) + [message.id] && ok == o.published
    {
      calls := calls + [message.id];
      ok := o.published;
    }
  }

  class OutboxRelay {
    const db: Database
    const broker: Broker
    const cfg: Config
    const locker: nat

    constructor (db: Database, broker: Broker, cfg: Config, locker: nat)
      ensures this.db == db && this.broker == broker && this.cfg == cfg && this.locker == locker
    {
      this.db, this.broker, this.cfg, this.locker := db, broker, cfg, locker;
    }

    /** Publishing and marking the row are two transactions: when the mark does not commit, the row goes
        through the failure path although the broker has the message. */
    method Dispatch(message: Claimed, o: Outcome)
      modifies db`outbox, broker
      ensures broker.calls == old(broker.calls) + [message.id]
      ensures db.outbox ==
              if message.id < |old(db.outbox)|
              then old(db.outbox)[message.id := DispatchRow(cfg, old(db.outbox)[message.id], message, o, db.now)]
              else old(db.outbox)
      ensures message.id < |old(db.outbox)| && message == CopyOf(old(db.outbox), message.id) ==>
                DispatchLeaves(cfg, old(db.outbox)[message.id], db.outbox[message.id], o, db.now)
    {
      if message.id < |db.outbox| && message == CopyOf(db.outbox, message.id) {
        DispatchRowLeaves(cfg, db.outbox[message.id], message, o, db.now);
      }
      var found;
      var ok := broker.PublishCommand(message, o);
      if ok && o.marked {
        found := db.MarkSent(message.id);
        return;
      }
      var attempt := message.attempts + 1;
      if attempt >= message.maxAttempts {
        found := db.MarkFailed(message.id);
      } else {
        found := db.MarkRetry(message.id, RetryDelay(cfg.retryMax, attempt, o.jitter));
      }
    }

    /** The first transaction of a drain round, after some time: recover expired leases, then claim a batch. */
    method ClaimRound(seconds: nat, outcomes: (nat, nat) -> Outcome, ghost tr: Trace)
      returns (messages: seq<Claimed>, ghost next: Trace)
      requires Tracks(cfg, locker, outcomes, tr, Node(db.Snapshot(), [])) && (tr.still ==> seconds == 0)
      modifies db`outbox, db`now
      ensures Tracks(cfg, locker, outcomes, next, Node(db.Snapshot(), messages)) && next == tr.(acts := next.acts)
      ensures Handed(cfg, next.start, next.acts) == Handed(cfg, tr.start, tr.acts)
      ensures TotalBudget(Node(db.Snapshot(), messages)) == old(TotalBudget(Node(db.Snapshot(), [])))
      ensures messages == [] ==> forall m :: 0 <= m < |db.outbox| ==> !Ready(db.outbox[m], db.now)
    {
      ghost var p := Node(db.Snapshot(), []);
      db.PassTime(seconds);
      ghost var late := Node(db.Snapshot(), []);
      var recovered := db.RecoverStuckPublishing();
      messages := db.ClaimBatch(cfg, locker);
      next := ClaimIsTraced(cfg, locker, outcomes, tr, p, seconds, late);
      assert Node(db.Snapshot(), messages) == Claim(cfg, late, locker);
    }

    /** One message, after some time. */
    method DispatchOne(messages: seq<Claimed>, k: nat, seconds: nat, outcomes: (nat, nat) -> Outcome, n: nat,
                       ghost tr: Trace, ghost calls: seq<nat>) returns (ghost next: Trace)
      requires k < |messages| && Tracks(cfg, locker, outcomes, tr, Node(db.Snapshot(), messages[k..]))
      requires tr.still ==> seconds == 0
      requires n == |Handed(cfg, tr.start, tr.acts)| && broker.calls == calls + Handed(cfg, tr.start, tr.acts)
      modifies db`outbox, db`now, broker
      ensures Tracks(cfg, locker, outcomes, next, Node(db.Snapshot(), messages[k + 1..]))
      ensures next == tr.(acts := next.acts)
      ensures |Handed(cfg, next.start, next.acts)| == n + 1
      ensures broker.calls == calls + Handed(cfg, next.start, next.acts)
      ensures TotalBudget(Node(db.Snapshot(), messages[k + 1..])) < old(TotalBudget(Node(db.Snapshot(), messages[k..])))
    {
      ghost var p, handed := Node(db.Snapshot(), messages[k..]), Handed(cfg, tr.start, tr.acts);
      db.PassTime(seconds);
      ghost var late := Node(db.Snapshot(), messages[k..]);
      var o := OutcomeOf(outcomes, n, messages[k].id);
      next := DispatchIsTraced(cfg, locker, outcomes, tr, p, seconds, late, o);
      Dispatch(messages[k], o);
      assert messages[k..][1..] == messages[k + 1..];
      assert Node(db.Snapshot(), messages[k + 1..]) == Protocol.Dispatch(cfg, late, o);
      assert calls + handed + [messages[k].id] == calls + (handed + [messages[k].id]);
    }

    /** The inner loop of a drain: one dispatch for each message of the batch, until the stop flag is seen at the
        `patience`-th look. The rest of the batch stays claimed. */
    method DispatchAll(messages: seq<Claimed>, patience: nat, ticks: nat -> nat, looks: nat,
                       outcomes: (nat, nat) -> Outcome, n: nat, ghost tr: Trace, ghost calls: seq<nat>)
      returns (handled: nat, ghost next: Trace)
      requires Tracks(cfg, locker, outcomes, tr, Node(db.Snapshot(), messages)) && (tr.still ==> NeverTicks(ticks))
      requires n == |Handed(cfg, tr.start, tr.acts)| && broker.calls == calls + Handed(cfg, tr.start, tr.acts)
      modifies db`outbox, db`now, broker
      ensures handled == Min(patience, |messages|)
      ensures Tracks(cfg, locker, outcomes, next, Node(db.Snapshot(), messages[handled..]))
      ensures next == tr.(acts := next.acts)
      ensures |Handed(cfg, next.start, next.acts)| == n + handled
      ensures broker.calls == calls + Handed(cfg, next.start, next.acts)
      ensures TotalBudget(Node(db.Snapshot(), messages[handled..])) + handled
          <= old(TotalBudget(Node(db.Snapshot(), messages)))
    {
      handled, next := 0, tr;
      ghost var budget := TotalBudget(Node(db.Snapshot(), messages));
      assert messages[0..] == messages;
      while handled < |messages| && handled < patience
        invariant 0 <= handled <= Min(patience, |messages|)
        invariant Tracks(cfg, locker, outcomes, next, Node(db.Snapshot(), messages[handled..]))
        invariant next == tr.(acts := next.acts)
        invariant |Handed(cfg, next.start, next.acts)| == n + handled
        invariant broker.calls == calls + Handed(cfg, next.start, next.acts)
        invariant TotalBudget(Node(db.Snapshot(), messages[handled..])) + handled <= budget
      {
        var seconds := TickOf(ticks, looks + handled + 1);
        next := DispatchOne(messages, handled, seconds, outcomes, n + handled, next, calls);
        handled := handled + 1;
      }
    }

    /** One round: claim a batch and dispatch it. */
    method DrainRound(patience: nat, ticks: nat -> nat, looks: nat, outcomes: (nat, nat) -> Outcome, n: nat,
                      ghost tr: Trace, ghost calls: seq<nat>)
      returns (claimed: nat, handled: nat, ghost next: Trace, ghost left: seq<Claimed>)
      requires Tracks(cfg, locker, outcomes, tr, Node(db.Snapshot(), [])) && (tr.still ==> NeverTicks(ticks))
      requires n == |Handed(cfg, tr.start, tr.acts)| && broker.calls == calls + Handed(cfg, tr.start, tr.acts)
      modifies db`outbox, db`now, broker
      ensures Tracks(cfg, locker, outcomes, next, Node(db.Snapshot(), left)) && next == tr.(acts := next.acts)
      ensures |Handed(cfg, next.start, next.acts)| == n + handled
      ensures broker.calls == calls + Handed(cfg, next.start, next.acts)
      ensures handled == Min(patience, claimed) && |left| == claimed - handled
      ensures claimed == 0 ==> forall m :: 0 <= m < |db.outbox| ==> !Ready(db.outbox[m], db.now)
      ensures 0 <= TotalBudget(Node(db.Snapshot(), left)) <= old(TotalBudget(Node(db.Snapshot(), []))) - handled
    {
      var messages;
      messages, next := ClaimRound(TickOf(ticks, looks), outcomes, tr);
      claimed, handled, left := |messages|, 0, messages;
      if messages != [] {
        handled, next := DispatchAll(messages, patience, ticks, looks, outcomes, n, next, calls);
        left := messages[handled..];
      }
      BudgetIsZeroIffSettled(Node(db.Snapshot(), left), |db.outbox|);
    }

    /** One drain. Whatever the broker does and however time passes, it is a run of the transition system whose
        publishes are the broker's calls, it ends, and unless the stop flag is seen it leaves nothing ready. */
    method DrainAvailable(ticks: nat -> nat, outcomes: (nat, nat) -> Outcome, stopAt: nat)
      returns (processed: nat, stopped: bool, ghost tr: Trace, ghost left: seq<Claimed>)
      requires RelayOk(Node(db.Snapshot(), []))
      modifies db`outbox, db`now, broker
      ensures tr.start == Node(old(db.Snapshot()), []) && tr.still == NeverTicks(ticks)
      ensures Tracks(cfg, locker, outcomes, tr, Node(db.Snapshot(), left))
      ensures broker.calls == old(broker.calls) + Handed(cfg, tr.start, tr.acts)
      ensures processed == |Handed(cfg, tr.start, tr.acts)|
      ensures !stopped ==> left == [] && forall m :: 0 <= m < |db.outbox| ==> !Ready(db.outbox[m], db.now)
      ensures stopped ==> stopAt <= 2 * processed + 2
    {
      ghost var calls, start := broker.calls, Node(db.Snapshot(), []);
      ghost var budget := TotalBudget(start);
      BudgetIsZeroIffSettled(start, |db.outbox|);
      var looks, idle, claimed, handled := 1, false, 0, 0;
      processed, stopped, tr, left := 0, looks >= stopAt, Trace(start, [], NeverTicks(ticks)), [];
      while !stopped && !idle
        invariant Tracks(cfg, locker, outcomes, tr, Node(db.Snapshot(), left))
        invariant tr == Trace(start, tr.acts, NeverTicks(ticks))
        invariant processed == |Handed(cfg, start, tr.acts)| && broker.calls == calls + Handed(cfg, start, tr.acts)
        invariant 1 <= looks <= 2 * processed + 1 && (!stopped ==> left == [] && looks < stopAt)
        invariant idle ==> left == [] && forall m :: 0 <= m < |db.outbox| ==> !Ready(db.outbox[m], db.now)
        invariant stopped ==> stopAt <= 2 * processed + 2
        invariant 0 <= TotalBudget(Node(db.Snapshot(), left)) <= budget - processed
        decreases budget - processed, !idle && !stopped
      {
        claimed, handled, tr, left := DrainRound(stopAt - looks - 1, ticks, looks, outcomes, processed, tr, calls);
        processed, looks := processed + handled, looks + handled;
        idle := claimed == 0;
        if handled == claimed && !idle {
          looks := looks + 1;
        }
        stopped := !idle && (handled < claimed || looks >= stopAt);
      }
    }
  }

  lemma ClaimIsTraced(cfg: Config, locker: nat, outcomes: (nat, nat) -> Outcome, tr: Trace, p: Node, seconds: nat,
      late: Node)
    returns (next: Trace)
    requires Tracks(cfg, locker, outcomes, tr, p) && p.batch == [] && late == Wait(p, seconds)
    requires tr.still ==> seconds == 0
    ensures Tracks(cfg, locker, outcomes, next, Claim(cfg, late, locker)) && next == tr.(acts := next.acts)
    ensures Handed(cfg, next.start, next.acts) == Handed(cfg, tr.start, tr.acts)
    ensures TotalBudget(Claim(cfg, late, locker)) == TotalBudget(p)
    ensures Claim(cfg, late, locker).batch == [] ==>
              forall m :: 0 <= m < |p.db.outbox| ==>
                m < |Claim(cfg, late, locker).db.outbox| && !Ready(Claim(cfg, late, locker).db.outbox[m], late.db.now)
  {
    ExtendQuietly(cfg, locker, outcomes, tr, p, Tick(seconds));
    TickStep(cfg, p, seconds);
    var mid := tr.(acts := tr.acts + [Tick(seconds)]);
    ExtendQuietly(cfg, locker, outcomes, mid, late, RelayClaim(locker));
    ClaimStep(cfg, late, RelayClaim(locker));
    next := mid.(acts := mid.acts + [RelayClaim(locker)]);
    IdleClaim(cfg, late, locker);
    if Claim(cfg, late, locker).batch == [] {
      EmptyClaimMeansIdle(cfg, late, locker);
    }
  }

  lemma DispatchIsTraced(cfg: Config, locker: nat, outcomes: (nat, nat) -> Outcome, tr: Trace, p: Node, seconds: nat,
                         late: Node, o: Outcome) returns (next: Trace)
    requires Tracks(cfg, locker, outcomes, tr, p) && p.batch != [] && late == Wait(p, seconds)
    requires tr.still ==> seconds == 0
    requires o == OutcomeOf(outcomes, |Handed(cfg, tr.start, tr.acts)|, p.batch[0].id)
    ensures DispatchReady(late) && Tracks(cfg, locker, outcomes, next, Protocol.Dispatch(cfg, late, o))
    ensures next == tr.(acts := next.acts)
    ensures Handed(cfg, next.start, next.acts) == Handed(cfg, tr.start, tr.acts) + [p.batch[0].id]
    ensures TotalBudget(Protocol.Dispatch(cfg, late, o)) < TotalBudget(p)
  {
    ExtendQuietly(cfg, locker, outcomes, tr, p, Tick(seconds));
    TickStep(cfg, p, seconds);
    var mid := tr.(acts := tr.acts + [Tick(seconds)]);
    assert CopyOk(late.db.outbox, late.batch[0]);
    ExtendByDispatch(cfg, locker, outcomes, mid, late, RelayDispatch(o));
    DispatchStep(cfg, late, RelayDispatch(o));
    DispatchSpends(cfg, late, o);
    next := mid.(acts := mid.acts + [RelayDispatch(o)]);
  }
}
