/** The control plane as one transition system, and the invariant every run keeps. */
module Protocol {
  import opened Model
  import opened Accounting
  import opened ControlPlane
  import opened Outbox

  /** The committed tables and the batch the (single) relay holds in memory. */
  datatype Node = Node(db: Db, batch: seq<Claimed>)

  datatype Action =
    | Create(tenant: nat, name: Option<string>, spec: Spec, host: string, image: Option<string>)
    | Delete(instance: nat)
    | Stop(instance: nat)
    | Start(instance: nat, host: string)
    | Update(instance: nat, spec: Spec, host: string)
    | Retry(task: nat)
    | Cancel(task: nat)
    | Result(event: Event)
    | Sweep
    | ChangeQuota(tenant: nat, quota: Quota)
    | RelayClaim(locker: nat)
    | RelayDispatch(outcome: Outcome)
    | RelayCrash(published: bool)
    | Tick(seconds: nat)

  /** A request answered by one of the handlers. */
  predicate IsRequest(a: Action) {
    a.Create? || a.Delete? || a.Stop? || a.Start? || a.Update? || a.Retry? || a.Cancel?
  }

  function Handle(cfg: Config, db: Db, a: Action): Step
    requires IsRequest(a)
  {
    match a
    case Create(tenant, name, spec, host, image) => CreateInstance(cfg, db, tenant, name, spec, host, image)
    case Delete(i) => DeleteInstance(cfg, db, i)
    case Stop(i) => StopInstance(cfg, db, i)
    case Start(i, host) => StartInstance(cfg, db, i, host)
    case Update(i, spec, host) => UpdateInstance(cfg, db, i, spec, host)
    case Retry(t) => RetryTask(cfg, db, t)
    case Cancel(t) => CancelTask(cfg, db, t)
  }

  /** Recover expired leases, then claim a batch: the first transaction of a drain round. */
  function Claim(cfg: Config, p: Node, locker: nat): Node {
    var rows := Recover(p.db.outbox, p.db.now);
    var ids := ClaimIds(cfg, rows, p.db.now);
    ClaimIdsFacts(cfg, rows, p.db.now);
    Node(p.db.(outbox := ClaimAll(cfg, rows, ids, locker, p.db.now)), Copies(rows, ids))
  }

  /** A claim leases the rows it names, and the batch holds their copies. */
  lemma ClaimMeans(cfg: Config, p: Node, locker: nat)
    ensures var rows, q := Recover(p.db.outbox, p.db.now), Claim(cfg, p, locker);
            var ids := ClaimIds(cfg, rows, p.db.now);
            && q.db == p.db.(outbox := q.db.outbox) && |q.db.outbox| == |rows| && |q.batch| == |ids|
            && (forall k :: 0 <= k < |rows| ==>
                  q.db.outbox[k] == if k in ids then ClaimRow(cfg, rows[k], locker, p.db.now) else rows[k])
            && (forall k :: 0 <= k < |ids| ==> ids[k] < |rows| && q.batch[k] == CopyOf(rows, ids[k]))
  {
    var rows := Recover(p.db.outbox, p.db.now);
    ClaimIdsFacts(cfg, rows, p.db.now);
    ClaimAllMeans(cfg, rows, ClaimIds(cfg, rows, p.db.now), locker, p.db.now);
  }

  predicate DispatchReady(p: Node) {
    p.batch != [] && p.batch[0].id < |p.db.outbox|
  }

  function Dispatch(cfg: Config, p: Node, o: Outcome): Node
    requires DispatchReady(p)
  {
    var m := p.batch[0].id;
    Node(p.db.(outbox := p.db.outbox[m := DispatchRow(cfg, p.db.outbox[m], p.batch[0], o, p.db.now)]), p.batch[1..])
  }

  function Next(cfg: Config, p: Node, a: Action): Node {
    match a
    case Result(e) => p.(db := ProcessEvent(p.db, e))
    case Sweep => p.(db := SweepOnce(cfg, p.db))
    case ChangeQuota(tenant, q) => p.(db := SetQuota(p.db, tenant, q).0)
    case RelayClaim(locker) => if p.batch == [] then Claim(cfg, p, locker) else p
    case RelayDispatch(o) => if DispatchReady(p) then Dispatch(cfg, p, o) else p
    case RelayCrash(_) => p.(batch := [])
    case Tick(d) => p.(db := p.db.(now := p.db.now + d))
    case _ => p.(db := Handle(cfg, p.db, a).db)
  }

  function Run(cfg: Config, p: Node, acts: seq<Action>): Node {
    if acts == [] then p else Next(cfg, Run(cfg, p, acts[..|acts| - 1]), acts[|acts| - 1])
  }

  lemma RunSnoc(cfg: Config, p: Node, acts: seq<Action>, a: Action)
    ensures Run(cfg, p, acts + [a]) == Next(cfg, Run(cfg, p, acts), a)
  {
    assert (acts + [a])[..|acts|] == acts;
  }

  lemma {:induction false} RunCons(cfg: Config, p: Node, a: Action, acts: seq<Action>)
    ensures Run(cfg, p, [a] + acts) == Run(cfg, Next(cfg, p, a), acts)
  {
    if acts == [] {
      assert [a] + acts == [] + [a];
      RunSnoc(cfg, p, [], a);
    } else {
      var front, last := acts[..|acts| - 1], acts[|acts| - 1];
      assert [a] + acts == ([a] + front) + [last];
      RunSnoc(cfg, p, [a] + front, last);
      RunCons(cfg, p, a, front);
    }
  }

  /** The only final status an event may carry is the one the agent writes for an update
      (manager.go:294-298): running or stopped. */
  predicate LegalEvent(e: Event) {
    e.resultStatus.None? || e.resultStatus.value.Running? || e.resultStatus.value.Stopped?
  }

  predicate LegalRun(acts: seq<Action>) {
    forall k :: 0 <= k < |acts| && acts[k].Result? ==> LegalEvent(acts[k].event)
  }

  predicate Initial(p: Node) {
    p.db.instances == [] && p.db.tasks == [] && p.db.outbox == [] && p.batch == []
  }

  // ----- The invariant -----

  /** Which rows hold a reservation, decided by status except in `error`. */
  predicate ReservationFits(row: Instance) {
    match row.status
    case Error => true
    case DeletingPending => !row.reserve
    case Deleted => !row.reserve
    case _ => row.reserve
  }

  predicate RowShape(row: Instance) {
    && row.spec.Positive()
    && (row.deletedAt.Some? <==> row.status.Deleted?)
    && ReservationFits(row)
  }

  /** `t` is the active task that accounts for the pending status of row `i`. */
  predicate Holds(db: Db, i: nat, t: nat)
    requires i < |db.instances|
  {
    && t < |db.tasks|
    && db.tasks[t].instance == i
    && Active(db.tasks[t].status)
    && db.instances[i].status == PendingStatus(db.tasks[t].command)
  }

  predicate RowOk(db: Db, i: nat)
    requires i < |db.instances|
  {
    && RowShape(db.instances[i])
    && (Pending(db.instances[i].status) ==>
          db.instances[i].lastTask.Some? && Holds(db, i, db.instances[i].lastTask.value))
  }

  /** The snapshot a task carries is the one its command needs to be retried and reverted. */
  predicate PayloadFits(command: Command, p: RequestPayload) {
    && p.host.Some?
    && (p.spec.Some? ==> p.spec.value.Positive())
    && (p.previousSpec.Some? ==> p.previousSpec.value.Positive())
    && p.previousDeletedAt.None?
    && match command
       case Create => p.spec.Some?
       case Update => p.spec.Some? && p.previousSpec.Some? && p.boot.Some?
       case Delete => p.spec.None? && p.previousSpec.Some?
       case _ => p.spec.None? && PowerSnapshot(p)
  }

  predicate PowerSnapshot(p: RequestPayload) {
    && p.previousStatus.Some? && (p.previousStatus.value.Running? || p.previousStatus.value.Stopped?)
    && p.previousReserve == Some(true)
  }

  /** A retried task repeats the command and snapshot of an earlier, failed or canceled task. */
  predicate RetryLink(db: Db, t: nat)
    requires t < |db.tasks|
  {
    var k := db.tasks[t];
    k.retryOf.Some? ==>
      && k.retryOf.value < t
      && var s := db.tasks[k.retryOf.value];
      && s.instance == k.instance && s.command == k.command && s.payload == k.payload
      && (s.status.Failed? || s.status.Canceled?)
  }

  predicate TaskOk(db: Db, t: nat)
    requires t < |db.tasks|
  {
    var k := db.tasks[t];
    && k.instance < |db.instances|
    && k.request < db.nextRequest
    && k.createdAt <= db.now
    && PayloadFits(k.command, k.payload)
    && RetryLink(db, t)
    && (Active(k.status) ==>
          && db.instances[k.instance].lastTask == Some(t)
          && db.instances[k.instance].status == PendingStatus(k.command))
  }

  /** The host a task's command was published with: a retry falls back to the instance's host. */
  function PublishedHost(db: Db, t: nat): string
    requires t < |db.tasks| && db.tasks[t].instance < |db.instances|
  {
    var k := db.tasks[t];
    if k.retryOf.None? then GetOr(k.payload.host, "") else RetryHost(db.instances[k.instance], k.payload)
  }

  predicate LinkOk(db: Db, r: nat)
    requires r < |db.outbox|
  {
    var row := db.outbox[r];
    && row.task < |db.tasks|
    && row.request < db.nextRequest
    && row.createdAt <= db.now
    && var k := db.tasks[row.task];
    && k.instance < |db.instances|
    && match row.topic
       case Lifecycle(c) =>
         c == k.command && row.request == k.request
         && Some(row.payload) == CommandMessage(c, k.instance, k.payload, PublishedHost(db, row.task))
       case CancelTopic =>
         && row.request != k.request && row.payload == CancelPayload(k.instance, row.task, k.command)
         && !k.status.Queued? && !k.status.Running?
  }

  ghost predicate DistinctRequests(db: Db) {
    forall q, r :: 0 <= q < r < |db.outbox| ==> db.outbox[q].request != db.outbox[r].request
  }

  ghost predicate CreationOrder(db: Db) {
    forall s, t :: 0 <= s < t < |db.tasks| ==> db.tasks[s].createdAt <= db.tasks[t].createdAt
  }

  ghost predicate Inv(db: Db) {
    && (forall i :: 0 <= i < |db.instances| ==> RowOk(db, i))
    && (forall t :: 0 <= t < |db.tasks| ==> TaskOk(db, t))
    && (forall r :: 0 <= r < |db.outbox| ==> LinkOk(db, r))
    && (forall t :: 0 <= t < |db.tasks| ==> HasCommandRow(db, t))
    && DistinctRequests(db)
    && CreationOrder(db)
  }
}
