/** The protocol invariant is kept by every action, hence by every run. */
module Invariant {
  import opened Model
  import opened Accounting
  import opened ControlPlane
  import opened Outbox
  import opened Protocol
  import opened Requests

  // ----- The invariant's two directions, as consequences -----

  /** An instance is pending exactly when it has an active task; then the two name each other. */
  lemma PendingIffActiveTask(db: Db, i: nat)
    requires Inv(db) && i < |db.instances|
    ensures Pending(db.instances[i].status) <==> HasActiveTask(db.tasks, i)
    ensures Pending(db.instances[i].status) ==>
              && db.instances[i].lastTask.Some?
              && Holds(db, i, db.instances[i].lastTask.value)
  {
    assert RowOk(db, i);
    if HasActiveTask(db.tasks, i) {
      var t :| 0 <= t < |db.tasks| && db.tasks[t].instance == i && Active(db.tasks[t].status);
      assert TaskOk(db, t);
    }
  }

  predicate InFlight(db: Db, t: nat) {
    t < |db.tasks| && Active(db.tasks[t].status)
  }

  predicate ActiveOn(db: Db, t: nat, i: nat) {
    InFlight(db, t) && db.tasks[t].instance == i
  }

  lemma AtMostOneActiveTask(db: Db, s: nat, t: nat)
    requires Inv(db) && s < |db.tasks| && t < |db.tasks|
    requires Active(db.tasks[s].status) && Active(db.tasks[t].status)
    requires db.tasks[s].instance == db.tasks[t].instance
    ensures s == t
  {
    assert TaskOk(db, s) && TaskOk(db, t);
  }

  // ----- Enqueueing under the invariant always inserts -----

  lemma EnqueueInserts(cfg: Config, db: Db, topic: Topic, payload: CommandPayload, task: nat)
    requires Inv(db)
    ensures Enqueue(cfg, db.outbox, db.now, topic, payload, task, db.nextRequest) ==
            db.outbox + [NewOutboxRow(cfg, db.now, topic, payload, task, db.nextRequest)]
  {
    forall r | 0 <= r < |db.outbox| ensures db.outbox[r].request != db.nextRequest {
      assert LinkOk(db, r);
    }
  }

  // ----- One lemma per kind of transition -----

  predicate FreshRow(db: Db, i: nat, row: Instance, command: Command) {
    && i <= |db.instances|
    && (i < |db.instances| ==> !HasActiveTask(db.tasks, i) && row.host == db.instances[i].host)
    && RowShape(row)
    && row.status == PendingStatus(command)
    && row.lastTask == Some(|db.tasks|)
  }

  predicate FreshTask(db: Db, i: nat, row: Instance, command: Command, payload: RequestPayload,
                      message: CommandPayload, retryOf: Option<nat>)
  {
    && PayloadFits(command, payload)
    && (retryOf.Some? ==>
          && retryOf.value < |db.tasks|
          && var s := db.tasks[retryOf.value];
          && s.instance == i && s.command == command && s.payload == payload
          && (s.status.Failed? || s.status.Canceled?))
    && Some(message) == CommandMessage(command, i, payload,
         if retryOf.None? then GetOr(payload.host, "") else RetryHost(row, payload))
  }

  lemma SubmitKeepsInv(cfg: Config, db: Db, i: nat, row: Instance, command: Command, payload: RequestPayload,
                       message: CommandPayload, retryOf: Option<nat>)
    requires Inv(db) && FreshRow(db, i, row, command) && FreshTask(db, i, row, command, payload, message, retryOf)
    ensures Inv(Submit(cfg, db, i, row, command, payload, message, retryOf).db)
  {
    var after := Submit(cfg, db, i, row, command, payload, message, retryOf).db;
    EnqueueInserts(cfg, db, Lifecycle(command), message, |db.tasks|);
    forall j | 0 <= j < |after.instances| ensures RowOk(after, j) {
      if j != i {
        assert RowOk(db, j);
      }
    }
    forall t | 0 <= t < |after.tasks| ensures TaskOk(after, t) {
      if t < |db.tasks| {
        assert TaskOk(db, t);
      }
    }
    forall r | 0 <= r < |after.outbox| ensures LinkOk(after, r) {
      if r < |db.outbox| {
        assert LinkOk(db, r);
      }
    }
    forall t | 0 <= t < |after.tasks| ensures HasCommandRow(after, t) {
      if t < |db.tasks| {
        assert HasCommandRow(db, t);
        var r :| 0 <= r < |db.outbox| && db.outbox[r].task == t && db.outbox[r].topic == Lifecycle(db.tasks[t].command);
        assert after.outbox[r] == db.outbox[r];
      } else {
        assert after.outbox[|db.outbox|].task == t;
      }
    }
    forall q, r | 0 <= q < r < |after.outbox| ensures after.outbox[q].request != after.outbox[r].request {
      assert LinkOk(db, q);
    }
    forall s, t | 0 <= s < t < |after.tasks| ensures after.tasks[s].createdAt <= after.tasks[t].createdAt {
      assert TaskOk(db, s);
    }
  }

  /** Everything a status change leaves alone in a task. */
  predicate SameRequest(a: Task, b: Task) {
    a == b.(status := a.status, attempts := a.attempts, errorCode := a.errorCode)
  }

  predicate Settles(db: Db, t: nat, task: Task, row: Instance) {
    && t < |db.tasks| && db.tasks[t].instance < |db.instances|
    && Active(db.tasks[t].status)
    && SameRequest(task, db.tasks[t]) && !Active(task.status)
    && RowShape(row) && !Pending(row.status) && row.host == db.instances[db.tasks[t].instance].host
  }

  lemma HasCommandRowStable(before: Db, after: Db, t: nat)
    requires t < |before.tasks| <= |after.tasks| && before.tasks[t].command == after.tasks[t].command
    requires |before.outbox| <= |after.outbox|
    requires forall r :: 0 <= r < |before.outbox| ==>
               after.outbox[r].task == before.outbox[r].task && after.outbox[r].topic == before.outbox[r].topic
    requires HasCommandRow(before, t)
    ensures HasCommandRow(after, t)
  {
    var r :| 0 <= r < |before.outbox| && before.outbox[r].task == t
             && before.outbox[r].topic == Lifecycle(before.tasks[t].command);
    assert after.outbox[r].task == t;
  }

  lemma FinishKeepsInv(db: Db, t: nat, task: Task, row: Instance)
    requires Inv(db) && Settles(db, t, task, row)
    ensures Inv(Finish(db, t, task, row))
  {
    var after := Finish(db, t, task, row);
    var i := db.tasks[t].instance;
    assert TaskOk(db, t);
    forall j | 0 <= j < |after.instances| ensures RowOk(after, j) {
      assert RowOk(db, j);
    }
    forall s | 0 <= s < |after.tasks| ensures TaskOk(after, s) {
      assert TaskOk(db, s);
    }
    forall r | 0 <= r < |after.outbox| ensures LinkOk(after, r) {
      assert LinkOk(db, r);
    }
    forall s | 0 <= s < |after.tasks| ensures HasCommandRow(after, s) {
      HasCommandRowStable(db, after, s);
    }
  }

  /** A running event or a cancel request: the task stays active, the instance row is untouched. */
  lemma MarkKeepsInv(db: Db, t: nat, task: Task)
    requires Inv(db) && t < |db.tasks| && SameRequest(task, db.tasks[t])
    requires Active(db.tasks[t].status)
    requires task.status.CancelPending? || (task.status.Running? && !db.tasks[t].status.CancelPending?)
    ensures Inv(db.(tasks := db.tasks[t := task]))
  {
    var after := db.(tasks := db.tasks[t := task]);
    forall j | 0 <= j < |after.instances| ensures RowOk(after, j) {
      assert RowOk(db, j);
    }
    forall s | 0 <= s < |after.tasks| ensures TaskOk(after, s) {
      assert TaskOk(db, s);
    }
    forall r | 0 <= r < |after.outbox| ensures LinkOk(after, r) {
      assert LinkOk(db, r);
    }
    forall s | 0 <= s < |after.tasks| ensures HasCommandRow(after, s) {
      HasCommandRowStable(db, after, s);
    }
  }

  lemma CancelRowKeepsInv(cfg: Config, db: Db, t: nat)
    requires Inv(db) && t < |db.tasks| && db.tasks[t].status.CancelPending?
    ensures var k := db.tasks[t];
            Inv(db.(outbox := Enqueue(cfg, db.outbox, db.now, CancelTopic, CancelPayload(k.instance, t, k.command), t,
                db.nextRequest),
                    nextRequest := db.nextRequest + 1))
  {
    var k := db.tasks[t];
    var payload := CancelPayload(k.instance, t, k.command);
    EnqueueInserts(cfg, db, CancelTopic, payload, t);
    var after := db.(outbox := db.outbox + [NewOutboxRow(cfg, db.now, CancelTopic, payload, t, db.nextRequest)],
                     nextRequest := db.nextRequest + 1);
    assert TaskOk(db, t);
    forall j | 0 <= j < |after.instances| ensures RowOk(after, j) {
      assert RowOk(db, j);
    }
    forall s | 0 <= s < |after.tasks| ensures TaskOk(after, s) {
      assert TaskOk(db, s);
    }
    forall r | 0 <= r < |after.outbox| ensures LinkOk(after, r) {
      if r < |db.outbox| {
        assert LinkOk(db, r);
      }
    }
    forall s | 0 <= s < |after.tasks| ensures HasCommandRow(after, s) {
      HasCommandRowStable(db, after, s);
    }
    forall q, r | 0 <= q < r < |after.outbox| ensures after.outbox[q].request != after.outbox[r].request {
      assert LinkOk(db, q);
    }
  }

  /** The relay changes delivery columns only. */
  predicate SameMessages(a: seq<OutboxRow>, b: seq<OutboxRow>) {
    |a| == |b| && forall r :: 0 <= r < |a| ==> SameMessage(a[r], b[r])
  }

  predicate SameMessage(a: OutboxRow, b: OutboxRow) {
    && a.topic == b.topic && a.task == b.task && a.request == b.request && a.payload == b.payload
    && a.createdAt == b.createdAt
    && a.maxAttempts == b.maxAttempts
  }

  lemma DeliveryKeepsInv(db: Db, rows: seq<OutboxRow>, quotas: map<nat, Quota>, now: nat)
    requires Inv(db) && SameMessages(db.outbox, rows) && now >= db.now
    ensures Inv(db.(outbox := rows, quotas := quotas, now := now))
  {
    var after := db.(outbox := rows, quotas := quotas, now := now);
    forall j | 0 <= j < |after.instances| ensures RowOk(after, j) {
      assert RowOk(db, j);
    }
    forall s | 0 <= s < |after.tasks| ensures TaskOk(after, s) {
      assert TaskOk(db, s);
    }
    forall r | 0 <= r < |after.outbox| ensures LinkOk(after, r) {
      assert LinkOk(db, r);
      assert SameMessage(db.outbox[r], rows[r]);
    }
    forall s | 0 <= s < |after.tasks| ensures HasCommandRow(after, s) {
      forall r | 0 <= r < |db.outbox|
        ensures rows[r].task == db.outbox[r].task && rows[r].topic == db.outbox[r].topic
      {
        assert SameMessage(db.outbox[r], rows[r]);
      }
      HasCommandRowStable(db, after, s);
    }
    forall q, r | 0 <= q < r < |after.outbox| ensures after.outbox[q].request != after.outbox[r].request {
      assert SameMessage(db.outbox[q], rows[q]) && SameMessage(db.outbox[r], rows[r]);
    }
  }

  // ----- Every action is one of these transitions -----

  lemma NoActiveTaskMeansSettled(db: Db, i: nat)
    requires Inv(db) && i < |db.instances| && !HasActiveTask(db.tasks, i)
    ensures !Pending(db.instances[i].status) && RowShape(db.instances[i])
  {
    PendingIffActiveTask(db, i);
    assert RowOk(db, i);
  }

  lemma RequestKeepsInv(cfg: Config, db: Db, a: Action)
    requires Inv(db) && CreatesTask(a)
    ensures Inv(Handle(cfg, db, a).db)
  {
    NormalForm(cfg, db, a);
    if Guards(db, a) && CheckPasses(db, a) {
      SubmissionIsFresh(db, a);
      SubmitKeepsInv(cfg, db, Target(db, a), WrittenRow(db, a), CommandOf(db, a), PayloadOf(db, a), MessageOf(db, a),
          RetryOf(a));
    }
  }

  lemma SubmissionIsFresh(db: Db, a: Action)
    requires Inv(db) && CreatesTask(a) && Guards(db, a)
    ensures FreshRow(db, Target(db, a), WrittenRow(db, a), CommandOf(db, a))
    ensures FreshTask(db, Target(db, a), WrittenRow(db, a), CommandOf(db, a), PayloadOf(db, a), MessageOf(db, a),
        RetryOf(a))
  {
    if !a.Create? {
      NoActiveTaskMeansSettled(db, Target(db, a));
    }
    if a.Retry? {
      assert TaskOk(db, a.task);
    }
  }

  /** Undoing an active task leaves a settled row. */
  lemma RevertSettles(db: Db, t: nat, task: Task)
    requires Inv(db) && t < |db.tasks| && Active(db.tasks[t].status)
    requires SameRequest(task, db.tasks[t]) && !Active(task.status)
    ensures db.tasks[t].instance < |db.instances|
    ensures Settles(db, t, task, Revert(db.instances[db.tasks[t].instance], task.command, task.payload))
  {
    assert TaskOk(db, t);
    assert RowOk(db, db.tasks[t].instance);
  }

  lemma CancelKeepsInv(cfg: Config, db: Db, t: nat)
    requires Inv(db)
    ensures Inv(CancelTask(cfg, db, t).db)
  {
    if t < |db.tasks| && db.tasks[t].status.Queued? {
      var task := db.tasks[t].(status := TaskStatus.Canceled, errorCode := Some("CANCELED"));
      RevertSettles(db, t, task);
      FinishKeepsInv(db, t, task, Revert(db.instances[task.instance], task.command, task.payload));
    } else if t < |db.tasks| && db.tasks[t].status.Running? {
      var task := db.tasks[t].(status := CancelPending);
      MarkKeepsInv(db, t, task);
      CancelRowKeepsInv(cfg, db.(tasks := db.tasks[t := task]), t);
    }
  }

  lemma EventKeepsInv(db: Db, e: Event)
    requires Inv(db) && LegalEvent(e)
    ensures Inv(ProcessEvent(db, e))
  {
    if Live(db, e) {
      var t := e.task;
      var task, row := db.tasks[t], db.instances[db.tasks[t].instance];
      assert TaskOk(db, t) && RowOk(db, task.instance);
      if e.status.Running? {
        assert db.instances[task.instance := row] == db.instances;
        if task.status.CancelPending? {
          assert db.tasks[t := task] == db.tasks;
        } else {
          MarkKeepsInv(db, t, EventTask(task, e));
        }
      } else {
        if !e.status.Succeeded? {
          RevertSettles(db, t, EventTask(task, e));
        }
        FinishKeepsInv(db, t, EventTask(task, e), EventRow(row, task, t, e, db.now));
      }
    }
  }

  lemma FailStaleKeepsInv(db: Db, t: nat)
    requires Inv(db)
    ensures Inv(FailStale(db, t))
  {
    if t < |db.tasks| && db.tasks[t].status.Queued? {
      var task := db.tasks[t].(status := TaskStatus.Failed, attempts := Max(db.tasks[t].attempts, 1),
          errorCode := Some("TIMEOUT"));
      RevertSettles(db, t, task);
      FinishKeepsInv(db, t, task, Revert(db.instances[task.instance], task.command, task.payload));
    }
  }

  lemma {:induction false} FailAllKeepsInv(db: Db, ids: seq<nat>)
    requires Inv(db)
    ensures Inv(FailAll(db, ids))
  {
    if ids != [] {
      FailAllKeepsInv(db, ids[..|ids| - 1]);
      FailStaleKeepsInv(FailAll(db, ids[..|ids| - 1]), ids[|ids| - 1]);
    }
  }

  lemma ClaimKeepsMessages(cfg: Config, p: Node, locker: nat)
    ensures SameMessages(p.db.outbox, Claim(cfg, p, locker).db.outbox)
    ensures Claim(cfg, p, locker).db == p.db.(outbox := Claim(cfg, p, locker).db.outbox)
  {
    ClaimMeans(cfg, p, locker);
  }

  lemma DispatchKeepsMessages(cfg: Config, p: Node, o: Outcome)
    requires DispatchReady(p)
    ensures SameMessages(p.db.outbox, Dispatch(cfg, p, o).db.outbox)
    ensures Dispatch(cfg, p, o).db == p.db.(outbox := Dispatch(cfg, p, o).db.outbox)
  {
  }

  lemma StepKeepsInv(cfg: Config, p: Node, a: Action)
    requires Inv(p.db) && (a.Result? ==> LegalEvent(a.event))
    ensures Inv(Next(cfg, p, a).db)
  {
    var db := p.db;
    match a
    case Cancel(t) => CancelKeepsInv(cfg, db, t);
    case Result(e) => EventKeepsInv(db, e);
    case Sweep => FailAllKeepsInv(db, SweepPick(cfg, db));
    case ChangeQuota(tenant, q) => DeliveryKeepsInv(db, db.outbox, SetQuota(db, tenant, q).0.quotas, db.now);
    case Tick(d) => DeliveryKeepsInv(db, db.outbox, db.quotas, db.now + d);
    case RelayClaim(locker) =>
      ClaimKeepsMessages(cfg, p, locker);
      DeliveryKeepsInv(db, Claim(cfg, p, locker).db.outbox, db.quotas, db.now);
    case RelayDispatch(o) =>
      if DispatchReady(p) {
        DispatchKeepsMessages(cfg, p, o);
        DeliveryKeepsInv(db, Dispatch(cfg, p, o).db.outbox, db.quotas, db.now);
      }
    case RelayCrash(_) =>
    case _ => RequestKeepsInv(cfg, db, a);
  }

  lemma {:induction false} RunKeepsInv(cfg: Config, p: Node, acts: seq<Action>)
    requires Inv(p.db) && LegalRun(acts)
    ensures Inv(Run(cfg, p, acts).db)
  {
    if acts != [] {
      var n := |acts| - 1;
      assert LegalRun(acts[..n]);
      RunKeepsInv(cfg, p, acts[..n]);
      StepKeepsInv(cfg, Run(cfg, p, acts[..n]), acts[n]);
    }
  }

  /** In every reachable state an instance is pending exactly when it has an active task, that task is
      the only one, it is the row's `last_task_id` and its command matches the pending status; and
      reservation and deletion time follow the status. */
  lemma {:induction false} ReachableStatesFollowTheProtocol(cfg: Config, start: Node, acts: seq<Action>, i: nat)
    requires Initial(start) && LegalRun(acts)
    requires i < |Run(cfg, start, acts).db.instances|
    ensures var db := Run(cfg, start, acts).db;
            var row := db.instances[i];
            && (Pending(row.status) <==> HasActiveTask(db.tasks, i))
            && (Pending(row.status) ==> row.lastTask.Some? && Holds(db, i, row.lastTask.value))
            && (forall s, t :: ActiveOn(db, s, i) && ActiveOn(db, t, i) ==> s == t)
            && (row.status.Running? || row.status.Stopped? ==> row.reserve)
            && (row.status.DeletingPending? || row.status.Deleted? ==> !row.reserve)
            && (row.deletedAt.Some? <==> row.status.Deleted?)
  {
    RunKeepsInv(cfg, start, acts);
    var db := Run(cfg, start, acts).db;
    PendingIffActiveTask(db, i);
    assert RowOk(db, i);
    forall s, t | ActiveOn(db, s, i) && ActiveOn(db, t, i) ensures s == t
    {
      AtMostOneActiveTask(db, s, t);
    }
  }
}
