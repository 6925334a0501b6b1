/** The tables as one mutable object, with the repositories' row updates as methods. */
module Database {
  import opened Model
  import opened Accounting
  import opened ControlPlane
  import opened Outbox

  class Database {
    var instances: seq<Instance>
    var tasks: seq<Task>
    var outbox: seq<OutboxRow>
    var tenants: map<nat, bool>
    var quotas: map<nat, Quota>
    var capacity: map<string, Spec>
    var nextRequest: nat
    var now: nat

    constructor (tenants: map<nat, bool>, quotas: map<nat, Quota>, capacity: map<string, Spec>)
      ensures Snapshot() == Db([], [], [], tenants, quotas, capacity, 0, 0)
    {
      instances, tasks, outbox := [], [], [];
      this.tenants, this.quotas, this.capacity := tenants, quotas, capacity;
      nextRequest, now := 0, 0;
    }

    function Snapshot(): Db
      reads this
    {
      Db(instances, tasks, outbox, tenants, quotas, capacity, nextRequest, now)
    }

    /** `instance_tasks.instance_id REFERENCES instances`. */
    ghost predicate ForeignKeys()
      reads this
    {
      forall t :: 0 <= t < |tasks| ==> tasks[t].instance < |instances|
    }

    /** An exception before the commit: everything written since `saved` is undone. */
    method Rollback(saved: Db)
      modifies this
      ensures Snapshot() == saved
    {
      instances, tasks, outbox := saved.instances, saved.tasks, saved.outbox;
      tenants, quotas, capacity := saved.tenants, saved.quotas, saved.capacity;
      nextRequest, now := saved.nextRequest, saved.now;
    }

    /** The clock moves between transactions. */
    method PassTime(seconds: nat)
      modifies this`now
      ensures now == old(now) + seconds
    {
      now := now + seconds;
    }

    /** `uuid4()`: an id never handed out before. */
    method NewRequestId() returns (request: nat)
      modifies this`nextRequest
      ensures request == old(nextRequest) && nextRequest == old(nextRequest) + 1
    {
      request := nextRequest;
      nextRequest := nextRequest + 1;
    }

    // ----- instances -----

    method InsertInstance(row: Instance) returns (i: nat)
      modifies this`instances
      ensures i == |old(instances)| && instances == old(instances) + [row]
    {
      i := |instances|;
      instances := instances + [row];
    }

    /** `UPDATE ... RETURNING`; `found` is false where the repository raises. */
    method UpdateSpec(i: nat, spec: Spec, status: InstanceStatus, ip: Option<string>, reserve: bool,
                      lastTask: Option<nat>, deletedAt: Option<nat>) returns (found: bool)
      modifies this`instances
      ensures found == (i < |old(instances)|)
      ensures instances ==
              if found
              then old(instances)[i := old(instances[i]).(spec := spec, status := status, ip := ip, reserve := reserve,
                                                          lastTask := lastTask, deletedAt := deletedAt)]
              else old(instances)
    {
      found := i < |instances|;
      if found {
        instances := instances[i := instances[i].(spec := spec, status := status, ip := ip, reserve := reserve,
                                                  lastTask := lastTask, deletedAt := deletedAt)];
      }
    }

    method UpdateState(i: nat, status: InstanceStatus, reserve: bool, lastTask: Option<nat>, deletedAt: Option<nat>,
                       ip: Option<string>) returns (found: bool)
      modifies this`instances
      ensures found == (i < |old(instances)|)
      ensures instances ==
              if found
              then old(instances)[i := old(instances[i]).(status := status, reserve := reserve, lastTask := lastTask,
                                                          deletedAt := deletedAt, ip := ip)]
              else old(instances)
    {
      found := i < |instances|;
      if found {
        instances := instances[i := instances[i].(status := status, reserve := reserve, lastTask := lastTask,
                                                  deletedAt := deletedAt, ip := ip)];
      }
    }

    // ----- instance_tasks -----

    method CreateTask(i: nat, command: Command, request: nat, payload: RequestPayload) returns (t: nat)
      modifies this`tasks
      ensures t == |old(tasks)| && tasks == old(tasks) + [NewTask(i, command, request, payload, now, None)]
    {
      t := |tasks|;
      tasks := tasks + [NewTask(i, command, request, payload, now, None)];
    }

    method CloneForRetry(source: nat, request: nat) returns (t: nat)
      requires source < |tasks|
      modifies this`tasks
      ensures t == |old(tasks)|
      ensures tasks == old(tasks) + [NewTask(old(tasks[source]).instance, old(tasks[source]).command, request,
                                             old(tasks[source]).payload, now, Some(source))]
    {
      t := |tasks|;
      var task := tasks[source];
      tasks := tasks + [NewTask(task.instance, task.command, request, task.payload, now, Some(source))];
    }

    method MarkRunning(t: nat, attempts: int) returns (found: bool)
      modifies this`tasks
      ensures found == (t < |old(tasks)|)
      ensures tasks == if found then old(tasks)[t := old(tasks[t]).(status := TaskStatus.Running, attempts := attempts)]
                       else old(tasks)
    {
      found := t < |tasks|;
      if found {
        tasks := tasks[t := tasks[t].(status := TaskStatus.Running, attempts := attempts)];
      }
    }

    method MarkCancelPending(t: nat) returns (found: bool)
      modifies this`tasks
      ensures found == (t < |old(tasks)|)
      ensures tasks == if found then old(tasks)[t := old(tasks[t]).(status := CancelPending)] else old(tasks)
    {
      found := t < |tasks|;
      if found {
        tasks := tasks[t := tasks[t].(status := CancelPending)];
      }
    }

    method MarkCanceled(t: nat, attempts: int, errorCode: Option<string>) returns (found: bool)
      modifies this`tasks
      ensures found == (t < |old(tasks)|)
      ensures tasks == if found
                       then old(tasks)[t := old(tasks[t]).(status := TaskStatus.Canceled, attempts := attempts,
                                                           errorCode := errorCode)]
                       else old(tasks)
    {
      found := t < |tasks|;
      if found {
        tasks := tasks[t := tasks[t].(status := TaskStatus.Canceled, attempts := attempts, errorCode := errorCode)];
      }
    }

    method MarkTerminal(t: nat, status: TaskStatus, attempts: int, errorCode: Option<string>) returns (found: bool)
      modifies this`tasks
      ensures found == (t < |old(tasks)|)
      ensures tasks == if found
                       then old(tasks)[t :=
                              old(tasks[t]).(status := status, attempts := attempts, errorCode := errorCode)]
                       else old(tasks)
    {
      found := t < |tasks|;
      if found {
        tasks := tasks[t := tasks[t].(status := status, attempts := attempts, errorCode := errorCode)];
      }
    }

    // ----- command_outbox -----

    /** A conflict on (task, topic, request) keeps the row that is there. */
    method EnqueueCommand(cfg: Config, topic: Topic, payload: CommandPayload, task: nat, request: nat)
      modifies this`outbox
      ensures outbox == Enqueue(cfg, old(outbox), now, topic, payload, task, request)
    {
      if !OutboxHas(outbox, topic, task, request) {
        outbox := outbox + [OutboxRow(topic, task, request, payload, OutboxStatus.Queued, 0,
                                      AtLeastOne(cfg.outboxMaxAttempts), now, None, None, None, now)];
      }
    }

    method RecoverStuckPublishing() returns (recovered: nat)
      modifies this`outbox
      ensures outbox == Recover(old(outbox), now)
      ensures recovered == |set k | 0 <= k < |old(outbox)| && LeaseExpired(old(outbox)[k], now)|
    {
      recovered := |set k | 0 <= k < |outbox| && LeaseExpired(outbox[k], now)|;
      outbox := Recover(outbox, now);
    }

    /** The rows are read back by the update itself, so the copies show the attempt count at claim time. */
    method ClaimBatch(cfg: Config, locker: nat) returns (claimed: seq<Claimed>)
      modifies this`outbox
      ensures forall k :: 0 <= k < |ClaimIds(cfg, old(outbox), now)| ==>
          ClaimIds(cfg, old(outbox), now)[k] < |old(outbox)|
      ensures claimed == Copies(old(outbox), ClaimIds(cfg, old(outbox), now))
      ensures outbox == ClaimAll(cfg, old(outbox), ClaimIds(cfg, old(outbox), now), locker, now)
    {
      var ids := ClaimIds(cfg, outbox, now);
      ClaimIdsFacts(cfg, outbox, now);
      claimed := Copies(outbox, ids);
      outbox := ClaimAll(cfg, outbox, ids, locker, now);
    }

    method MarkSent(m: nat) returns (found: bool)
      modifies this`outbox
      ensures found == (m < |old(outbox)|)
      ensures outbox == if found then old(outbox)[m := SentRow(old(outbox)[m], now)] else old(outbox)
    {
      found := m < |outbox|;
      if found {
        outbox := outbox[m := outbox[m].(status := Sent, sentAt := Some(now), lockedBy := None, lockExpiresAt := None)];
      }
    }

    method MarkRetry(m: nat, delay: int) returns (found: bool)
      modifies this`outbox
      ensures found == (m < |old(outbox)|)
      ensures outbox == if found then old(outbox)[m := RetryRow(old(outbox)[m], delay, now)] else old(outbox)
    {
      found := m < |outbox|;
      if found {
        outbox := outbox[m := outbox[m].(status := OutboxStatus.Queued, attempts := outbox[m].attempts + 1,
                                         nextAttemptAt := now + AtLeastOne(delay),
                                         lockedBy := None, lockExpiresAt := None)];
      }
    }

    method MarkFailed(m: nat) returns (found: bool)
      modifies this`outbox
      ensures found == (m < |old(outbox)|)
      ensures outbox == if found then old(outbox)[m := FailedRow(old(outbox)[m])] else old(outbox)
    {
      found := m < |outbox|;
      if found {
        outbox := outbox[m := outbox[m].(status := OutboxStatus.Failed, attempts := outbox[m].attempts + 1,
                                         lockedBy := None, lockExpiresAt := None)];
      }
    }

    // ----- tenant_quotas -----

    method UpsertQuota(tenant: nat, q: Quota)
      modifies this`quotas
      ensures quotas == old(quotas)[tenant := q]
    {
      quotas := quotas[tenant := q];
    }
  }
}
