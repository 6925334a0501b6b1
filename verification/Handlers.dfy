/** The transactions as the services perform them, row update by row update, each proved to commit what
    its specification in `ControlPlane` says. */
module Handlers {
  import opened Model
  import opened Accounting
  import opened ControlPlane
  import Sweeping
  import opened Tables = Database

  // ----- task_instance_state -----

  method ApplyPendingInstanceState(db: Database, i: nat, command: Command, payload: RequestPayload, t: nat)
    requires i < |db.instances|
    modifies db`instances
    ensures db.instances == old(db.instances)[i := ApplyPending(old(db.instances)[i], command, payload, t)]
  {
    var row := db.instances[i];
    var found;
    match command
    case Create =>
      found := db.UpdateSpec(i, GetOr(payload.spec, row.spec), CreatingPending, None, true, Some(t), None);
    case Update =>
      found := db.UpdateSpec(i, GetOr(payload.spec, row.spec), UpdatingPending, row.ip, true, Some(t), row.deletedAt);
    case Start =>
      found := db.UpdateState(i, StartingPending, true, Some(t), row.deletedAt, row.ip);
    case Stop =>
      found := db.UpdateState(i, StoppingPending, true, Some(t), row.deletedAt, row.ip);
    case Delete =>
      found := db.UpdateState(i, DeletingPending, false, Some(t), None, row.ip);
  }

  method RevertInstanceState(db: Database, i: nat, command: Command, payload: RequestPayload)
    requires i < |db.instances|
    modifies db`instances
    ensures db.instances == old(db.instances)[i := Revert(old(db.instances)[i], command, payload)]
  {
    var found;
    if command.Create? {
      found := db.UpdateState(i, Error, false, None, None, None);
      return;
    }
    var spec := GetOr(payload.previousSpec, DEFAULT_SPEC);
    if command.Update? {
      found := db.UpdateSpec(i, spec, Error, payload.previousIp, true, None, payload.previousDeletedAt);
      return;
    }
    if command.Start? {
      found := db.UpdateState(i, GetOr(payload.previousStatus, InstanceStatus.Stopped),
                              GetOr(payload.previousReserve, true), None, None, payload.previousIp);
      return;
    }
    if command.Stop? {
      found := db.UpdateState(i, GetOr(payload.previousStatus, InstanceStatus.Running),
                              GetOr(payload.previousReserve, true), None, None, payload.previousIp);
      return;
    }
    found := db.UpdateSpec(i, spec, Error, payload.previousIp, true, None, None);
  }

  // ----- The five request handlers -----

  method HandleCreate(cfg: Config, db: Database, tenant: nat, name: Option<string>, spec: Spec, host: string,
                      image: Option<string>) returns (reply: Reply)
    modifies db
    ensures Step(db.Snapshot(), reply) == CreateInstance(cfg, old(db.Snapshot()), tenant, name, spec, host, image)
  {
    if !spec.Positive() {
      return Rejected(Validation);
    }
    var check := Check(None, spec, NoProfile, RunningProfile);
    var quota := AssertQuota(db.instances, db.tenants, db.quotas, tenant, check);
    if quota.Some? {
      return Rejected(quota.value);
    }
    var capacity := AssertCapacity(db.instances, db.capacity, host, check);
    if capacity.Some? {
      return Rejected(capacity.value);
    }
    var taskId := |db.tasks|;
    var request := db.NewRequestId();
    var i := db.InsertInstance(Instance(tenant, name, spec, CreatingPending, None, host, true, Some(taskId), None));
    var imageId := if image.Some? && image.value != "" then image else None;
    var t := db.CreateTask(i, Create, request,
                           NO_PAYLOAD.(name := name, spec := Some(spec), host := Some(host), image := imageId));
    db.EnqueueCommand(cfg, Lifecycle(Create), CreatePayload(i, name, spec, host, imageId), t, request);
    return Accepted(t, i, Create, TaskStatus.Queued);
  }

  method HandleDelete(cfg: Config, db: Database, i: nat) returns (reply: Reply)
    modifies db
    ensures Step(db.Snapshot(), reply) == DeleteInstance(cfg, old(db.Snapshot()), i)
  {
    if i >= |db.instances| {
      return Rejected(NotFound);
    }
    var row := db.instances[i];
    if row.status.Deleted? {
      return Rejected(Validation);
    }
    if HasActiveTask(db.tasks, i) {
      return Rejected(Conflict);
    }
    var taskId := |db.tasks|;
    var request := db.NewRequestId();
    var found := db.UpdateState(i, DeletingPending, false, Some(taskId), None, row.ip);
    var t := db.CreateTask(i, Delete, request,
                           NO_PAYLOAD.(host := Some(row.host), previousSpec := Some(row.spec), previousIp := row.ip,
                                       previousStatus := Some(row.status)));
    db.EnqueueCommand(cfg, Lifecycle(Delete), TargetPayload(i, row.host), t, request);
    return Accepted(t, i, Delete, TaskStatus.Queued);
  }

  method HandleStop(cfg: Config, db: Database, i: nat) returns (reply: Reply)
    modifies db
    ensures Step(db.Snapshot(), reply) == StopInstance(cfg, old(db.Snapshot()), i)
  {
    if i >= |db.instances| {
      return Rejected(NotFound);
    }
    var row := db.instances[i];
    if row.status.Deleted? {
      return Rejected(Validation);
    }
    if !row.status.Running? && !row.status.Stopped? {
      return Rejected(Validation);
    }
    if HasActiveTask(db.tasks, i) {
      return Rejected(Conflict);
    }
    var taskId := |db.tasks|;
    var request := db.NewRequestId();
    var found := db.UpdateState(i, StoppingPending, true, Some(taskId), row.deletedAt, row.ip);
    var t := db.CreateTask(i, Stop, request,
                           NO_PAYLOAD.(host := Some(row.host), previousStatus := Some(row.status), previousIp := row.ip,
                                       previousReserve := Some(row.reserve)));
    db.EnqueueCommand(cfg, Lifecycle(Stop), TargetPayload(i, row.host), t, request);
    return Accepted(t, i, Stop, TaskStatus.Queued);
  }

  method HandleStart(cfg: Config, db: Database, i: nat, host: string) returns (reply: Reply)
    modifies db
    ensures Step(db.Snapshot(), reply) == StartInstance(cfg, old(db.Snapshot()), i, host)
  {
    if i >= |db.instances| {
      return Rejected(NotFound);
    }
    var row := db.instances[i];
    if row.status.Deleted? {
      return Rejected(Validation);
    }
    if !row.status.Running? && !row.status.Stopped? {
      return Rejected(Validation);
    }
    if HasActiveTask(db.tasks, i) {
      return Rejected(Conflict);
    }
    if row.status.Stopped? {
      var check := Check(Some(row.spec), row.spec, StoppedProfile, RunningProfile);
      var quota := AssertQuota(db.instances, db.tenants, db.quotas, row.tenant, check);
      if quota.Some? {
        return Rejected(quota.value);
      }
      var capacity := AssertCapacity(db.instances, db.capacity, host, check);
      if capacity.Some? {
        return Rejected(capacity.value);
      }
    }
    var taskId := |db.tasks|;
    var request := db.NewRequestId();
    var found := db.UpdateState(i, StartingPending, true, Some(taskId), row.deletedAt, row.ip);
    var t := db.CreateTask(i, Start, request,
                           NO_PAYLOAD.(host := Some(host), previousStatus := Some(row.status), previousIp := row.ip,
                                       previousReserve := Some(row.reserve)));
    db.EnqueueCommand(cfg, Lifecycle(Start), TargetPayload(i, host), t, request);
    return Accepted(t, i, Start, TaskStatus.Queued);
  }

  method HandleUpdate(cfg: Config, db: Database, i: nat, spec: Spec, host: string) returns (reply: Reply)
    modifies db
    ensures Step(db.Snapshot(), reply) == UpdateInstance(cfg, old(db.Snapshot()), i, spec, host)
  {
    if i >= |db.instances| {
      return Rejected(NotFound);
    }
    var row := db.instances[i];
    if row.status.Deleted? {
      return Rejected(Validation);
    }
    if HasActiveTask(db.tasks, i) {
      return Rejected(Conflict);
    }
    if !spec.Positive() {
      return Rejected(Validation);
    }
    var boot := !row.status.Stopped?;
    var check := Check(Some(row.spec), spec, ProfileOf(row.status, row.reserve),
                       if boot then RunningProfile else StoppedProfile);
    var quota := AssertQuota(db.instances, db.tenants, db.quotas, row.tenant, check);
    if quota.Some? {
      return Rejected(quota.value);
    }
    var capacity := AssertCapacity(db.instances, db.capacity, host, check);
    if capacity.Some? {
      return Rejected(capacity.value);
    }
    var taskId := |db.tasks|;
    var request := db.NewRequestId();
    var found := db.UpdateSpec(i, spec, UpdatingPending, row.ip, true, Some(taskId), row.deletedAt);
    var t := db.CreateTask(i, Update, request,
                           NO_PAYLOAD.(spec := Some(spec), host := Some(host), boot := Some(boot),
                                       previousSpec := Some(row.spec), previousIp := row.ip,
                                       previousDeletedAt := row.deletedAt, previousStatus := Some(row.status),
                                       previousReserve := Some(row.reserve)));
    db.EnqueueCommand(cfg, Lifecycle(Update), UpdatePayload(i, spec, host, boot), t, request);
    return Accepted(t, i, Update, TaskStatus.Queued);
  }

  // ----- Retry and cancel -----

  /** The payload is built last: when a resource key is missing, the row and task written before it are
      rolled back. */
  method HandleRetry(cfg: Config, db: Database, s: nat) returns (reply: Reply)
    modifies db
    ensures Step(db.Snapshot(), reply) == RetryTask(cfg, old(db.Snapshot()), s)
  {
    var saved := db.Snapshot();
    if s >= |db.tasks| {
      return Rejected(NotFound);
    }
    var source := db.tasks[s];
    if !source.status.Failed? && !source.status.Canceled? {
      return Rejected(Validation);
    }
    var i := source.instance;
    if i >= |db.instances| {
      return Rejected(NotFound);
    }
    var row := db.instances[i];
    if row.status.Deleted? {
      return Rejected(Validation);
    }
    if HasActiveTask(db.tasks, i) {
      return Rejected(Conflict);
    }
    var host := RetryHost(row, source.payload);
    if source.command.Create? || source.command.Update? || source.command.Start? {
      var check := Check(Some(row.spec), GetOr(source.payload.spec, row.spec), ProfileOf(row.status, row.reserve),
                         RequestedProfile(source.command, source.payload));
      var quota := AssertQuota(db.instances, db.tenants, db.quotas, row.tenant, check);
      if quota.Some? {
        return Rejected(quota.value);
      }
      var capacity := AssertCapacity(db.instances, db.capacity, host, check);
      if capacity.Some? {
        return Rejected(capacity.value);
      }
    }
    var request := db.NewRequestId();
    ApplyPendingInstanceState(db, i, source.command, source.payload, |db.tasks|);
    var t := db.CloneForRetry(s, request);
    var message := CommandMessage(source.command, i, source.payload, host);
    if message.None? {
      db.Rollback(saved);
      return Rejected(MalformedPayload);
    }
    db.EnqueueCommand(cfg, Lifecycle(source.command), message.value, t, request);
    return Accepted(t, i, source.command, TaskStatus.Queued);
  }

  method HandleCancel(cfg: Config, db: Database, t: nat) returns (reply: Reply)
    modifies db
    ensures Step(db.Snapshot(), reply) == CancelTask(cfg, old(db.Snapshot()), t)
  {
    if t >= |db.tasks| {
      return Rejected(NotFound);
    }
    var task := db.tasks[t];
    if task.instance >= |db.instances| {
      return Rejected(NotFound);
    }
    if task.status.Queued? {
      RevertInstanceState(db, task.instance, task.command, task.payload);
      var found := db.MarkCanceled(t, task.attempts, Some("CANCELED"));
      return Accepted(t, task.instance, task.command, TaskStatus.Canceled);
    }
    if task.status.Running? {
      var found := db.MarkCancelPending(t);
      var request := db.NewRequestId();
      db.EnqueueCommand(cfg, CancelTopic, CancelPayload(task.instance, t, task.command), t, request);
      return Accepted(t, task.instance, task.command, CancelPending);
    }
    if task.status.CancelPending? || task.status.Canceled? {
      return Accepted(t, task.instance, task.command, task.status);
    }
    return Rejected(Conflict);
  }

  // ----- Result events -----

  method HandleSuccess(db: Database, task: Task, e: Event)
    requires task.instance < |db.instances|
    modifies db`instances
    ensures db.instances ==
            old(db.instances)[task.instance := Succeed(old(db.instances)[task.instance], task, e.task, e, db.now)]
  {
    var i := task.instance;
    var ip := OrElse(e.resultIp, task.payload.previousIp);
    var found;
    match task.command
    case Create => found := db.UpdateState(i, InstanceStatus.Running, true, Some(e.task), None, e.resultIp);
    case Update => found := db.UpdateState(i, GetOr(e.resultStatus, InstanceStatus.Running), true, Some(e.task), None,
        ip);
    case Start => found := db.UpdateState(i, InstanceStatus.Running, true, Some(e.task), None, ip);
    case Stop => found := db.UpdateState(i, InstanceStatus.Stopped, true, Some(e.task), None, ip);
    case Delete => found := db.UpdateState(i, Deleted, false, Some(e.task), Some(db.now), None);
  }

  method Process(db: Database, e: Event) returns (outcome: EventOutcome)
    modifies db
    ensures db.Snapshot() == ProcessEvent(old(db.Snapshot()), e)
    ensures outcome == EventOutcomeOf(old(db.Snapshot()), e)
  {
    if e.status.Unsupported? {
      return DeadLetter;
    }
    if e.task >= |db.tasks| {
      return if db.now - e.timestamp < VISIBILITY_SECONDS then Requeue else Ignored;
    }
    var task := db.tasks[e.task];
    if task.status.Succeeded? || task.status.Failed? || task.status.Canceled? {
      return Ignored;
    }
    var i := task.instance;
    if i >= |db.instances| {
      return DeadLetter;
    }
    ghost var rows := db.instances;
    var found;
    if e.status.Running? {
      assert rows[i := rows[i]] == rows;
      assert db.tasks[e.task := task] == db.tasks;
      if !task.status.CancelPending? {
        found := db.MarkRunning(e.task, Max(e.attempts, 1));
      }
      return Applied;
    }
    if e.status.Succeeded? {
      HandleSuccess(db, task, e);
      found := db.MarkTerminal(e.task, TaskStatus.Succeeded, Max(e.attempts, 1), None);
      return Applied;
    }
    RevertInstanceState(db, i, task.command, task.payload);
    if e.status.Canceled? {
      found := db.MarkCanceled(e.task, Max(e.attempts, task.attempts), OrElse(e.errorCode, Some("CANCELED")));
      return Applied;
    }
    found := db.MarkTerminal(e.task, TaskStatus.Failed, Max(e.attempts, 1), e.errorCode);
    return Applied;
  }

  // ----- The stale-task sweep -----

  method FailQueuedTask(db: Database, t: nat) returns (failed: bool)
    requires db.ForeignKeys()
    modifies db
    ensures db.Snapshot() == FailStale(old(db.Snapshot()), t)
    ensures failed == (t < |old(db.tasks)| && old(db.tasks)[t].status.Queued?)
    ensures db.ForeignKeys() && |db.tasks| == |old(db.tasks)|
    ensures forall s :: 0 <= s < |db.tasks| && s != t ==> db.tasks[s] == old(db.tasks)[s]
  {
    failed := t < |db.tasks| && db.tasks[t].status.Queued?;
    if failed {
      var task := db.tasks[t];
      RevertInstanceState(db, task.instance, task.command, task.payload);
      var found := db.MarkTerminal(t, TaskStatus.Failed, Max(task.attempts, 1), Some("TIMEOUT"));
    }
  }

  lemma PickedAreQueued(cfg: Config, db: Db)
    ensures forall j :: 0 <= j < |SweepPick(cfg, db)| ==>
              SweepPick(cfg, db)[j] < |db.tasks| && db.tasks[SweepPick(cfg, db)[j]].status.Queued?
    ensures forall j, k :: 0 <= j < k < |SweepPick(cfg, db)| ==> SweepPick(cfg, db)[j] != SweepPick(cfg, db)[k]
  {
    Sweeping.PickIsStale(cfg, db);
    assert forall j :: 0 <= j < |SweepPick(cfg, db)| ==> SweepPick(cfg, db)[j] in SweepPick(cfg, db);
  }

  /** One sweep fails every selected task, and counts them all. */
  method SweepStaleTasks(cfg: Config, db: Database) returns (recovered: nat)
    requires db.ForeignKeys()
    modifies db
    ensures db.Snapshot() == SweepOnce(cfg, old(db.Snapshot()))
    ensures recovered == |SweepPick(cfg, old(db.Snapshot()))|
  {
    var ids := SweepPick(cfg, db.Snapshot());
    ghost var before := db.Snapshot();
    PickedAreQueued(cfg, before);
    recovered := 0;
    var k := 0;
    while k < |ids|
      invariant 0 <= k <= |ids| && recovered == k
      invariant db.Snapshot() == FailAll(before, ids[..k])
      invariant db.ForeignKeys() && |db.tasks| == |before.tasks|
      invariant forall j :: k <= j < |ids| ==> db.tasks[ids[j]] == before.tasks[ids[j]]
    {
      var failed := FailQueuedTask(db, ids[k]);
      if failed {
        recovered := recovered + 1;
      }
      assert ids[..k + 1][..k] == ids[..k];
      k := k + 1;
    }
    assert ids[..k] == ids;
  }

  // ----- Quota changes -----

  method UpdateTenantQuota(db: Database, tenant: nat, q: Quota) returns (e: Option<DomainError>)
    modifies db
    ensures (db.Snapshot(), e) == SetQuota(old(db.Snapshot()), tenant, q)
  {
    if tenant !in db.tenants {
      return Some(NotFound);
    }
    var usage := TenantUsage(db.instances, tenant);
    if q.instances < usage.instances {
      return Some(QuotaConflict);
    }
    if q.cpu < usage.cpu {
      return Some(QuotaConflict);
    }
    if q.memory < usage.memory {
      return Some(QuotaConflict);
    }
    if q.disk < usage.disk {
      return Some(QuotaConflict);
    }
    db.UpsertQuota(tenant, q);
    return None;
  }
}
