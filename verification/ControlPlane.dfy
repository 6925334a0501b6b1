/** What every transaction of the control plane commits, as functions on the tables. */
module ControlPlane {
  import opened Model
  import opened Accounting

  // ----- task_instance_state: the "apply pending" and "revert on failure" halves -----

  function ApplyPending(row: Instance, command: Command, payload: RequestPayload, t: nat): Instance {
    match command
    case Create => row.(spec := GetOr(payload.spec, row.spec), status := CreatingPending, ip := None,
                        reserve := true, lastTask := Some(t), deletedAt := None)
    case Update => row.(spec := GetOr(payload.spec, row.spec), status := UpdatingPending,
                        reserve := true, lastTask := Some(t))
    case Start => row.(status := StartingPending, reserve := true, lastTask := Some(t))
    case Stop => row.(status := StoppingPending, reserve := true, lastTask := Some(t))
    case Delete => row.(status := DeletingPending, reserve := false, lastTask := Some(t), deletedAt := None)
  }

  /** The spec restored when `previous_spec` is missing. */
  const DEFAULT_SPEC := Spec(1, 512, 10)

  function Revert(row: Instance, command: Command, payload: RequestPayload): Instance {
    var spec := GetOr(payload.previousSpec, DEFAULT_SPEC);
    match command
    case Create => row.(status := Error, reserve := false, lastTask := None, deletedAt := None, ip := None)
    case Update => row.(spec := spec, status := Error, ip := payload.previousIp, reserve := true,
                        lastTask := None, deletedAt := payload.previousDeletedAt)
    case Start => row.(status := GetOr(payload.previousStatus, InstanceStatus.Stopped),
                       reserve := GetOr(payload.previousReserve, true),
                       lastTask := None, deletedAt := None, ip := payload.previousIp)
    case Stop => row.(status := GetOr(payload.previousStatus, InstanceStatus.Running),
                      reserve := GetOr(payload.previousReserve, true),
                      lastTask := None, deletedAt := None, ip := payload.previousIp)
    case Delete => row.(spec := spec, status := Error, ip := payload.previousIp, reserve := true,
                        lastTask := None, deletedAt := None)
  }

  // ----- Repository operations shared by the handlers -----

  predicate HasActiveTask(tasks: seq<Task>, i: nat) {
    exists t :: 0 <= t < |tasks| && tasks[t].instance == i && Active(tasks[t].status)
  }

  predicate OutboxHas(rows: seq<OutboxRow>, topic: Topic, task: nat, request: nat) {
    exists r :: 0 <= r < |rows| && rows[r].topic == topic && rows[r].task == task && rows[r].request == request
  }

  function NewOutboxRow(cfg: Config, now: nat, topic: Topic, payload: CommandPayload, task: nat,
      request: nat): OutboxRow {
    OutboxRow(topic, task, request, payload, OutboxStatus.Queued, 0, AtLeastOne(cfg.outboxMaxAttempts),
              now, None, None, None, now)
  }

  /** `INSERT ... ON CONFLICT (task_id, topic, request_id) DO UPDATE`: a conflict only touches `updated_at`. */
  function Enqueue(cfg: Config, rows: seq<OutboxRow>, now: nat, topic: Topic, payload: CommandPayload, task: nat,
      request: nat)
    : seq<OutboxRow>
  {
    if OutboxHas(rows, topic, task, request) then rows
    else rows + [NewOutboxRow(cfg, now, topic, payload, task, request)]
  }

  function NewTask(i: nat, command: Command, request: nat, payload: RequestPayload, now: nat,
      retryOf: Option<nat>): Task {
    Task(i, command, TaskStatus.Queued, request, payload, 0, now, retryOf, None)
  }

  /** An accepted request: the instance row, its new task and the task's outbox row in one commit. */
  function Submit(cfg: Config, db: Db, i: nat, row: Instance, command: Command, payload: RequestPayload,
                  message: CommandPayload, retryOf: Option<nat>): Step
    requires i <= |db.instances|
  {
    var t := |db.tasks|;
    Step(
      db.(instances := Put(db.instances, i, row),
          tasks := db.tasks + [NewTask(i, command, db.nextRequest, payload, db.now, retryOf)],
          outbox := Enqueue(cfg, db.outbox, db.now, Lifecycle(command), message, t, db.nextRequest),
          nextRequest := db.nextRequest + 1),
      Accepted(t, i, command, TaskStatus.Queued))
  }

  function Reject(db: Db, e: DomainError): Step {
    Step(db, Rejected(e))
  }

  // ----- The five request handlers -----

  function CreatePayloadOf(tenant: nat, name: Option<string>, spec: Spec, host: string,
      image: Option<string>): RequestPayload {
    NO_PAYLOAD.(name := name, spec := Some(spec), host := Some(host), image := OrElse(image, None))
  }

  function CreateInstance(cfg: Config, db: Db, tenant: nat, name: Option<string>, spec: Spec, host: string,
                          image: Option<string>): Step
  {
    var check := Check(None, spec, NoProfile, RunningProfile);
    if !spec.Positive() then Reject(db, Validation)
    else
      var quota := AssertQuota(db.instances, db.tenants, db.quotas, tenant, check);
      var capacity := AssertCapacity(db.instances, db.capacity, host, check);
      if quota.Some? then Reject(db, quota.value)
      else if capacity.Some? then Reject(db, capacity.value)
      else
        var i := |db.instances|;
        Submit(cfg, db, i,
               Instance(tenant, name, spec, CreatingPending, None, host, true, Some(|db.tasks|), None),
               Create, CreatePayloadOf(tenant, name, spec, host, image),
               CreatePayload(i, name, spec, host, OrElse(image, None)), None)
  }

  function DeletePayloadOf(row: Instance): RequestPayload {
    NO_PAYLOAD.(host := Some(row.host), previousSpec := Some(row.spec), previousIp := row.ip,
                previousStatus := Some(row.status))
  }

  function DeleteInstance(cfg: Config, db: Db, i: nat): Step {
    if i >= |db.instances| then Reject(db, NotFound)
    else
      var row := db.instances[i];
      if row.status.Deleted? then Reject(db, Validation)
      else if HasActiveTask(db.tasks, i) then Reject(db, Conflict)
      else
        var payload := DeletePayloadOf(row);
        Submit(cfg, db, i, ApplyPending(row, Delete, payload, |db.tasks|), Delete, payload,
               TargetPayload(i, row.host), None)
  }

  function PowerPayloadOf(row: Instance, host: string): RequestPayload {
    NO_PAYLOAD.(host := Some(host), previousStatus := Some(row.status), previousIp := row.ip,
                previousReserve := Some(row.reserve))
  }

  function StopInstance(cfg: Config, db: Db, i: nat): Step {
    if i >= |db.instances| then Reject(db, NotFound)
    else
      var row := db.instances[i];
      if !row.status.Running? && !row.status.Stopped? then Reject(db, Validation)
      else if HasActiveTask(db.tasks, i) then Reject(db, Conflict)
      else
        var payload := PowerPayloadOf(row, row.host);
        Submit(cfg, db, i, ApplyPending(row, Stop, payload, |db.tasks|), Stop, payload,
               TargetPayload(i, row.host), None)
  }

  /** Quota first, then capacity; the first failure is reported. */
  function FirstCheckError(db: Db, tenant: nat, host: string, c: Check): (e: Option<DomainError>)
    ensures e.None? <==>
            && AssertQuota(db.instances, db.tenants, db.quotas, tenant, c).None?
            && AssertCapacity(db.instances, db.capacity, host, c).None?
  {
    var quota := AssertQuota(db.instances, db.tenants, db.quotas, tenant, c);
    if quota.Some? then quota else AssertCapacity(db.instances, db.capacity, host, c)
  }

  function StartInstance(cfg: Config, db: Db, i: nat, host: string): Step {
    if i >= |db.instances| then Reject(db, NotFound)
    else
      var row := db.instances[i];
      if !row.status.Running? && !row.status.Stopped? then Reject(db, Validation)
      else if HasActiveTask(db.tasks, i) then Reject(db, Conflict)
      else
        var check := Check(Some(row.spec), row.spec, StoppedProfile, RunningProfile);
        var e := if row.status.Stopped? then FirstCheckError(db, row.tenant, host, check) else None;
        if e.Some? then Reject(db, e.value)
        else
          var payload := PowerPayloadOf(row, host);
          Submit(cfg, db, i, ApplyPending(row, Start, payload, |db.tasks|), Start, payload,
                 TargetPayload(i, host), None)
  }

  function UpdatePayloadOf(row: Instance, spec: Spec, host: string): RequestPayload {
    NO_PAYLOAD.(spec := Some(spec), host := Some(host), boot := Some(!row.status.Stopped?),
                previousSpec := Some(row.spec), previousIp := row.ip, previousDeletedAt := row.deletedAt,
                previousStatus := Some(row.status), previousReserve := Some(row.reserve))
  }

  function UpdateCheck(row: Instance, spec: Spec): Check {
    Check(Some(row.spec), spec, ProfileOf(row.status, row.reserve),
          if row.status.Stopped? then StoppedProfile else RunningProfile)
  }

  function UpdateInstance(cfg: Config, db: Db, i: nat, spec: Spec, host: string): Step {
    if i >= |db.instances| then Reject(db, NotFound)
    else
      var row := db.instances[i];
      if row.status.Deleted? then Reject(db, Validation)
      else if HasActiveTask(db.tasks, i) then Reject(db, Conflict)
      else if !spec.Positive() then Reject(db, Validation)
      else
        var e := FirstCheckError(db, row.tenant, host, UpdateCheck(row, spec));
        if e.Some? then Reject(db, e.value)
        else
          var payload := UpdatePayloadOf(row, spec, host);
          Submit(cfg, db, i, ApplyPending(row, Update, payload, |db.tasks|), Update, payload,
                 UpdatePayload(i, spec, host, !row.status.Stopped?), None)
  }

  // ----- Retry and cancel -----

  function RequestedProfile(command: Command, payload: RequestPayload): Profile {
    match command
    case Stop => StoppedProfile
    case Update => if GetOr(payload.boot, true) then RunningProfile else StoppedProfile
    case Create => RunningProfile
    case Start => RunningProfile
    case Delete => NoProfile
  }

  predicate Charged(command: Command) {
    command.Create? || command.Update? || command.Start?
  }

  function RetryCheck(row: Instance, task: Task): Check {
    Check(Some(row.spec), GetOr(task.payload.spec, row.spec), ProfileOf(row.status, row.reserve),
          RequestedProfile(task.command, task.payload))
  }

  /** `request_payload.get("host_node") or instance.host_node` */
  function RetryHost(row: Instance, payload: RequestPayload): string {
    GetOr(OrElse(payload.host, None), row.host)
  }

  /** The payload published for a command; the resource keys are required for create and update. */
  function CommandMessage(command: Command, i: nat, payload: RequestPayload, host: string): Option<CommandPayload> {
    match command
    case Create =>
      if payload.spec.None? then None
      else Some(CreatePayload(i, payload.name, payload.spec.value, host, OrElse(payload.image, None)))
    case Update =>
      if payload.spec.None? then None
      else Some(UpdatePayload(i, payload.spec.value, host, GetOr(payload.boot, true)))
    case _ => Some(TargetPayload(i, host))
  }

  function RetryTask(cfg: Config, db: Db, s: nat): Step {
    if s >= |db.tasks| then Reject(db, NotFound)
    else
      var source := db.tasks[s];
      var i := source.instance;
      if !source.status.Failed? && !source.status.Canceled? then Reject(db, Validation)
      else if i >= |db.instances| then Reject(db, NotFound)
      else
        var row := db.instances[i];
        if row.status.Deleted? then Reject(db, Validation)
        else if HasActiveTask(db.tasks, i) then Reject(db, Conflict)
        else
          var host := RetryHost(row, source.payload);
          var e := if Charged(source.command)
                   then FirstCheckError(db, row.tenant, host, RetryCheck(row, source)) else None;
          if e.Some? then Reject(db, e.value)
          else
            var message := CommandMessage(source.command, i, source.payload, host);
            if message.None? then Reject(db, MalformedPayload)
            else
              Submit(cfg, db, i, ApplyPending(row, source.command, source.payload, |db.tasks|),
                     source.command, source.payload, message.value, Some(s))
  }

  /** One terminal write: task `t` and its instance row, nothing else. */
  function Finish(db: Db, t: nat, task: Task, row: Instance): Db
    requires t < |db.tasks| && db.tasks[t].instance < |db.instances|
  {
    db.(tasks := db.tasks[t := task], instances := db.instances[db.tasks[t].instance := row])
  }

  function CancelTask(cfg: Config, db: Db, t: nat): Step {
    if t >= |db.tasks| then Reject(db, NotFound)
    else
      var task := db.tasks[t];
      var i := task.instance;
      if i >= |db.instances| then Reject(db, NotFound)
      else match task.status
        case Queued =>
          Step(Finish(db, t, task.(status := TaskStatus.Canceled, errorCode := Some("CANCELED")),
                      Revert(db.instances[i], task.command, task.payload)),
               Accepted(t, i, task.command, TaskStatus.Canceled))
        case Running =>
          Step(db.(tasks := db.tasks[t := task.(status := CancelPending)],
                   outbox := Enqueue(cfg, db.outbox, db.now, CancelTopic, CancelPayload(i, t, task.command), t,
                       db.nextRequest),
                   nextRequest := db.nextRequest + 1),
               Accepted(t, i, task.command, CancelPending))
        case CancelPending => Step(db, Accepted(t, i, task.command, task.status))
        case Canceled => Step(db, Accepted(t, i, task.command, task.status))
        case _ => Reject(db, Conflict)
  }

  // ----- Result events -----

  /** The instance row after a successful command. */
  function Succeed(row: Instance, task: Task, t: nat, e: Event, now: nat): Instance {
    var ip := OrElse(e.resultIp, task.payload.previousIp);
    match task.command
    case Create => row.(status := InstanceStatus.Running, reserve := true, lastTask := Some(t), deletedAt := None,
        ip := e.resultIp)
    case Update => row.(status := GetOr(e.resultStatus, InstanceStatus.Running), reserve := true, lastTask := Some(t),
                        deletedAt := None, ip := ip)
    case Start => row.(status := InstanceStatus.Running, reserve := true, lastTask := Some(t), deletedAt := None,
        ip := ip)
    case Stop => row.(status := InstanceStatus.Stopped, reserve := true, lastTask := Some(t), deletedAt := None,
        ip := ip)
    case Delete => row.(status := Deleted, reserve := false, lastTask := Some(t), deletedAt := Some(now), ip := None)
  }

  /** What a live event makes of its task. */
  function EventTask(task: Task, e: Event): Task {
    match e.status
    case Running => if task.status.CancelPending? then task
                    else task.(status := TaskStatus.Running, attempts := Max(e.attempts, 1))
    case Succeeded => task.(status := TaskStatus.Succeeded, attempts := Max(e.attempts, 1), errorCode := None)
    case Canceled => task.(status := TaskStatus.Canceled, attempts := Max(e.attempts, task.attempts),
                           errorCode := OrElse(e.errorCode, Some("CANCELED")))
    case _ => task.(status := TaskStatus.Failed, attempts := Max(e.attempts, 1), errorCode := e.errorCode)
  }

  /** What a live event makes of its task's instance row. */
  function EventRow(row: Instance, task: Task, t: nat, e: Event, now: nat): Instance {
    match e.status
    case Running => row
    case Succeeded => Succeed(row, task, t, e, now)
    case _ => Revert(row, task.command, task.payload)
  }

  /** An event reaches the tables only while its task exists and is not terminal. */
  predicate Live(db: Db, e: Event) {
    && !e.status.Unsupported?
    && e.task < |db.tasks|
    && Active(db.tasks[e.task].status)
    && db.tasks[e.task].instance < |db.instances|
  }

  function ProcessEvent(db: Db, e: Event): Db {
    if Live(db, e) then
      var task := db.tasks[e.task];
      Finish(db, e.task, EventTask(task, e), EventRow(db.instances[task.instance], task, e.task, e, db.now))
    else db
  }

  const VISIBILITY_SECONDS := 60

  function EventOutcomeOf(db: Db, e: Event): EventOutcome {
    if e.status.Unsupported? then DeadLetter
    else if e.task >= |db.tasks| then
      if db.now - e.timestamp < VISIBILITY_SECONDS then Requeue else Ignored
    else if !Active(db.tasks[e.task].status) then Ignored
    else if db.tasks[e.task].instance >= |db.instances| then DeadLetter
    else Applied
  }

  // ----- The stale-task sweep -----

  predicate HasCommandRow(db: Db, t: nat)
    requires t < |db.tasks|
  {
    exists r :: 0 <= r < |db.outbox| && db.outbox[r].task == t && db.outbox[r].topic == Lifecycle(db.tasks[t].command)
  }

  predicate Expired(row: OutboxRow, cutoff: int) {
    (row.status.Sent? && row.sentAt.Some? && row.sentAt.value < cutoff) || row.status.Failed?
  }

  predicate HasExpiredCommandRow(db: Db, t: nat, cutoff: int)
    requires t < |db.tasks|
  {
    exists r :: 0 <= r < |db.outbox| && db.outbox[r].task == t && db.outbox[r].topic == Lifecycle(db.tasks[t].command)
                && Expired(db.outbox[r], cutoff)
  }

  predicate Stale(db: Db, t: nat, cutoff: int)
    requires t < |db.tasks|
  {
    && db.tasks[t].status.Queued?
    && db.tasks[t].createdAt < cutoff
    && (!HasCommandRow(db, t) || HasExpiredCommandRow(db, t, cutoff))
  }

  /** The stale tasks among the first `n` rows, in table (creation) order. */
  function StaleAmong(db: Db, cutoff: int, n: nat): seq<nat>
    requires n <= |db.tasks|
  {
    if n == 0 then []
    else StaleAmong(db, cutoff, n - 1) + if Stale(db, n - 1, cutoff) then [n - 1] else []
  }

  const SWEEP_LIMIT := 100

  function Cutoff(cfg: Config, now: nat): int {
    now - AtLeastOne(cfg.queuedTimeout)
  }

  /** `ORDER BY created_at LIMIT 100` */
  function SweepPick(cfg: Config, db: Db): seq<nat> {
    var all := StaleAmong(db, Cutoff(cfg, db.now), |db.tasks|);
    if |all| <= SWEEP_LIMIT then all else all[..SWEEP_LIMIT]
  }

  function FailStale(db: Db, t: nat): Db {
    if t < |db.tasks| && db.tasks[t].status.Queued? && db.tasks[t].instance < |db.instances| then
      var task := db.tasks[t];
      Finish(db, t, task.(status := TaskStatus.Failed, attempts := Max(task.attempts, 1), errorCode := Some("TIMEOUT")),
             Revert(db.instances[task.instance], task.command, task.payload))
    else db
  }

  function FailAll(db: Db, ids: seq<nat>): Db {
    if ids == [] then db else FailStale(FailAll(db, ids[..|ids| - 1]), ids[|ids| - 1])
  }

  function SweepOnce(cfg: Config, db: Db): Db {
    FailAll(db, SweepPick(cfg, db))
  }

  // ----- Quota changes -----

  function SetQuota(db: Db, tenant: nat, q: Quota): (Db, Option<DomainError>) {
    if tenant !in db.tenants then (db, Some(NotFound))
    else if !FitsQuota(TenantUsage(db.instances, tenant), q) then (db, Some(QuotaConflict))
    else (db.(quotas := db.quotas[tenant := q]), None)
  }
}
