/** The rows of the control-plane tables, the messages between the services, and the
    small pieces of Python semantics (`or`, `dict.get`) that the handlers rely on. */
module Model {

  datatype Option<+T> = None | Some(value: T)

  datatype Spec = Spec(cpu: int, memory: int, disk: int) {
    predicate Positive() {
      cpu > 0 && memory > 0 && disk > 0
    }
  }

  datatype InstanceStatus =
    | CreatingPending | UpdatingPending | StartingPending | StoppingPending | DeletingPending
    | Running | Stopped | Error | Deleted

  datatype Command = Create | Update | Delete | Start | Stop

  datatype TaskStatus = Queued | Running | CancelPending | Succeeded | Failed | Canceled

  datatype OutboxStatus = Queued | Publishing | Sent | Failed

  /** A row of `instances`; its id is its position in the table. */
  datatype Instance = Instance(
    tenant: nat,
    name: Option<string>,
    spec: Spec,
    status: InstanceStatus,
    ip: Option<string>,
    host: string,
    reserve: bool,
    lastTask: Option<nat>,
    deletedAt: Option<nat>)

  /** The JSON `request_payload` of a task; `None` is an absent or null key.
      The three resource keys are always written together. */
  datatype RequestPayload = RequestPayload(
    name: Option<string>,
    spec: Option<Spec>,
    host: Option<string>,
    image: Option<string>,
    boot: Option<bool>,
    previousSpec: Option<Spec>,
    previousIp: Option<string>,
    previousStatus: Option<InstanceStatus>,
    previousReserve: Option<bool>,
    previousDeletedAt: Option<nat>)

  const NO_PAYLOAD := RequestPayload(None, None, None, None, None, None, None, None, None, None)

  /** A row of `instance_tasks`. */
  datatype Task = Task(
    instance: nat,
    command: Command,
    status: TaskStatus,
    request: nat,
    payload: RequestPayload,
    attempts: int,
    createdAt: nat,
    retryOf: Option<nat>,
    errorCode: Option<string>)

  datatype Topic = Lifecycle(command: Command) | CancelTopic

  /** The payload of a published command. */
  datatype CommandPayload =
    | CreatePayload(instance: nat, name: Option<string>, spec: Spec, host: string, image: Option<string>)
    | UpdatePayload(instance: nat, spec: Spec, host: string, boot: bool)
    | TargetPayload(instance: nat, host: string)
    | CancelPayload(instance: nat, targetTask: nat, targetCommand: Command)

  /** A row of `command_outbox`. */
  datatype OutboxRow = OutboxRow(
    topic: Topic,
    task: nat,
    request: nat,
    payload: CommandPayload,
    status: OutboxStatus,
    attempts: nat,
    maxAttempts: nat,
    nextAttemptAt: nat,
    lockedBy: Option<nat>,
    lockExpiresAt: Option<nat>,
    sentAt: Option<nat>,
    createdAt: nat)

  datatype Quota = Quota(instances: int, cpu: int, memory: int, disk: int)

  /** Everything a transaction reads or writes. `tenants` maps a tenant to `is_active`. */
  datatype Db = Db(
    instances: seq<Instance>,
    tasks: seq<Task>,
    outbox: seq<OutboxRow>,
    tenants: map<nat, bool>,
    quotas: map<nat, Quota>,
    capacity: map<string, Spec>,
    nextRequest: nat,
    now: nat)

  /** `claimOrder` stands for what SQL leaves open about a claim: ties in `created_at` and the order in which
      the claimed rows come back. */
  datatype Config = Config(
    outboxMaxAttempts: int,
    queuedTimeout: int,
    batchSize: int,
    lockTimeout: int,
    retryMax: int,
    claimOrder: (seq<OutboxRow>, nat) -> seq<nat>)

  datatype DomainError =
    | NotFound | Validation | Conflict | MalformedPayload
    | CapacityExceeded | QuotaExceeded | TenantInactive | QuotaConflict

  datatype Reply =
    | Accepted(task: nat, instance: nat, command: Command, status: TaskStatus)
    | Rejected(error: DomainError)

  /** What one request transaction leaves behind: the committed tables and the reply. */
  datatype Step = Step(db: Db, reply: Reply)

  datatype EventStatus = Running | Succeeded | Failed | Canceled | Unsupported

  /** A result event; `None` in `resultStatus` and `resultIp` is a missing key of `result`. */
  datatype Event = Event(
    task: nat,
    request: nat,
    status: EventStatus,
    attempts: int,
    resultStatus: Option<InstanceStatus>,
    resultIp: Option<string>,
    errorCode: Option<string>,
    timestamp: int)

  datatype EventOutcome = Applied | Ignored | Requeue | DeadLetter

  function Max(a: int, b: int): int {
    if a < b then b else a
  }

  function Min(a: int, b: int): int {
    if a < b then a else b
  }

  function AtLeastOne(n: int): (r: nat)
    ensures r >= 1 && (n >= 1 ==> r == n)
  {
    if n < 1 then 1 else n
  }

  function GetOr<T>(o: Option<T>, default: T): T {
    if o.Some? then o.value else default
  }

  /** Python's `a or b` on optional strings: null and the empty string are both falsy. */
  function OrElse(a: Option<string>, b: Option<string>): Option<string> {
    if a.Some? && a.value != "" then a else b
  }

  predicate Active(s: TaskStatus) {
    s.Queued? || s.Running? || s.CancelPending?
  }

  predicate Pending(s: InstanceStatus) {
    s.CreatingPending? || s.UpdatingPending? || s.StartingPending? || s.StoppingPending? || s.DeletingPending?
  }

  function PendingStatus(c: Command): InstanceStatus {
    match c
    case Create => CreatingPending
    case Update => UpdatingPending
    case Start => StartingPending
    case Stop => StoppingPending
    case Delete => DeletingPending
  }
}
