/** Control plane, broker and agent together: what the tables show is what the agent's state files say. */
module EndToEnd {
  import opened Model
  import opened Accounting
  import opened ControlPlane
  import opened Outbox
  import opened Protocol
  import opened Requests
  import opened Invariant
  import opened Sweeping
  import opened Lifecycle
  import opened Delivery
  import opened Agent

  /** Both queues are sets of messages that stay there for good: a message may be taken never, once or many
      times, in any order. */
  datatype Deployment = Deployment(node: Node, agent: World, commands: set<Message>, events: set<Event>)

  datatype Move =
    | Plane(action: Action)
    | Announce(message: Message, stamp: int)
    | Deliver(message: Message, schedule: Schedule, stamp: int)
    | Report(event: Event)

  // ----- What travels -----

  function CommandMessageOf(row: OutboxRow): Message {
    Message(Some(row.request), row.task, row.topic, row.payload, row.task)
  }

  function Published(p: Node, a: Action): set<Message> {
    if DispatchReady(p) && PublishedBy(p, a, p.batch[0].id) then {CommandMessageOf(p.db.outbox[p.batch[0].id])} else {}
  }

  /** The `status` key of a result, which the result processor reads for updates only. */
  function ReportedStatus(topic: Topic, r: Response): Option<InstanceStatus> {
    if topic == Lifecycle(Command.Update) && r.status.Some? && r.status.value.Lasting?
    then Some(r.status.value.status)
    else None
  }

  function FinalStatus(topic: Topic, r: Response): EventStatus {
    if !r.success then EventStatus.Failed
    else if topic.CancelTopic? then EventStatus.Canceled
    else EventStatus.Succeeded
  }

  function FinalEvent(m: Message, r: Response, attempts: nat, stamp: int): Event
    requires m.request.Some?
  {
    Event(m.task, m.request.value, FinalStatus(m.topic, r), attempts, ReportedStatus(m.topic, r), r.ip,
          if r.errorCode == "" then None else Some(r.errorCode), stamp)
  }

  /** Published before the command is handled, for every command but cancel. */
  function RunningEvent(m: Message, stamp: int): Event
    requires m.request.Some?
  {
    Event(m.task, m.request.value, EventStatus.Running, 1, None, None, None, stamp)
  }

  function Advance(cfg: Config, acfg: AgentConfig, d: Deployment, mv: Move): Deployment {
    match mv
    case Plane(a) => Deployment(Next(cfg, d.node, a), d.agent, d.commands + Published(d.node, a), d.events)
    case Announce(m, stamp) =>
      if m in d.commands && m.request.Some? && m.topic.Lifecycle?
      then d.(events := d.events + {RunningEvent(m, stamp)})
      else d
    case Deliver(m, s, stamp) =>
      if m in d.commands && m.request.Some? then
        var h := Agent.Handle(acfg, d.agent, m, s);
        Deployment(d.node, h.world, d.commands, d.events + {FinalEvent(m, h.response, h.attempts, stamp)})
      else d
    case Report(e) => if e in d.events then d.(node := Next(cfg, d.node, Result(e))) else d
  }

  function AdvanceAll(cfg: Config, acfg: AgentConfig, d: Deployment, mvs: seq<Move>): Deployment {
    if mvs == [] then d else Advance(cfg, acfg, AdvanceAll(cfg, acfg, d, mvs[..|mvs| - 1]), mvs[|mvs| - 1])
  }

  /** The agent's own files can be read and written; every other external call may fail. */
  predicate StoreOk(s: Schedule) {
    !s.replyLost && forall k :: 0 <= k < |s.attempts| ==> !s.attempts[k].load && !s.attempts[k].save
  }

  /** No cancel, no timeout, events from the queue only, and a working agent store. */
  predicate Allowed(mv: Move) {
    match mv
    case Plane(a) => !a.Cancel? && !a.Sweep? && !a.Result?
    case Announce(_, _) => true
    case Deliver(_, s, _) => StoreOk(s)
    case Report(_) => true
  }

  predicate Begins(d: Deployment) {
    Initial(d.node) && d.agent == World(map[], map[]) && d.commands == {} && d.events == {}
  }

  // ----- What the agent does to a state file -----

  predicate Legal(acfg: AgentConfig, i: nat, rec: Option<Record>) {
    rec.Some? ==> (rec.value.status.Running? || rec.value.status.Stopped?) && rec.value.ip == AddressOf(acfg, i)
  }

  /** A message that decodes for its command. */
  predicate Decodes(m: Message, command: Command) {
    && m.topic == Lifecycle(command)
    && match command
       case Create => m.payload.CreatePayload?
       case Update => m.payload.UpdatePayload?
       case _ => m.payload.TargetPayload?
  }

  predicate IsStatus(rec: Option<Record>, status: InstanceStatus) {
    rec.Some? && rec.value.status == status
  }

  /** The state file after a command reported as successful. */
  predicate Achieved(command: Command, rec: Option<Record>, r: Response) {
    match command
    case Create => IsStatus(rec, InstanceStatus.Running)
    case Update => rec.Some? && r.status == Some(Lasting(rec.value.status))
    case Start => IsStatus(rec, InstanceStatus.Running)
    case Stop => IsStatus(rec, InstanceStatus.Stopped)
    case Delete => rec.None?
  }

  predicate LegalReport(acfg: AgentConfig, i: nat, command: Command, r: Response) {
    var status := ReportedStatus(Lifecycle(command), r);
    && (status.Some? ==> status.value.Running? || status.value.Stopped?)
    && (r.success && !command.Delete? ==> r.ip == Some(AddressOf(acfg, i)))
  }

  /** With a working store, starting a running machine and stopping a stopped one cannot fail. */
  predicate CanFail(command: Command, rec: Option<Record>) {
    match command
    case Start => !IsStatus(rec, InstanceStatus.Running)
    case Stop => !IsStatus(rec, InstanceStatus.Stopped)
    case _ => true
  }

  lemma AttemptEffect(acfg: AgentConfig, m: Message, vm: Vm, f: Faults, command: Command)
    requires Decodes(m, command) && Legal(acfg, m.payload.instance, vm.record) && !f.load && !f.save
    ensures var a := Attempt(acfg, m, vm, f);
            && Legal(acfg, m.payload.instance, a.vm.record)
            && LegalReport(acfg, m.payload.instance, command, a.response)
            && (a.response.success ==> Achieved(command, a.vm.record, a.response))
            && (!a.response.success ==> a.vm.record == vm.record && CanFail(command, vm.record))
  {
  }

  lemma {:induction false} AttemptsEffect(acfg: AgentConfig, m: Message, vm: Vm, s: Schedule, attempt: nat,
      command: Command)
    requires 1 <= attempt <= acfg.retries && Decodes(m, command) && Legal(acfg, m.payload.instance, vm.record)
    requires StoreOk(s)
    ensures var r := Attempts(acfg, m, vm, s, attempt);
            && Legal(acfg, m.payload.instance, r.vm.record)
            && LegalReport(acfg, m.payload.instance, command, r.response)
            && (r.response.success ==> Achieved(command, r.vm.record, r.response))
            && (!r.response.success ==> r.vm.record == vm.record && CanFail(command, vm.record))
    decreases acfg.retries - attempt
  {
    var f := FaultsAt(s, attempt);
    AttemptEffect(acfg, m, vm, f, command);
    var tried := Attempt(acfg, m, vm, f);
    if !tried.response.success && attempt < acfg.retries {
      AttemptsEffect(acfg, m, tried.vm, s, attempt + 1, command);
    }
  }

  // ----- The agreement invariant -----

  function RecordOf(w: World, i: nat): Option<Record> {
    VmOf(w, i).record
  }

  predicate RowAgrees(acfg: AgentConfig, i: nat, row: Instance, rec: Option<Record>) {
    && (row.status.Running? || row.status.Stopped? ==> IsStatus(rec, row.status) && row.ip == Some(AddressOf(acfg, i)))
    && (row.status.Deleted? ==> rec.None?)
  }

  /** The machine has the status that undoing a start or stop restores. */
  predicate SnapshotHolds(k: Task, rec: Option<Record>) {
    k.command.Start? || k.command.Stop? ==>
      k.payload.previousStatus.Some? && IsStatus(rec, k.payload.previousStatus.value)
  }

  /** What must hold before an unhandled start or stop reaches the agent; a first request has recorded the
      machine's own status, a retry may carry an older one. */
  predicate Poised(k: Task, rec: Option<Record>) {
    && (k.retryOf.None? ==> SnapshotHolds(k, rec))
    && match k.command
       case Start =>
         && rec.Some?
         && (k.payload.previousStatus == Some(InstanceStatus.Stopped) || IsStatus(rec, InstanceStatus.Running))
       case Stop =>
         && rec.Some?
         && (k.payload.previousStatus == Some(InstanceStatus.Running) || IsStatus(rec, InstanceStatus.Stopped))
       case _ => true
  }

  /** What a failed start or stop must have found, so that undoing it is right. */
  predicate FailedFrom(k: Task) {
    && (k.command.Start? ==> k.payload.previousStatus == Some(InstanceStatus.Stopped))
    && (k.command.Stop? ==> k.payload.previousStatus == Some(InstanceStatus.Running))
  }

  predicate Undoes(k: Task, rec: Option<Record>) {
    && FailedFrom(k)
    && (k.command.Start? ==> IsStatus(rec, InstanceStatus.Stopped))
    && (k.command.Stop? ==> IsStatus(rec, InstanceStatus.Running))
  }

  predicate Answered(w: World, k: Task) {
    k.request in w.replies
  }

  /** A delete that has succeeded at the agent, its result still under way. */
  predicate BeingDeleted(db: Db, w: World, i: nat) {
    && i < |db.instances| && db.instances[i].status.DeletingPending?
    && db.instances[i].lastTask.Some? && db.instances[i].lastTask.value < |db.tasks|
    && Answered(w, db.tasks[db.instances[i].lastTask.value])
    && w.replies[db.tasks[db.instances[i].lastTask.value].request].success
  }

  predicate TaskAgrees(acfg: AgentConfig, db: Db, w: World, t: nat)
    requires t < |db.tasks|
  {
    var k := db.tasks[t];
    var rec := RecordOf(w, k.instance);
    && k.instance < |db.instances|
    && (!Active(k.status) ==> Answered(w, k) && (k.status.Failed? || k.status.Succeeded?))
    && (k.status.Failed? ==> FailedFrom(k))
    && (Answered(w, k) ==> LegalReport(acfg, k.instance, k.command, w.replies[k.request]))
    && (k.command.Start? || k.command.Stop? ==> k.payload.previousIp == Some(AddressOf(acfg, k.instance)))
    && (Active(k.status) && !Answered(w, k) ==> Poised(k, rec))
    && (Active(k.status) && Answered(w, k) ==>
          if w.replies[k.request].success then Achieved(k.command, rec, w.replies[k.request]) else Undoes(k, rec))
    && (k.command.Start? || k.command.Stop? ==>
          rec.Some? || db.instances[k.instance].status.Deleted? || BeingDeleted(db, w, k.instance))
  }

  predicate CommandOk(db: Db, m: Message) {
    && m.task < |db.tasks|
    && m.request == Some(db.tasks[m.task].request)
    && Decodes(m, db.tasks[m.task].command)
    && m.payload.instance == db.tasks[m.task].instance
  }

  predicate EventOk(db: Db, w: World, e: Event) {
    && e.task < |db.tasks|
    && e.request == db.tasks[e.task].request
    && LegalEvent(e)
    && (!e.status.Running? ==>
          && e.request in w.replies
          && e.status == FinalStatus(Lifecycle(db.tasks[e.task].command), w.replies[e.request])
          && e.resultStatus == ReportedStatus(Lifecycle(db.tasks[e.task].command), w.replies[e.request])
          && e.resultIp == w.replies[e.request].ip)
  }

  ghost predicate Agreement(acfg: AgentConfig, d: Deployment) {
    var db, w := d.node.db, d.agent;
    && Inv(db)
    && (forall r :: 0 <= r < |db.outbox| ==> db.outbox[r].topic.Lifecycle?)
    && (forall q :: q in w.replies ==> q < db.nextRequest)
    && (forall i: nat :: Legal(acfg, i, RecordOf(w, i)))
    && (forall m :: m in d.commands ==> CommandOk(db, m))
    && (forall e :: e in d.events ==> EventOk(db, w, e))
    && (forall t :: 0 <= t < |db.tasks| ==> TaskAgrees(acfg, db, w, t))
    && (forall i :: 0 <= i < |db.instances| ==> RowAgrees(acfg, i, db.instances[i], RecordOf(w, i)))
  }

  // ----- Steps of the control plane -----

  /** Tasks keep their requests apart. */
  lemma RequestsDiffer(db: Db, s: nat, t: nat)
    requires Inv(db) && s < |db.tasks| && t < |db.tasks| && db.tasks[s].request == db.tasks[t].request
    ensures s == t
  {
    var q := ExactlyOneCommandRow(db, s);
    var r := ExactlyOneCommandRow(db, t);
  }

  /** Relay, clock and quota steps: only the queue of commands grows. */
  lemma QuietStepAgrees(cfg: Config, acfg: AgentConfig, d: Deployment, a: Action)
    requires Agreement(acfg, d) && OnlyDelivers(a)
    ensures Agreement(acfg, Deployment(Next(cfg, d.node, a), d.agent, d.commands + Published(d.node, a), d.events))
  {
    var db, after := d.node.db, Next(cfg, d.node, a).db;
    StepKeepsInv(cfg, d.node, a);
    DeliveryKeepsRows(cfg, d.node, a);
    QuietOutbox(cfg, d.node, a);
    forall t | 0 <= t < |after.tasks| ensures TaskAgrees(acfg, after, d.agent, t) {
      assert TaskAgrees(acfg, db, d.agent, t);
    }
    forall m | m in d.commands + Published(d.node, a) ensures CommandOk(after, m) {
      if m in d.commands {
        assert CommandOk(db, m);
      } else {
        var r := d.node.batch[0].id;
        assert LinkOk(db, r) && TaskOk(db, db.outbox[r].task);
      }
    }
    forall e | e in d.events ensures EventOk(after, d.agent, e) {
      assert EventOk(db, d.agent, e);
    }
  }

  lemma QuietOutbox(cfg: Config, p: Node, a: Action)
    requires OnlyDelivers(a)
    ensures var after := Next(cfg, p, a).db;
            && SameMessages(p.db.outbox, after.outbox) && after.nextRequest == p.db.nextRequest
  {
    if a.RelayClaim? && p.batch == [] {
      ClaimStep(cfg, p, a);
      ClaimKeepsMessages(cfg, p, a.locker);
    } else if a.RelayDispatch? && DispatchReady(p) {
      DispatchStep(cfg, p, a);
      DispatchKeepsMessages(cfg, p, a.outcome);
    }
  }

  /** The start or stop a request creates meets the machine it expects: a first request saw the machine's own
      status, a retry repeats a task that failed from the status it restores. */
  lemma RequestIsPoised(acfg: AgentConfig, d: Deployment, a: Action)
    requires Agreement(acfg, d) && CreatesTask(a) && Guards(d.node.db, a)
    ensures var db, i := d.node.db, Target(d.node.db, a);
            var k := NewTask(i, CommandOf(db, a), db.nextRequest, PayloadOf(db, a), db.now, RetryOf(a));
            && Poised(k, RecordOf(d.agent, i))
            && (k.command.Start? || k.command.Stop? ==>
                  RecordOf(d.agent, i).Some? && k.payload.previousIp == Some(AddressOf(acfg, i)))
  {
    var db, i := d.node.db, Target(d.node.db, a);
    if !a.Create? {
      NoActiveTaskMeansSettled(db, i);
      assert RowAgrees(acfg, i, db.instances[i], RecordOf(d.agent, i));
    }
    if a.Retry? {
      assert TaskAgrees(acfg, db, d.agent, a.task);
      assert TaskOk(db, a.task);
    }
  }

  /** The tasks that were there do not notice a new one: theirs are other instances, or they are done. */
  lemma OldTaskStillAgrees(acfg: AgentConfig, d: Deployment, a: Action, after: Db, t: nat)
    requires Agreement(acfg, d) && CreatesTask(a) && Guards(d.node.db, a) && t < |d.node.db.tasks| <= |after.tasks|
    requires after.tasks[t] == d.node.db.tasks[t] && Target(d.node.db, a) <= |d.node.db.instances|
    requires after.instances == Put(d.node.db.instances, Target(d.node.db, a), WrittenRow(d.node.db, a))
    requires forall s :: 0 <= s < |d.node.db.tasks| ==> after.tasks[s] == d.node.db.tasks[s]
    ensures TaskAgrees(acfg, after, d.agent, t)
  {
    var db, k := d.node.db, d.node.db.tasks[t];
    assert TaskAgrees(acfg, db, d.agent, t) && TaskOk(db, t);
    if k.instance == Target(db, a) {
      assert !a.Create?;
      NoActiveTaskMeansSettled(db, k.instance);
    }
  }

  predicate Submits(db: Db, a: Action, after: Db)
    requires CreatesTask(a) && Guards(db, a) && Target(db, a) <= |db.instances|
  {
    var i := Target(db, a);
    && after.instances == Put(db.instances, i, WrittenRow(db, a))
    && after.tasks == db.tasks + [NewTask(i, CommandOf(db, a), db.nextRequest, PayloadOf(db, a), db.now, RetryOf(a))]
    && |after.outbox| == |db.outbox| + 1 && after.outbox[..|db.outbox|] == db.outbox
    && after.outbox[|db.outbox|].topic == Lifecycle(CommandOf(db, a))
    && after.nextRequest == db.nextRequest + 1
  }

  lemma AcceptedSubmits(cfg: Config, db: Db, a: Action)
    requires Inv(db) && CreatesTask(a) && Guards(db, a) && CheckPasses(db, a)
    ensures Target(db, a) <= |db.instances| && Submits(db, a, Protocol.Handle(cfg, db, a).db)
  {
    NormalForm(cfg, db, a);
    EnqueueInserts(cfg, db, Lifecycle(CommandOf(db, a)), MessageOf(db, a), |db.tasks|);
  }

  lemma SubmissionAgrees(acfg: AgentConfig, d: Deployment, a: Action, after: Db)
    requires Agreement(acfg, d) && CreatesTask(a) && Guards(d.node.db, a)
    requires Target(d.node.db, a) <= |d.node.db.instances|
    requires Submits(d.node.db, a, after) && Inv(after)
    ensures Agreement(acfg, d.(node := d.node.(db := after)))
  {
    var db, w := d.node.db, d.agent;
    RequestIsPoised(acfg, d, a);
    forall t | 0 <= t < |after.tasks| ensures TaskAgrees(acfg, after, w, t) {
      if t < |db.tasks| {
        OldTaskStillAgrees(acfg, d, a, after, t);
      }
    }
    RequestRowsAgree(acfg, d, a);
    forall m | m in d.commands ensures CommandOk(after, m) {
      assert CommandOk(db, m);
    }
    forall e | e in d.events ensures EventOk(after, w, e) {
      assert EventOk(db, w, e);
    }
    forall r | 0 <= r < |after.outbox| ensures after.outbox[r].topic.Lifecycle? {
      assert r < |db.outbox| ==> after.outbox[..|db.outbox|][r] == db.outbox[r];
    }
  }

  lemma RequestStepAgrees(cfg: Config, acfg: AgentConfig, d: Deployment, a: Action)
    requires Agreement(acfg, d) && CreatesTask(a)
    ensures Agreement(acfg, d.(node := d.node.(db := Protocol.Handle(cfg, d.node.db, a).db)))
  {
    if Guards(d.node.db, a) && CheckPasses(d.node.db, a) {
      AcceptedSubmits(cfg, d.node.db, a);
      RequestKeepsInv(cfg, d.node.db, a);
      SubmissionAgrees(acfg, d, a, Protocol.Handle(cfg, d.node.db, a).db);
    } else {
      NormalForm(cfg, d.node.db, a);
    }
  }

  lemma RequestRowsAgree(acfg: AgentConfig, d: Deployment, a: Action)
    requires Agreement(acfg, d) && CreatesTask(a) && Guards(d.node.db, a)
    ensures Target(d.node.db, a) <= |d.node.db.instances|
    ensures var rows := Put(d.node.db.instances, Target(d.node.db, a), WrittenRow(d.node.db, a));
            forall i :: 0 <= i < |rows| ==> RowAgrees(acfg, i, rows[i], RecordOf(d.agent, i))
  {
    SubmissionIsFresh(d.node.db, a);
    var rows := Put(d.node.db.instances, Target(d.node.db, a), WrittenRow(d.node.db, a));
    forall i | 0 <= i < |rows| ensures RowAgrees(acfg, i, rows[i], RecordOf(d.agent, i)) {
      if i != Target(d.node.db, a) {
        assert RowAgrees(acfg, i, d.node.db.instances[i], RecordOf(d.agent, i));
      }
    }
  }

  // ----- Steps of the agent -----

  /** The running event may reach the tables before, after or without the command being handled. */
  lemma AnnounceAgrees(acfg: AgentConfig, d: Deployment, m: Message, stamp: int)
    requires Agreement(acfg, d) && m in d.commands && m.request.Some?
    ensures Agreement(acfg, d.(events := d.events + {RunningEvent(m, stamp)}))
  {
    assert CommandOk(d.node.db, m);
  }

  /** A repeated command changes nothing and repeats its answer. */
  lemma RepeatAgrees(acfg: AgentConfig, d: Deployment, m: Message, s: Schedule, stamp: int)
    requires Agreement(acfg, d) && m in d.commands && m.request.Some? && m.request.value in d.agent.replies
    ensures Agreement(acfg, Deployment(d.node, Agent.Handle(acfg, d.agent, m, s).world, d.commands,
                                 d.events + {FinalEvent(m, Agent.Handle(acfg, d.agent, m, s).response,
                                                         Agent.Handle(acfg, d.agent, m, s).attempts, stamp)}))
  {
    var db := d.node.db;
    assert CommandOk(db, m) && TaskAgrees(acfg, db, d.agent, m.task);
  }

  /** The world after a first delivery: one state file and one reply are new. */
  ghost predicate FirstDelivery(d: Deployment, w: World, m: Message) {
    && CommandOk(d.node.db, m) && m.request.value !in d.agent.replies && m.request.value in w.replies
    && w.replies == d.agent.replies[m.request.value := w.replies[m.request.value]]
    && (forall i: nat :: i != m.payload.instance ==> RecordOf(w, i) == RecordOf(d.agent, i))
  }

  ghost predicate Effect(acfg: AgentConfig, d: Deployment, w: World, m: Message)
    requires FirstDelivery(d, w, m)
  {
    var k, r := d.node.db.tasks[m.task], w.replies[m.request.value];
    var before, rec := RecordOf(d.agent, k.instance), RecordOf(w, k.instance);
    && Legal(acfg, k.instance, rec) && LegalReport(acfg, k.instance, k.command, r)
    && (r.success ==> Achieved(k.command, rec, r))
    && (!r.success ==> rec == before && CanFail(k.command, before))
  }

  lemma DeliveryHasEffect(acfg: AgentConfig, d: Deployment, m: Message, s: Schedule)
    requires Agreement(acfg, d) && m in d.commands && m.request.Some? && m.request.value !in d.agent.replies
    requires StoreOk(s)
    ensures FirstDelivery(d, Agent.Handle(acfg, d.agent, m, s).world, m)
    ensures Effect(acfg, d, Agent.Handle(acfg, d.agent, m, s).world, m)
    ensures Agent.Handle(acfg, d.agent, m, s).response
        == Agent.Handle(acfg, d.agent, m, s).world.replies[m.request.value]
  {
    assert CommandOk(d.node.db, m);
    assert Legal(acfg, m.payload.instance, RecordOf(d.agent, m.payload.instance));
    AttemptsEffect(acfg, m, VmOf(d.agent, m.payload.instance), s, 1, d.node.db.tasks[m.task].command);
  }

  /** A first delivery belongs to the one active task of its instance, whose row is therefore pending. */
  lemma DeliveredTaskIsActive(acfg: AgentConfig, d: Deployment, w: World, m: Message)
    requires Agreement(acfg, d) && FirstDelivery(d, w, m)
    ensures var db, k := d.node.db, d.node.db.tasks[m.task];
            && Active(k.status) && k.instance < |db.instances|
            && db.instances[k.instance].status == PendingStatus(k.command)
            && db.instances[k.instance].lastTask == Some(m.task)
            && Poised(k, RecordOf(d.agent, k.instance))
  {
    assert TaskAgrees(acfg, d.node.db, d.agent, m.task) && TaskOk(d.node.db, m.task);
  }

  lemma DeliveredTaskAgrees(acfg: AgentConfig, d: Deployment, w: World, m: Message)
    requires Agreement(acfg, d) && FirstDelivery(d, w, m) && Effect(acfg, d, w, m)
    ensures TaskAgrees(acfg, d.node.db, w, m.task)
  {
    DeliveredTaskIsActive(acfg, d, w, m);
    var db, k := d.node.db, d.node.db.tasks[m.task];
    assert TaskAgrees(acfg, db, d.agent, m.task) && TaskOk(db, m.task);
  }

  lemma OtherTaskAgrees(acfg: AgentConfig, d: Deployment, w: World, m: Message, t: nat)
    requires Agreement(acfg, d) && FirstDelivery(d, w, m) && Effect(acfg, d, w, m) && t < |d.node.db.tasks|
    requires t != m.task
    ensures TaskAgrees(acfg, d.node.db, w, t)
  {
    var db, k := d.node.db, d.node.db.tasks[t];
    DeliveredTaskIsActive(acfg, d, w, m);
    assert TaskAgrees(acfg, db, d.agent, t);
    if k.request == m.request.value {
      RequestsDiffer(db, t, m.task);
    }
    if k.instance == m.payload.instance && Active(k.status) {
      AtMostOneActiveTask(db, t, m.task);
    }
  }

  lemma DeliveryAgrees(acfg: AgentConfig, d: Deployment, m: Message, s: Schedule, stamp: int)
    requires Agreement(acfg, d) && m in d.commands && m.request.Some? && m.request.value !in d.agent.replies
    requires StoreOk(s)
    ensures Agreement(acfg, Deployment(d.node, Agent.Handle(acfg, d.agent, m, s).world, d.commands,
                                 d.events + {FinalEvent(m, Agent.Handle(acfg, d.agent, m, s).response,
                                                         Agent.Handle(acfg, d.agent, m, s).attempts, stamp)}))
  {
    var db, h := d.node.db, Agent.Handle(acfg, d.agent, m, s);
    DeliveryHasEffect(acfg, d, m, s);
    DeliveredTaskIsActive(acfg, d, h.world, m);
    forall t | 0 <= t < |db.tasks| ensures TaskAgrees(acfg, db, h.world, t) {
      if t == m.task {
        DeliveredTaskAgrees(acfg, d, h.world, m);
      } else {
        OtherTaskAgrees(acfg, d, h.world, m, t);
      }
    }
    DeliveredRowsAgree(acfg, d, h.world, m);
    DeliveredEventsOk(acfg, d, h, m, stamp);
  }

  lemma DeliveredRowsAgree(acfg: AgentConfig, d: Deployment, w: World, m: Message)
    requires Agreement(acfg, d) && FirstDelivery(d, w, m) && Effect(acfg, d, w, m)
    ensures forall i: nat :: Legal(acfg, i, RecordOf(w, i))
    ensures forall i :: 0 <= i < |d.node.db.instances| ==> RowAgrees(acfg, i, d.node.db.instances[i], RecordOf(w, i))
    ensures forall q :: q in w.replies ==> q < d.node.db.nextRequest
  {
    var db := d.node.db;
    DeliveredTaskIsActive(acfg, d, w, m);
    assert TaskOk(db, m.task);
    forall i | 0 <= i < |db.instances| ensures RowAgrees(acfg, i, db.instances[i], RecordOf(w, i)) {
      assert RowAgrees(acfg, i, db.instances[i], RecordOf(d.agent, i));
    }
  }

  lemma DeliveredEventsOk(acfg: AgentConfig, d: Deployment, h: Handled, m: Message, stamp: int)
    requires Agreement(acfg, d) && FirstDelivery(d, h.world, m) && Effect(acfg, d, h.world, m)
    requires h.response == h.world.replies[m.request.value]
    ensures forall e :: e in d.events + {FinalEvent(m, h.response, h.attempts, stamp)} ==>
        EventOk(d.node.db, h.world, e)
  {
    forall e | e in d.events + {FinalEvent(m, h.response, h.attempts, stamp)} ensures EventOk(d.node.db, h.world, e) {
      if e in d.events {
        assert EventOk(d.node.db, d.agent, e);
      }
    }
  }

  // ----- Result events reach the tables -----

  lemma ReportedTaskAgrees(acfg: AgentConfig, d: Deployment, e: Event)
    requires Agreement(acfg, d) && e in d.events && Live(d.node.db, e)
    ensures var after := ProcessEvent(d.node.db, e);
            var i := d.node.db.tasks[e.task].instance;
            && e.task < |after.tasks| && TaskAgrees(acfg, after, d.agent, e.task)
            && RowAgrees(acfg, i, after.instances[i], RecordOf(d.agent, i))
  {
    var db := d.node.db;
    assert EventOk(db, d.agent, e) && TaskAgrees(acfg, db, d.agent, e.task) && TaskOk(db, e.task);
    var i := db.tasks[e.task].instance;
    assert RowAgrees(acfg, i, db.instances[i], RecordOf(d.agent, i));
  }

  lemma UnreportedTaskAgrees(acfg: AgentConfig, d: Deployment, e: Event, t: nat)
    requires Agreement(acfg, d) && e in d.events && Live(d.node.db, e) && t < |d.node.db.tasks| && t != e.task
    ensures var after := ProcessEvent(d.node.db, e);
            t < |after.tasks| && TaskAgrees(acfg, after, d.agent, t)
  {
    var db := d.node.db;
    assert EventOk(db, d.agent, e) && TaskAgrees(acfg, db, d.agent, e.task) && TaskOk(db, e.task);
    assert TaskAgrees(acfg, db, d.agent, t);
    var after := ProcessEvent(db, e);
    if db.tasks[t].instance == db.tasks[e.task].instance {
      if Active(db.tasks[t].status) {
        AtMostOneActiveTask(db, t, e.task);
      }
    } else {
      assert after.instances[db.tasks[t].instance] == db.instances[db.tasks[t].instance];
    }
  }

  lemma ReportAgrees(acfg: AgentConfig, d: Deployment, e: Event)
    requires Agreement(acfg, d) && e in d.events
    ensures Agreement(acfg, d.(node := d.node.(db := ProcessEvent(d.node.db, e))))
  {
    var db, after := d.node.db, ProcessEvent(d.node.db, e);
    assert EventOk(db, d.agent, e);
    EventKeepsInv(db, e);
    if Live(db, e) {
      ReportedTaskAgrees(acfg, d, e);
      forall t | 0 <= t < |after.tasks| ensures TaskAgrees(acfg, after, d.agent, t) {
        if t != e.task {
          UnreportedTaskAgrees(acfg, d, e, t);
        }
      }
      forall i | 0 <= i < |after.instances| ensures RowAgrees(acfg, i, after.instances[i], RecordOf(d.agent, i)) {
        if i != db.tasks[e.task].instance {
          assert RowAgrees(acfg, i, db.instances[i], RecordOf(d.agent, i));
        }
      }
      forall m | m in d.commands ensures CommandOk(after, m) {
        assert CommandOk(db, m);
      }
      forall x | x in d.events ensures EventOk(after, d.agent, x) {
        assert EventOk(db, d.agent, x);
      }
    }
  }

  // ----- Agreement over whole runs -----

  lemma MoveAgrees(cfg: Config, acfg: AgentConfig, d: Deployment, mv: Move)
    requires Agreement(acfg, d) && Allowed(mv)
    ensures Agreement(acfg, Advance(cfg, acfg, d, mv))
  {
    match mv
    case Plane(a) =>
      if OnlyDelivers(a) {
        QuietStepAgrees(cfg, acfg, d, a);
      } else {
        RequestStepAgrees(cfg, acfg, d, a);
        assert Published(d.node, a) == {};
        assert d.commands + Published(d.node, a) == d.commands;
      }
    case Announce(m, stamp) =>
      if m in d.commands && m.request.Some? {
        AnnounceAgrees(acfg, d, m, stamp);
      }
    case Deliver(m, s, stamp) =>
      if m in d.commands && m.request.Some? {
        if m.request.value in d.agent.replies {
          RepeatAgrees(acfg, d, m, s, stamp);
        } else {
          DeliveryAgrees(acfg, d, m, s, stamp);
        }
      }
    case Report(e) =>
      if e in d.events {
        ReportAgrees(acfg, d, e);
      }
  }

  lemma {:induction false} AllMovesAgree(cfg: Config, acfg: AgentConfig, d: Deployment, mvs: seq<Move>)
    requires Agreement(acfg, d) && forall k :: 0 <= k < |mvs| ==> Allowed(mvs[k])
    ensures Agreement(acfg, AdvanceAll(cfg, acfg, d, mvs))
  {
    if mvs != [] {
      AllMovesAgree(cfg, acfg, d, mvs[..|mvs| - 1]);
      MoveAgrees(cfg, acfg, AdvanceAll(cfg, acfg, d, mvs[..|mvs| - 1]), mvs[|mvs| - 1]);
    }
  }

  /** In every run without cancel and timeout, with a working agent store but any other fault, and with
      commands and results lost, repeated and reordered at will: an instance the tables show as running or
      stopped has a state file with that status and the address shown, and a deleted one has none. */
  lemma {:induction false} TablesAgreeWithAgent(cfg: Config, acfg: AgentConfig, start: Deployment, mvs: seq<Move>,
      i: nat)
    requires Begins(start) && forall k :: 0 <= k < |mvs| ==> Allowed(mvs[k])
    requires i < |AdvanceAll(cfg, acfg, start, mvs).node.db.instances|
    ensures var d := AdvanceAll(cfg, acfg, start, mvs);
            var row, rec := d.node.db.instances[i], VmOf(d.agent, i).record;
            && (row.status.Running? || row.status.Stopped? ==>
                  rec.Some? && rec.value.status == row.status && row.ip == Some(rec.value.ip))
            && (row.status.Deleted? ==> rec.None?)
  {
    AllMovesAgree(cfg, acfg, start, mvs);
    var d := AdvanceAll(cfg, acfg, start, mvs);
    assert RowAgrees(acfg, i, d.node.db.instances[i], RecordOf(d.agent, i));
  }

  // ----- Why cancel and timeout are excluded -----

  /** The routes that give up a task without calling its command back. */
  datatype GivingUp = ByCancel | ByTimeout | BySweep | ByCanceledEvent(event: Event)

  /** A route is open: the first three give up queued tasks, a canceled event any active one. */
  predicate CanGiveUp(cfg: Config, db: Db, t: nat, route: GivingUp) {
    && t < |db.tasks|
    && match route
       case BySweep => t in SweepPick(cfg, db)
       case ByCanceledEvent(e) => Active(db.tasks[t].status) && e.task == t && e.status.Canceled?
       case _ => db.tasks[t].status.Queued?
  }

  function GiveUp(cfg: Config, db: Db, t: nat, route: GivingUp): Db {
    match route
    case ByCancel => CancelTask(cfg, db, t).db
    case ByTimeout => FailStale(db, t)
    case BySweep => SweepOnce(cfg, db)
    case ByCanceledEvent(e) => ProcessEvent(db, e)
  }

  lemma GivingUpUndoes(cfg: Config, db: Db, t: nat, route: GivingUp)
    requires Inv(db) && CanGiveUp(cfg, db, t, route)
    ensures var i, k := db.tasks[t].instance, db.tasks[t];
            && i < |db.instances| && i < |GiveUp(cfg, db, t, route).instances|
            && GiveUp(cfg, db, t, route).instances[i] == Revert(db.instances[i], k.command, k.payload)
  {
    assert TaskOk(db, t);
    if route.BySweep? {
      PickIsStale(cfg, db);
      PickIsQueue(cfg, db);
      FailAllEffect(db, SweepPick(cfg, db));
      assert SweepOnce(cfg, db).instances[db.tasks[t].instance]
          == UndoneRow(db, SweepPick(cfg, db), db.tasks[t].instance);
    }
  }

  lemma GivenUpRowAgrees(acfg: AgentConfig, d: Deployment, t: nat)
    requires Agreement(acfg, d) && t < |d.node.db.tasks| && Active(d.node.db.tasks[t].status)
    ensures var k := d.node.db.tasks[t];
            && k.instance < |d.node.db.instances|
            && (RowAgrees(acfg, k.instance, Revert(d.node.db.instances[k.instance], k.command, k.payload),
                          RecordOf(d.agent, k.instance))
                <==> SnapshotHolds(k, RecordOf(d.agent, k.instance)))
  {
    assert TaskOk(d.node.db, t) && TaskAgrees(acfg, d.node.db, d.agent, t);
  }

  /** Giving up a task, whether its command has been handled or never will be: tables and agent agree about the
      instance afterwards if and only if the machine has the status the task's snapshot restores. */
  lemma {:induction false} GivingUpKeepsAgreementIff(
    cfg: Config, acfg: AgentConfig, d: Deployment, t: nat, route: GivingUp)
    requires Agreement(acfg, d) && CanGiveUp(cfg, d.node.db, t, route)
    ensures var k, rows := d.node.db.tasks[t], GiveUp(cfg, d.node.db, t, route).instances;
            && k.instance < |rows|
            && (RowAgrees(acfg, k.instance, rows[k.instance], RecordOf(d.agent, k.instance)) <==>
                  SnapshotHolds(k, RecordOf(d.agent, k.instance)))
  {
    if route.BySweep? {
      PickIsStale(cfg, d.node.db);
    }
    GivingUpUndoes(cfg, d.node.db, t, route);
    GivenUpRowAgrees(acfg, d, t);
  }

  /** Giving up a first request that the agent has not answered always keeps them in agreement. */
  lemma {:induction false} GivingUpFirstRequestAgrees(
    cfg: Config, acfg: AgentConfig, d: Deployment, t: nat, route: GivingUp)
    requires Agreement(acfg, d) && CanGiveUp(cfg, d.node.db, t, route)
    requires d.node.db.tasks[t].retryOf.None? && !Answered(d.agent, d.node.db.tasks[t])
    ensures var k, rows := d.node.db.tasks[t], GiveUp(cfg, d.node.db, t, route).instances;
            && k.instance < |rows| && RowAgrees(acfg, k.instance, rows[k.instance], RecordOf(d.agent, k.instance))
  {
    if route.BySweep? {
      PickIsStale(cfg, d.node.db);
    }
    GivingUpKeepsAgreementIff(cfg, acfg, d, t, route);
    assert TaskAgrees(acfg, d.node.db, d.agent, t);
  }

  /** A stale retry does not need to be delivered to do harm: a failed start retried while its instance is running,
      then canceled before anyone sees it, leaves the row `stopped` over a running machine. */
  lemma CancelOfStaleStartRetry(cfg: Config, acfg: AgentConfig, d: Deployment, s: nat)
    requires Agreement(acfg, d) && RetryTask(cfg, d.node.db, s).reply.Accepted?
    requires s < |d.node.db.tasks| && d.node.db.tasks[s].command.Start?
    requires d.node.db.tasks[s].instance < |d.node.db.instances|
    requires d.node.db.instances[d.node.db.tasks[s].instance].status.Running?
    ensures var retried := RetryTask(cfg, d.node.db, s);
            var rows, i := CancelTask(cfg, retried.db, retried.reply.task).db.instances, d.node.db.tasks[s].instance;
            && i < |rows| && rows[i].status.Stopped? && IsStatus(RecordOf(d.agent, i), InstanceStatus.Running)
            && !RowAgrees(acfg, i, rows[i], RecordOf(d.agent, i))
  {
    var db := d.node.db;
    assert TaskAgrees(acfg, db, d.agent, s) && TaskOk(db, s);
    assert RowAgrees(acfg, db.tasks[s].instance, db.instances[db.tasks[s].instance],
        RecordOf(d.agent, db.tasks[s].instance));
    RetryNormalForm(cfg, db, Retry(s));
  }

  /** The commands whose success moves the machine away from the status their undo restores. */
  predicate MovesAway(k: Task) {
    || (k.command.Stop? && k.payload.previousStatus == Some(InstanceStatus.Running))
    || (k.command.Start? && k.payload.previousStatus == Some(InstanceStatus.Stopped))
  }

  /** A task given up by cancel, timeout, sweep or canceled event, whose command still reaches the agent: for every
      command and whatever fails, tables and agent disagree about the instance exactly when the agent succeeds
      in a stop of a running or a start of a stopped instance. */
  lemma {:induction false} GivenUpCommandStillRuns(
    cfg: Config, acfg: AgentConfig, d: Deployment, t: nat, route: GivingUp, m: Message, s: Schedule)
    requires Agreement(acfg, d) && CanGiveUp(cfg, d.node.db, t, route)
    requires m in d.commands && m.task == t && d.node.db.tasks[t].request !in d.agent.replies && StoreOk(s)
    ensures var k, rows, h := d.node.db.tasks[t], GiveUp(cfg, d.node.db, t, route).instances,
        Agent.Handle(acfg, d.agent, m, s);
            && k.instance < |rows|
            && (RowAgrees(acfg, k.instance, rows[k.instance], RecordOf(h.world, k.instance)) <==>
                  !(h.response.success && MovesAway(k)))
  {
    var db, h := d.node.db, Agent.Handle(acfg, d.agent, m, s);
    assert CommandOk(db, m);
    GivingUpUndoes(cfg, db, t, route);
    DeliveryHasEffect(acfg, d, m, s);
    DeliveredTaskIsActive(acfg, d, h.world, m);
    GivenUpRow(acfg, d, h.world, m);
  }

  lemma GivenUpRow(acfg: AgentConfig, d: Deployment, w: World, m: Message)
    requires Agreement(acfg, d) && FirstDelivery(d, w, m) && Effect(acfg, d, w, m)
    ensures var k := d.node.db.tasks[m.task];
            && k.instance < |d.node.db.instances|
            && (RowAgrees(acfg, k.instance, Revert(d.node.db.instances[k.instance], k.command, k.payload),
                  RecordOf(w, k.instance))
                <==> !(w.replies[m.request.value].success && MovesAway(k)))
  {
    DeliveredTaskIsActive(acfg, d, w, m);
    assert TaskOk(d.node.db, m.task) && TaskAgrees(acfg, d.node.db, d.agent, m.task);
  }

  /** In particular: a canceled stop that still runs without faults leaves agreement exactly when the instance
      was already stopped before the request. */
  lemma {:induction false} CancelOfPublishedStop(cfg: Config, acfg: AgentConfig, d: Deployment, t: nat, m: Message)
    requires Agreement(acfg, d) && t < |d.node.db.tasks| && d.node.db.tasks[t].status.Queued?
    requires d.node.db.tasks[t].command.Stop?
    requires m in d.commands && m.task == t && d.node.db.tasks[t].request !in d.agent.replies
    ensures var k, rows := d.node.db.tasks[t], CancelTask(cfg, d.node.db, t).db.instances;
            var w := Agent.Handle(acfg, d.agent, m, Schedule([], false)).world;
            && k.instance < |rows|
            && (RowAgrees(acfg, k.instance, rows[k.instance], RecordOf(w, k.instance)) <==>
                  k.payload.previousStatus == Some(InstanceStatus.Stopped))
  {
    var db, k := d.node.db, d.node.db.tasks[t];
    assert CommandOk(db, m) && TaskOk(db, t) && TaskAgrees(acfg, db, d.agent, t);
    StopSucceedsWithoutFaults(acfg, m, VmOf(d.agent, k.instance));
    GivenUpCommandStillRuns(cfg, acfg, d, t, ByCancel, m, Schedule([], false));
  }

  lemma StopSucceedsWithoutFaults(acfg: AgentConfig, m: Message, vm: Vm)
    requires Decodes(m, Command.Stop) && vm.record.Some? && Legal(acfg, m.payload.instance, vm.record)
    ensures Attempts(acfg, m, vm, Schedule([], false), 1).response.success
  {
  }
}
