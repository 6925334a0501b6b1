/** From the agent's reply to the task row: what a delivered command makes of its task. */
module Reporting {
  import opened Model
  import opened Agent
  import opened ControlPlane
  import opened Protocol
  import opened Invariant
  import opened Sweeping
  import opened EndToEnd
  import Canceling
  import Effects
  import Progress

  /** The deployment after `m` has been handled and its final event processed. */
  function AfterReply(cfg: Config, acfg: AgentConfig, d: Deployment, m: Message, s: Schedule, stamp: int): Deployment
    requires m.request.Some?
  {
    var h := Agent.Handle(acfg, d.agent, m, s);
    Advance(cfg, acfg, Advance(cfg, acfg, d, Deliver(m, s, stamp)),
            Report(FinalEvent(m, h.response, h.attempts, stamp)))
  }

  /** The task says what the agent replied: success, failure or cancellation, the error code, and the number of
      attempts; and a new command that failed was tried as often as the agent is allowed to. */
  lemma ResultReachesTask(cfg: Config, acfg: AgentConfig, d: Deployment, m: Message, s: Schedule, stamp: int)
    requires m in d.commands && m.request.Some? && m.task < |d.node.db.tasks|
    requires d.node.db.tasks[m.task].instance < |d.node.db.instances|
    requires !Effects.Terminal(d.node.db.tasks[m.task].status)
    ensures m.task < |AfterReply(cfg, acfg, d, m, s, stamp).node.db.tasks|
    ensures var h, k := Agent.Handle(acfg, d.agent, m, s), d.node.db.tasks[m.task];
            var after := AfterReply(cfg, acfg, d, m, s, stamp).node.db.tasks[m.task];
            var code := if h.response.errorCode == "" then None else Some(h.response.errorCode);
            && (!h.response.success ==>
                  after == k.(status := TaskStatus.Failed, attempts := h.attempts, errorCode := code))
            && (h.response.success && m.topic.Lifecycle? ==>
                  after == k.(status := TaskStatus.Succeeded, attempts := h.attempts, errorCode := None))
            && (h.response.success && m.topic.CancelTopic? ==>
                  after.status.Canceled? && after.errorCode == (if code.Some? then code else Some("CANCELED")))
            && (!h.response.success && m.request.value !in d.agent.replies ==> after.attempts == acfg.retries)
  {
    var h, a := Agent.Handle(acfg, d.agent, m, s), Deliver(m, s, stamp);
    var e := FinalEvent(m, h.response, h.attempts, stamp);
    AttemptsAreCounted(acfg, d.agent, m, s);
    Effects.ResultIsTold(cfg, Advance(cfg, acfg, d, a).node, Result(e));
  }

  lemma AttemptsAreCounted(acfg: AgentConfig, w: World, m: Message, s: Schedule)
    requires m.request.Some?
    ensures var h := Agent.Handle(acfg, w, m, s);
            && h.attempts >= 1
            && (!h.response.success && m.request.value !in w.replies ==> h.attempts == acfg.retries)
  {
    Progress.FirstSuccessIsReported(acfg, m, VmOf(w, InstanceOf(m.payload)), s);
  }

  /** A cancellation runs its course: once the cancel command of a waiting task has reached the agent and its answer
      has come back, the task is canceled, whatever fails at the agent. */
  lemma DeliveredCancelEndsTask(
    cfg: Config, acfg: AgentConfig, d: Deployment, t: nat, r: nat, s: Schedule, stamp: int)
    requires Inv(d.node.db) && Canceling.IsCancelRow(d.node.db, t, r) && d.node.db.tasks[t].status.CancelPending?
    requires CommandMessageOf(d.node.db.outbox[r]) in d.commands
    requires d.node.db.outbox[r].request !in d.agent.replies
    ensures var m := CommandMessageOf(d.node.db.outbox[r]);
            var end := AfterReply(cfg, acfg, d, m, s, stamp);
            && t < |end.node.db.tasks|
            && end.node.db.tasks[t].status.Canceled? && end.node.db.tasks[t].errorCode == Some("CANCELED")
            && (forall i: nat :: VmOf(end.agent, i) == VmOf(d.agent, i))
  {
    var m := CommandMessageOf(d.node.db.outbox[r]);
    assert TaskOk(d.node.db, t);
    CancelAlwaysWorks(acfg, d.agent, m, s);
    ResultReachesTask(cfg, acfg, d, m, s, stamp);
  }

  lemma CancelAlwaysWorks(acfg: AgentConfig, w: World, m: Message, s: Schedule)
    requires m.request.Some? && m.request.value !in w.replies && m.topic.CancelTopic? && m.payload.CancelPayload?
    ensures var h := Agent.Handle(acfg, w, m, s);
            && h.response.success && h.response.errorCode == ""
            && forall i: nat :: VmOf(h.world, i) == VmOf(w, i)
  {
  }

  // ----- From the outbox to the fulfilled request -----

  /** What the relay hands to the broker is there for the agent, and no move takes a message away. */
  lemma PublishedCommandsArrive(cfg: Config, acfg: AgentConfig, d: Deployment, mv: Move)
    ensures var after := Advance(cfg, acfg, d, mv);
            && d.commands <= after.commands && d.events <= after.events
            && (mv.Plane? && mv.action.RelayDispatch? && mv.action.outcome.published && DispatchReady(d.node) ==>
                  CommandMessageOf(d.node.db.outbox[d.node.batch[0].id]) in after.commands)
  {
  }

  /** The status a command is meant to bring about. */
  function Goal(c: Command, boot: bool): InstanceStatus {
    match c
    case Create => InstanceStatus.Running
    case Update => if boot then InstanceStatus.Running else InstanceStatus.Stopped
    case Start => InstanceStatus.Running
    case Stop => InstanceStatus.Stopped
    case Delete => Deleted
  }

  predicate Boots(m: Message) {
    m.payload.UpdatePayload? && m.payload.boot
  }

  /** A request runs its course: its command is published, the machine can serve it, some allowed attempt meets no
      fault and the failures before it leave no process behind. Then the task succeeds within that many attempts, and
      the instance has the status the command is for. */
  lemma ServedTaskIsFulfilled(
    cfg: Config, acfg: AgentConfig, d: Deployment, t: nat, r: nat, s: Schedule, n: nat, stamp: int)
    requires Inv(d.node.db) && InFlight(d.node.db, t) && IsCommandRow(d.node.db, t, r)
    requires var m := CommandMessageOf(d.node.db.outbox[r]);
             && m in d.commands && m.request.value !in d.agent.replies
             && Progress.CanServe(m, VmOf(d.agent, InstanceOf(m.payload)))
    requires 1 <= n <= acfg.retries && FaultsAt(s, n) == NO_FAULTS
    requires forall j :: 1 <= j < n ==> Progress.LeavesNoProcess(FaultsAt(s, j))
    ensures var m, k := CommandMessageOf(d.node.db.outbox[r]), d.node.db.tasks[t];
            var db := AfterReply(cfg, acfg, d, m, s, stamp).node.db;
            && t < |db.tasks| && db.tasks[t].status.Succeeded? && 1 <= db.tasks[t].attempts <= n
            && k.instance < |db.instances| && db.instances[k.instance].status == Goal(k.command, Boots(m))
  {
    var db, m := d.node.db, CommandMessageOf(d.node.db.outbox[r]);
    var vm := VmOf(d.agent, InstanceOf(m.payload));
    assert TaskOk(db, t) && LinkOk(db, r);
    Progress.RetryingSucceeds(acfg, m, vm, s, n);
    SuccessIsOfTheCommand(acfg, m, vm, s, db.tasks[t].command);
    ResultReachesTask(cfg, acfg, d, m, s, stamp);
    var h := Agent.Handle(acfg, d.agent, m, s);
    SucceededRow(cfg, Advance(cfg, acfg, d, Deliver(m, s, stamp)).node, FinalEvent(m, h.response, h.attempts, stamp));
  }

  /** What a successful command reports. */
  lemma SuccessIsOfTheCommand(acfg: AgentConfig, m: Message, vm: Vm, s: Schedule, c: Command)
    requires m.topic == Lifecycle(c) && Attempts(acfg, m, vm, s, 1).response.success
    ensures Attempts(acfg, m, vm, s, 1).response.status == Some(Lasting(Goal(c, Boots(m))))
  {
    var last := Attempts(acfg, m, vm, s, 1).attempts;
    Progress.FirstSuccessIsReported(acfg, m, vm, s);
    SuccessfulAttempt(acfg, m, Progress.AfterTries(Progress.StepOf(acfg, m, s), vm, last - 1), FaultsAt(s, last), c);
  }

  lemma SuccessfulAttempt(acfg: AgentConfig, m: Message, vm: Vm, f: Faults, c: Command)
    requires m.topic == Lifecycle(c) && Attempt(acfg, m, vm, f).response.success
    ensures Attempt(acfg, m, vm, f).response.status == Some(Lasting(Goal(c, Boots(m))))
  {
  }

  lemma SucceededRow(cfg: Config, p: Node, e: Event)
    requires Inv(p.db) && InFlight(p.db, e.task) && e.status.Succeeded?
    ensures p.db.tasks[e.task].instance < |Next(cfg, p, Result(e)).db.instances|
    ensures var k := p.db.tasks[e.task];
            Next(cfg, p, Result(e)).db.instances[k.instance].status
            == if k.command.Update? then GetOr(e.resultStatus, InstanceStatus.Running) else Goal(k.command, true)
  {
    assert TaskOk(p.db, e.task);
  }
}
