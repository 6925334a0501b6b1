/** Resources end to end: the cpu, memory and disk the tables show are those of the agent's state file. */
module Resources {
  import opened Model
  import opened Accounting
  import opened ControlPlane
  import opened Outbox
  import opened Protocol
  import opened Requests
  import opened Invariant
  import opened Lifecycle
  import opened Agent
  import opened EndToEnd

  predicate Matches(rec: Option<Record>, spec: Spec) {
    rec.Some? ==> Spec(rec.value.cpu, rec.value.memory, rec.value.disk) == spec
  }

  // ----- What the agent does to the resources in a state file -----

  /** The state file `rec` after a command that found `before`. */
  predicate SpecEffect(m: Message, command: Command, before: Option<Record>, rec: Option<Record>, success: bool)
    requires Decodes(m, command)
  {
    if !success then rec == before
    else match command
      case Create => Matches(rec, m.payload.spec)
      case Update => Matches(rec, m.payload.spec)
      case Delete => rec.None?
      case _ => before.Some? && Matches(rec, Spec(before.value.cpu, before.value.memory, before.value.disk))
  }

  lemma AttemptSpec(acfg: AgentConfig, m: Message, vm: Vm, f: Faults, command: Command)
    requires Decodes(m, command)
    ensures var a := Attempt(acfg, m, vm, f);
            SpecEffect(m, command, vm.record, a.vm.record, a.response.success)
  {
  }

  lemma {:induction false} AttemptsSpec(acfg: AgentConfig, m: Message, vm: Vm, s: Schedule, attempt: nat,
      command: Command)
    requires 1 <= attempt <= acfg.retries && Decodes(m, command)
    ensures var r := Attempts(acfg, m, vm, s, attempt);
            SpecEffect(m, command, vm.record, r.vm.record, r.response.success)
    decreases acfg.retries - attempt
  {
    var f := FaultsAt(s, attempt);
    AttemptSpec(acfg, m, vm, f, command);
    var tried := Attempt(acfg, m, vm, f);
    if !tried.response.success && attempt < acfg.retries {
      AttemptsSpec(acfg, m, tried.vm, s, attempt + 1, command);
    }
  }

  // ----- The invariant -----

  predicate Done(w: World, k: Task) {
    Answered(w, k) && w.replies[k.request].success
  }

  /** While task `k` is in flight on `row`: an update shows its new spec at once, the state file follows when the
      agent has succeeded; every other command leaves the two in step. */
  predicate PendingSpecOk(w: World, row: Instance, k: Task, rec: Option<Record>) {
    match k.command
    case Create => k.payload.spec == Some(row.spec) && Matches(rec, row.spec)
    case Update =>
      && k.payload.spec == Some(row.spec) && k.payload.previousSpec.Some?
      && Matches(rec, if Done(w, k) then row.spec else k.payload.previousSpec.value)
    case Delete => k.payload.previousSpec == Some(row.spec) && Matches(rec, row.spec)
    case _ => Matches(rec, row.spec)
  }

  predicate SpecOk(db: Db, w: World, i: nat)
    requires i < |db.instances|
  {
    var row := db.instances[i];
    if Pending(row.status) then
      row.lastTask.Some? && row.lastTask.value < |db.tasks|
      && PendingSpecOk(w, row, db.tasks[row.lastTask.value], RecordOf(w, i))
    else Matches(RecordOf(w, i), row.spec)
  }

  predicate SpecCommandOk(db: Db, m: Message) {
    && CommandOk(db, m)
    && (db.tasks[m.task].command.Create? || db.tasks[m.task].command.Update? ==>
          db.tasks[m.task].payload.spec == Some(m.payload.spec))
  }

  ghost predicate SpecAgreement(acfg: AgentConfig, d: Deployment) {
    && Agreement(acfg, d)
    && (forall i: nat :: i >= |d.node.db.instances| ==> RecordOf(d.agent, i).None?)
    && (forall m :: m in d.commands ==> SpecCommandOk(d.node.db, m))
    && (forall i :: 0 <= i < |d.node.db.instances| ==> SpecOk(d.node.db, d.agent, i))
  }

  /** A retried create, update or delete whose snapshot still shows the row's spec. */
  predicate CurrentRetry(db: Db, s: nat) {
    s < |db.tasks| && db.tasks[s].instance < |db.instances| ==>
      var row, k := db.instances[db.tasks[s].instance], db.tasks[s];
      && (k.command.Create? ==> k.payload.spec == Some(row.spec))
      && (k.command.Update? || k.command.Delete? ==> k.payload.previousSpec == Some(row.spec))
  }

  predicate KeepsSpecs(d: Deployment, mv: Move) {
    mv.Plane? && mv.action.Retry? ==> CurrentRetry(d.node.db, mv.action.task)
  }

  // ----- Every move keeps it -----

  lemma QuietKeepsSpecs(cfg: Config, acfg: AgentConfig, d: Deployment, a: Action)
    requires SpecAgreement(acfg, d) && OnlyDelivers(a)
    ensures SpecAgreement(acfg, Deployment(Next(cfg, d.node, a), d.agent, d.commands + Published(d.node, a), d.events))
  {
    var db, after := d.node.db, Next(cfg, d.node, a).db;
    QuietStepAgrees(cfg, acfg, d, a);
    DeliveryKeepsRows(cfg, d.node, a);
    forall m | m in d.commands + Published(d.node, a) ensures SpecCommandOk(after, m) {
      if m in d.commands {
        assert SpecCommandOk(db, m);
      } else {
        assert LinkOk(db, d.node.batch[0].id) && CommandOk(after, m);
      }
    }
    forall i | 0 <= i < |after.instances| ensures SpecOk(after, d.agent, i) {
      assert SpecOk(db, d.agent, i);
    }
  }

  lemma RequestedSpecOk(acfg: AgentConfig, d: Deployment, a: Action, after: Db)
    requires SpecAgreement(acfg, d) && CreatesTask(a) && Guards(d.node.db, a)
    requires Target(d.node.db, a) <= |d.node.db.instances|
    requires Submits(d.node.db, a, after) && (a.Retry? ==> CurrentRetry(d.node.db, a.task))
    ensures Target(d.node.db, a) < |after.instances| && SpecOk(after, d.agent, Target(d.node.db, a))
  {
    var db, i := d.node.db, Target(d.node.db, a);
    if a.Create? {
      assert RecordOf(d.agent, i).None?;
    } else {
      NoActiveTaskMeansSettled(db, i);
      assert SpecOk(db, d.agent, i);
    }
    if a.Retry? {
      assert TaskOk(db, a.task);
    }
  }

  lemma SubmissionKeepsSpecs(acfg: AgentConfig, d: Deployment, a: Action, after: Db)
    requires SpecAgreement(acfg, d) && CreatesTask(a) && Guards(d.node.db, a)
    requires Target(d.node.db, a) <= |d.node.db.instances|
    requires Submits(d.node.db, a, after) && Inv(after) && (a.Retry? ==> CurrentRetry(d.node.db, a.task))
    ensures SpecAgreement(acfg, d.(node := d.node.(db := after)))
  {
    var db := d.node.db;
    SubmissionAgrees(acfg, d, a, after);
    RequestedSpecOk(acfg, d, a, after);
    forall i | 0 <= i < |after.instances| ensures SpecOk(after, d.agent, i) {
      if i != Target(db, a) {
        assert SpecOk(db, d.agent, i);
      }
    }
    forall m | m in d.commands ensures SpecCommandOk(after, m) {
      assert SpecCommandOk(db, m) && CommandOk(after, m);
    }
  }

  lemma RequestKeepsSpecs(cfg: Config, acfg: AgentConfig, d: Deployment, a: Action)
    requires SpecAgreement(acfg, d) && CreatesTask(a) && (a.Retry? ==> CurrentRetry(d.node.db, a.task))
    ensures SpecAgreement(acfg, d.(node := d.node.(db := Protocol.Handle(cfg, d.node.db, a).db)))
  {
    if Guards(d.node.db, a) && CheckPasses(d.node.db, a) {
      AcceptedSubmits(cfg, d.node.db, a);
      RequestKeepsInv(cfg, d.node.db, a);
      SubmissionKeepsSpecs(acfg, d, a, Protocol.Handle(cfg, d.node.db, a).db);
    } else {
      NormalForm(cfg, d.node.db, a);
    }
  }

  /** A first delivery: the instance's own spec stays in step, the others do not notice. */
  lemma DeliveredSpecOk(acfg: AgentConfig, d: Deployment, w: World, m: Message, i: nat)
    requires SpecAgreement(acfg, d) && FirstDelivery(d, w, m) && SpecCommandOk(d.node.db, m)
    requires i < |d.node.db.instances|
    requires SpecEffect(m, d.node.db.tasks[m.task].command, RecordOf(d.agent, m.payload.instance),
                        RecordOf(w, m.payload.instance), w.replies[m.request.value].success)
    ensures SpecOk(d.node.db, w, i)
  {
    var db, row := d.node.db, d.node.db.instances[i];
    assert SpecOk(db, d.agent, i);
    DeliveredTaskIsActive(acfg, d, w, m);
    if Pending(row.status) && db.tasks[row.lastTask.value].request == m.request.value {
      RequestsDiffer(db, row.lastTask.value, m.task);
      PendingIffActiveTask(db, i);
    }
  }

  lemma DeliveryKeepsSpecs(acfg: AgentConfig, d: Deployment, m: Message, s: Schedule, stamp: int)
    requires SpecAgreement(acfg, d) && m in d.commands && m.request.Some? && m.request.value !in d.agent.replies
    requires StoreOk(s)
    ensures var h := Agent.Handle(acfg, d.agent, m, s);
            SpecAgreement(acfg, Deployment(d.node, h.world, d.commands,
                                           d.events + {FinalEvent(m, h.response, h.attempts, stamp)}))
  {
    var db, h := d.node.db, Agent.Handle(acfg, d.agent, m, s);
    DeliveryAgrees(acfg, d, m, s, stamp);
    DeliveryHasEffect(acfg, d, m, s);
    assert SpecCommandOk(db, m);
    AttemptsSpec(acfg, m, VmOf(d.agent, m.payload.instance), s, 1, db.tasks[m.task].command);
    forall i | 0 <= i < |db.instances| ensures SpecOk(db, h.world, i) {
      DeliveredSpecOk(acfg, d, h.world, m, i);
    }
    assert TaskOk(db, m.task);
  }

  lemma ReportedSpecOk(acfg: AgentConfig, d: Deployment, e: Event)
    requires SpecAgreement(acfg, d) && e in d.events && Live(d.node.db, e)
    ensures var i := d.node.db.tasks[e.task].instance;
            i < |ProcessEvent(d.node.db, e).instances| && SpecOk(ProcessEvent(d.node.db, e), d.agent, i)
  {
    var db := d.node.db;
    assert EventOk(db, d.agent, e) && TaskOk(db, e.task) && SpecOk(db, d.agent, db.tasks[e.task].instance);
  }

  lemma UnreportedSpecOk(acfg: AgentConfig, d: Deployment, e: Event, i: nat)
    requires SpecAgreement(acfg, d) && Live(d.node.db, e) && i < |d.node.db.instances|
    requires i != d.node.db.tasks[e.task].instance
    ensures i < |ProcessEvent(d.node.db, e).instances| && SpecOk(ProcessEvent(d.node.db, e), d.agent, i)
  {
    var db := d.node.db;
    assert SpecOk(db, d.agent, i);
    if Pending(db.instances[i].status) {
      PendingIffActiveTask(db, i);
    }
  }

  lemma ReportKeepsSpecs(acfg: AgentConfig, d: Deployment, e: Event)
    requires SpecAgreement(acfg, d) && e in d.events
    ensures SpecAgreement(acfg, d.(node := d.node.(db := ProcessEvent(d.node.db, e))))
  {
    var db, after := d.node.db, ProcessEvent(d.node.db, e);
    ReportAgrees(acfg, d, e);
    if Live(db, e) {
      ReportedSpecOk(acfg, d, e);
      forall i | 0 <= i < |after.instances| ensures SpecOk(after, d.agent, i) {
        if i != db.tasks[e.task].instance {
          UnreportedSpecOk(acfg, d, e, i);
        }
      }
      forall m | m in d.commands ensures SpecCommandOk(after, m) {
        assert SpecCommandOk(db, m);
      }
    }
  }

  lemma AnnounceKeepsSpecs(acfg: AgentConfig, d: Deployment, m: Message, stamp: int)
    requires SpecAgreement(acfg, d) && m in d.commands && m.request.Some?
    ensures SpecAgreement(acfg, d.(events := d.events + {RunningEvent(m, stamp)}))
  {
    AnnounceAgrees(acfg, d, m, stamp);
  }

  lemma RepeatKeepsSpecs(acfg: AgentConfig, d: Deployment, m: Message, s: Schedule, stamp: int)
    requires SpecAgreement(acfg, d) && m in d.commands && m.request.Some? && m.request.value in d.agent.replies
    ensures var h := Agent.Handle(acfg, d.agent, m, s);
            SpecAgreement(acfg, Deployment(d.node, h.world, d.commands,
                                           d.events + {FinalEvent(m, h.response, h.attempts, stamp)}))
  {
    RepeatAgrees(acfg, d, m, s, stamp);
  }

  lemma PlaneKeepsSpecs(cfg: Config, acfg: AgentConfig, d: Deployment, a: Action)
    requires SpecAgreement(acfg, d) && Allowed(Plane(a)) && (a.Retry? ==> CurrentRetry(d.node.db, a.task))
    ensures SpecAgreement(acfg, Deployment(Next(cfg, d.node, a), d.agent, d.commands + Published(d.node, a), d.events))
  {
    if OnlyDelivers(a) {
      QuietKeepsSpecs(cfg, acfg, d, a);
    } else {
      RequestKeepsSpecs(cfg, acfg, d, a);
      assert d.commands + Published(d.node, a) == d.commands;
    }
  }

  lemma MoveKeepsSpecs(cfg: Config, acfg: AgentConfig, d: Deployment, mv: Move)
    requires SpecAgreement(acfg, d) && Allowed(mv) && KeepsSpecs(d, mv)
    ensures SpecAgreement(acfg, Advance(cfg, acfg, d, mv))
  {
    match mv
    case Plane(a) => PlaneKeepsSpecs(cfg, acfg, d, a);
    case Announce(m, stamp) =>
      if m in d.commands && m.request.Some? {
        AnnounceKeepsSpecs(acfg, d, m, stamp);
      }
    case Deliver(m, s, stamp) =>
      if m in d.commands && m.request.Some? {
        if m.request.value in d.agent.replies {
          RepeatKeepsSpecs(acfg, d, m, s, stamp);
        } else {
          DeliveryKeepsSpecs(acfg, d, m, s, stamp);
        }
      }
    case Report(e) =>
      if e in d.events {
        ReportKeepsSpecs(acfg, d, e);
      }
  }

  // ----- Whole runs -----

  /** Every retry of a create, update or delete in the run finds its snapshot current. */
  predicate RetriesAreCurrent(cfg: Config, acfg: AgentConfig, d: Deployment, mvs: seq<Move>) {
    mvs == [] ||
    (RetriesAreCurrent(cfg, acfg, d, mvs[..|mvs| - 1])
     && KeepsSpecs(AdvanceAll(cfg, acfg, d, mvs[..|mvs| - 1]), mvs[|mvs| - 1]))
  }

  lemma {:induction false} RunKeepsSpecs(cfg: Config, acfg: AgentConfig, d: Deployment, mvs: seq<Move>)
    requires SpecAgreement(acfg, d) && RetriesAreCurrent(cfg, acfg, d, mvs)
    requires forall k :: 0 <= k < |mvs| ==> Allowed(mvs[k])
    ensures SpecAgreement(acfg, AdvanceAll(cfg, acfg, d, mvs))
  {
    if mvs != [] {
      var n := |mvs| - 1;
      RunKeepsSpecs(cfg, acfg, d, mvs[..n]);
      MoveKeepsSpecs(cfg, acfg, AdvanceAll(cfg, acfg, d, mvs[..n]), mvs[n]);
    }
  }

  /** In every such run: a running or stopped instance has a state file with the cpu, memory and disk, the status
      and the address that the tables show. */
  lemma {:induction false} SpecsAgreeWithAgent(cfg: Config, acfg: AgentConfig, start: Deployment, mvs: seq<Move>,
      i: nat)
    requires Begins(start) && RetriesAreCurrent(cfg, acfg, start, mvs)
    requires forall k :: 0 <= k < |mvs| ==> Allowed(mvs[k])
    requires i < |AdvanceAll(cfg, acfg, start, mvs).node.db.instances|
    ensures var d := AdvanceAll(cfg, acfg, start, mvs);
            var row := d.node.db.instances[i];
            row.status.Running? || row.status.Stopped? ==>
              VmOf(d.agent, i).record == Some(Record(row.spec.cpu, row.spec.memory, row.spec.disk, row.status,
                  GetOr(row.ip, "")))
  {
    RunKeepsSpecs(cfg, acfg, start, mvs);
    var d := AdvanceAll(cfg, acfg, start, mvs);
    assert RowAgrees(acfg, i, d.node.db.instances[i], RecordOf(d.agent, i)) && SpecOk(d.node.db, d.agent, i);
    assert Legal(acfg, i, RecordOf(d.agent, i));
  }

  /** The condition on retries is the exact one: when a retried create, update or delete of an instance with a
      state file fails, its undo leaves the two in step if and only if the snapshot was current. */
  lemma FailedRetryKeepsSpecIff(cfg: Config, acfg: AgentConfig, d: Deployment, s: nat)
    requires SpecAgreement(acfg, d) && s < |d.node.db.tasks| && RetryTask(cfg, d.node.db, s).reply.Accepted?
    requires RecordOf(d.agent, d.node.db.tasks[s].instance).Some?
    ensures var k, after := d.node.db.tasks[s], RetryTask(cfg, d.node.db, s).db;
            && k.instance < |after.instances|
            && (Matches(RecordOf(d.agent, k.instance), Revert(after.instances[k.instance], k.command, k.payload).spec)
                <==> CurrentRetry(d.node.db, s))
  {
    var db, i := d.node.db, d.node.db.tasks[s].instance;
    RetryUndoKeepsSpecIff(cfg, db, s);
    NoActiveTaskMeansSettled(db, i);
    assert SpecOk(db, d.agent, i);
  }

  lemma RetryUndoKeepsSpecIff(cfg: Config, db: Db, s: nat)
    requires Inv(db) && s < |db.tasks| && RetryTask(cfg, db, s).reply.Accepted?
    ensures var k, after := db.tasks[s], RetryTask(cfg, db, s).db;
            && k.instance < |db.instances| && k.instance < |after.instances| && !HasActiveTask(db.tasks, k.instance)
            && (Revert(after.instances[k.instance], k.command, k.payload).spec == db.instances[k.instance].spec
                <==> CurrentRetry(db, s))
  {
    RetryNormalForm(cfg, db, Retry(s));
    assert TaskOk(db, s);
  }
}
