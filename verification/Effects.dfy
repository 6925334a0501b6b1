/** What each step of the control plane leaves behind, told in the columns it writes: result events, accepted and
    rejected requests, undone creates, quota changes. */
module Effects {
  import opened Model
  import opened Accounting
  import opened ControlPlane
  import opened Protocol
  import opened Requests
  import opened Invariant
  import opened Lifecycle
  import Sweeping

  // ----- Result events -----

  predicate Terminal(s: TaskStatus) {
    s.Succeeded? || s.Failed? || s.Canceled?
  }

  /** A supported event for a task that is not over. */
  predicate Reaches(db: Db, e: Event) {
    && !e.status.Unsupported? && e.task < |db.tasks| && !Terminal(db.tasks[e.task].status)
    && db.tasks[e.task].instance < |db.instances|
  }

  /** The task an event finds and the one it leaves. */
  predicate Told(before: Task, after: Task, e: Event) {
    && (e.status.Failed? ==>
          after == before.(status := TaskStatus.Failed, attempts := Max(e.attempts, 1), errorCode := e.errorCode))
    && (e.status.Canceled? ==>
          && after.status.Canceled? && after.attempts == Max(e.attempts, before.attempts)
          && after.errorCode == (if e.errorCode.Some? && e.errorCode.value != "" then e.errorCode else Some("CANCELED"))
          && SameRequest(after, before))
    && (e.status.Succeeded? ==>
          after == before.(status := TaskStatus.Succeeded, attempts := Max(e.attempts, 1), errorCode := None))
    && (e.status.Running? && before.status.CancelPending? ==> after == before)
    && (e.status.Running? && !before.status.CancelPending? ==>
          after == before.(status := TaskStatus.Running, attempts := Max(e.attempts, 1)))
  }

  /** A result event tells its own task what the agent said, touches at most that task's instance, and does
      nothing at all when it does not reach the task. */
  lemma ResultIsTold(cfg: Config, p: Node, a: Action)
    requires a.Result?
    ensures var e, q := a.event, Next(cfg, p, a);
            && (!Reaches(p.db, e) ==> q == p)
            && (Reaches(p.db, e) ==>
                  && q == p.(db := p.db.(tasks := q.db.tasks, instances := q.db.instances))
                  && |q.db.tasks| == |p.db.tasks| && |q.db.instances| == |p.db.instances|
                  && Told(p.db.tasks[e.task], q.db.tasks[e.task], e)
                  && (forall t :: 0 <= t < |p.db.tasks| && t != e.task ==> q.db.tasks[t] == p.db.tasks[t])
                  && (forall i ::
                        0 <= i < |p.db.instances| && (i != p.db.tasks[e.task].instance || e.status.Running?) ==>
                        q.db.instances[i] == p.db.instances[i]))
  {
  }

  /** A task that is over never changes again, in any column. */
  lemma StepKeepsTerminal(cfg: Config, p: Node, a: Action, t: nat)
    requires Inv(p.db) && t < |p.db.tasks| && Terminal(p.db.tasks[t].status)
    ensures t < |Next(cfg, p, a).db.tasks| && Next(cfg, p, a).db.tasks[t] == p.db.tasks[t]
  {
    if OnlyDelivers(a) {
      DeliveryKeepsRows(cfg, p, a);
    } else {
      match a
      case Cancel(_) =>
      case Result(_) =>
      case Sweep =>
        Sweeping.PickIsQueue(cfg, p.db);
        Sweeping.FailAllEffect(p.db, SweepPick(cfg, p.db));
      case _ => RequestOnlyAppends(cfg, p.db, a);
    }
  }

  lemma {:induction false} RunKeepsTerminal(cfg: Config, p: Node, acts: seq<Action>, t: nat)
    requires Inv(p.db) && LegalRun(acts) && t < |p.db.tasks| && Terminal(p.db.tasks[t].status)
    ensures t < |Run(cfg, p, acts).db.tasks| && Run(cfg, p, acts).db.tasks[t] == p.db.tasks[t]
  {
    if acts != [] {
      var n := |acts| - 1;
      assert LegalRun(acts[..n]);
      RunKeepsInv(cfg, p, acts[..n]);
      RunKeepsTerminal(cfg, p, acts[..n], t);
      StepKeepsTerminal(cfg, Run(cfg, p, acts[..n]), acts[n], t);
    }
  }

  /** What a final event that reached its task said, the task shows ever after, whatever comes later. */
  lemma {:induction false} FinalResultStands(cfg: Config, p: Node, a: Action, acts: seq<Action>)
    requires Inv(p.db) && a.Result? && LegalRun([a] + acts) && Reaches(p.db, a.event) && !a.event.status.Running?
    ensures a.event.task < |Run(cfg, p, [a] + acts).db.tasks|
    ensures Told(p.db.tasks[a.event.task], Run(cfg, p, [a] + acts).db.tasks[a.event.task], a.event)
  {
    assert ([a] + acts)[0] == a;
    assert forall k :: 0 <= k < |acts| ==> acts[k] == ([a] + acts)[k + 1];
    ResultIsTold(cfg, p, a);
    StepKeepsInv(cfg, p, a);
    RunCons(cfg, p, a, acts);
    RunKeepsTerminal(cfg, Next(cfg, p, a), acts, a.event.task);
  }

  /** Which events are applied, ignored, delivered again, or put aside: an unknown task may still be on its way for
      a minute. Only an applied event changes anything, and in reachable states only unsupported ones are put aside. */
  lemma OutcomeTells(db: Db, e: Event)
    ensures var known, o := e.task < |db.tasks|, EventOutcomeOf(db, e);
            && (o.Applied? <==> Reaches(db, e))
            && (o.Requeue? <==> !e.status.Unsupported? && !known && db.now < e.timestamp + 60)
            && (o.Ignored? <==>
                  && !e.status.Unsupported?
                  && (!known ==> db.now >= e.timestamp + 60) && (known ==> Terminal(db.tasks[e.task].status)))
            && (!o.Applied? ==> ProcessEvent(db, e) == db)
            && (Inv(db) ==> (o.DeadLetter? <==> e.status.Unsupported?))
  {
    if Inv(db) && e.task < |db.tasks| {
      assert TaskOk(db, e.task);
    }
  }

  // ----- Requests -----

  /** What an accepted request commits. The row keeps every column its command does not set. */
  lemma AcceptedRequestCommits(cfg: Config, p: Node, a: Action)
    requires Inv(p.db) && CreatesTask(a) && Guards(p.db, a) && CheckPasses(p.db, a)
    ensures var db, q, i, t, c := p.db, Next(cfg, p, a), Target(p.db, a), |p.db.tasks|, CommandOf(p.db, a);
            && Handle(cfg, db, a).reply == Accepted(t, i, c, TaskStatus.Queued)
            && q == p.(db := db.(instances := q.db.instances, tasks := q.db.tasks, outbox := q.db.outbox,
                                 nextRequest := db.nextRequest + 1))
            && q.db.tasks == db.tasks
                 + [Task(i, c, TaskStatus.Queued, db.nextRequest, PayloadOf(db, a), 0, db.now,
                         if a.Retry? then Some(a.task) else None, None)]
            && q.db.outbox == db.outbox
                 + [OutboxRow(Lifecycle(c), t, db.nextRequest, MessageOf(db, a), OutboxStatus.Queued, 0,
                              AtLeastOne(cfg.outboxMaxAttempts), db.now, None, None, None, db.now)]
            && (a.Create? ==>
                  q.db.instances == db.instances
                    + [Instance(a.tenant, a.name, a.spec, CreatingPending, None, a.host, true, Some(t), None)])
            && (!a.Create? ==>
                  q.db.instances == db.instances[i := RequestedRow(db.instances[i], c, PayloadOf(db, a), t)])
  {
    var i := Target(p.db, a);
    RequestStep(cfg, p, a);
    NormalForm(cfg, p.db, a);
    EnqueueInserts(cfg, p.db, Lifecycle(CommandOf(p.db, a)), MessageOf(p.db, a), |p.db.tasks|);
    if !a.Create? {
      NoActiveTaskMeansSettled(p.db, i);
      SubmissionIsFresh(p.db, a);
    }
  }

  /** A row under request: pending, owned by its task, reserved unless it is to be deleted; only create and update
      bring a spec, and only create drops the address. */
  function RequestedRow(row: Instance, c: Command, payload: RequestPayload, t: nat): Instance {
    row.(spec := if payload.spec.Some? then payload.spec.value else row.spec,
         status := PendingStatus(c),
         ip := if c.Create? then None else row.ip,
         reserve := !c.Delete?,
         lastTask := Some(t))
  }

  /** Why a request was rejected; a retry never fails on its payload. */
  lemma RejectionTellsWhy(cfg: Config, p: Node, a: Action)
    requires Inv(p.db) && CreatesTask(a) && !(Guards(p.db, a) && CheckPasses(p.db, a))
    ensures var db, i := p.db, Target(p.db, a);
            var found := (a.Retry? ==> a.task < |db.tasks|) && (!a.Create? ==> i < |db.instances|);
            && Next(cfg, p, a) == p && Handle(cfg, db, a).reply.Rejected?
            && var e := Handle(cfg, db, a).reply.error;
            && (e.NotFound? <==> !found)
            && (e.Conflict? ==> found && !a.Create? && HasActiveTask(db.tasks, i))
            && (e.Validation? ==> found && !SoundRequest(db, a))
            && (e.TenantInactive? ==> TenantOf(db, a) in db.tenants && !db.tenants[TenantOf(db, a)])
            && (e.QuotaExceeded? || e.TenantInactive? || e.CapacityExceeded? ==>
                  found && SoundRequest(db, a) && CheckOf(db, a).Some? && (!a.Create? ==> !HasActiveTask(db.tasks, i))
                  && (AssertQuota(db.instances, db.tenants, db.quotas, TenantOf(db, a), CheckOf(db, a).value).Some?
                      <==> !e.CapacityExceeded?)
                  && (e.CapacityExceeded? ==>
                        AssertCapacity(db.instances, db.capacity, HostOf(db, a), CheckOf(db, a).value).Some?))
            && !e.MalformedPayload? && !e.QuotaConflict?
  {
    RequestStep(cfg, p, a);
    NormalForm(cfg, p.db, a);
    if a.Retry? && a.task < |p.db.tasks| {
      assert TaskOk(p.db, a.task);
    }
  }

  /** The statuses and sizes a request may ask for. */
  predicate SoundRequest(db: Db, a: Action)
    requires CreatesTask(a) && (a.Retry? ==> a.task < |db.tasks|) && (!a.Create? ==> Target(db, a) < |db.instances|)
  {
    && (a.Create? || a.Update? ==> a.spec.cpu > 0 && a.spec.memory > 0 && a.spec.disk > 0)
    && (a.Retry? ==> db.tasks[a.task].status.Failed? || db.tasks[a.task].status.Canceled?)
    && (a.Start? || a.Stop? ==>
          db.instances[Target(db, a)].status.Running? || db.instances[Target(db, a)].status.Stopped?)
    && (!a.Create? ==> !db.instances[Target(db, a)].status.Deleted?)
  }

  // ----- Undone creates -----

  /** A create that fails or is canceled, first attempt or retry, by whatever step: its instance is in `error`, owns
      nothing, and gives back exactly what it had reserved. */
  lemma FailedCreateReleasesEverything(cfg: Config, p: Node, a: Action, t: nat)
    requires Inv(p.db) && InFlight(p.db, t) && p.db.tasks[t].command.Create?
    requires FailedOrCanceled(Next(cfg, p, a).db, t)
    ensures p.db.tasks[t].instance < |p.db.instances| && p.db.tasks[t].instance < |Next(cfg, p, a).db.instances|
    ensures var i, q := p.db.tasks[t].instance, Next(cfg, p, a).db;
            && q.instances[i] == p.db.instances[i].(status := Error, reserve := false, lastTask := None, ip := None)
            && RowUsage(q.instances[i]) == NO_USAGE
  {
    StepFollowsTask(cfg, p, a, t);
    assert TaskOk(p.db, t) && RowOk(p.db, p.db.tasks[t].instance);
  }

  // ----- Quota changes -----

  /** A quota is replaced exactly when the tenant is known and uses no more than the new quota; nothing else
      changes, and otherwise nothing at all. */
  lemma QuotaChangesIff(cfg: Config, p: Node, a: Action)
    requires a.ChangeQuota?
    ensures var used, known := TenantUsage(p.db.instances, a.tenant), a.tenant in p.db.tenants;
            var fits := && used.instances <= a.quota.instances && used.cpu <= a.quota.cpu
                        && used.memory <= a.quota.memory && used.disk <= a.quota.disk;
            && (known && fits ==> Next(cfg, p, a) == p.(db := p.db.(quotas := p.db.quotas[a.tenant := a.quota])))
            && (!(known && fits) ==> Next(cfg, p, a) == p)
            && SetQuota(p.db, a.tenant, a.quota).1
               == if !known then Some(NotFound) else if fits then None else Some(QuotaConflict)
  {
  }
}
