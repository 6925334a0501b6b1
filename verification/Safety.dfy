/** Quota and capacity safety: what each step does to the recomputed usage, and which steps no check covers. */
module Safety {
  import opened Model
  import opened Accounting
  import opened ControlPlane
  import opened Outbox
  import opened Protocol
  import opened Requests
  import opened Invariant
  import opened Sweeping
  import opened Lifecycle

  /** What row `i` counts for in the views; nothing when it is about to be inserted. */
  function UsageAt(db: Db, i: nat): Usage {
    if i < |db.instances| then RowUsage(db.instances[i]) else NO_USAGE
  }

  // ----- How a write is covered -----

  /** The check charged exactly what the views counted before and count now. */
  predicate ChargedExactly(c: Check, prior: Usage, next: Usage) {
    Charge(c.current, c.currentProfile) == prior && Charge(Some(c.requested), c.requestedProfile) == next
  }

  /** The check was exact on instances and disk, and cpu and memory did not rise. */
  predicate ChargedDiskExactly(c: Check, prior: Usage, next: Usage) {
    var before, after := Charge(c.current, c.currentProfile), Charge(Some(c.requested), c.requestedProfile);
    && before.instances == prior.instances && before.disk == prior.disk
    && after.instances == next.instances && after.disk == next.disk
    && next.cpu <= prior.cpu && next.memory <= prior.memory
  }

  predicate CoveredBy(c: Option<Check>, prior: Usage, next: Usage) {
    || AtMost(next, prior)
    || (c.Some? && (ChargedExactly(c.value, prior, next) || ChargedDiskExactly(c.value, prior, next)))
  }

  /** Undoing `task` counts more than the row it replaces. */
  predicate RevertRaises(db: Db, t: nat)
    requires t < |db.tasks| && db.tasks[t].instance < |db.instances|
  {
    var row, k := db.instances[db.tasks[t].instance], db.tasks[t];
    || k.command.Delete?
    || (k.command.Update? && !AtMost(RowUsage(Revert(row, k.command, k.payload)), RowUsage(row)))
  }

  /** The requests whose check, if any, does not see what they raise: stop or stop-retry of an instance that does
      not count compute, and update without boot. */
  predicate RaisesUnseen(db: Db, a: Action)
    requires CreatesTask(a) && Guards(db, a)
  {
    match a
    case Stop(i) => !CountsCompute(db.instances[i])
    case Update(i, _, _) => db.instances[i].status.Stopped?
    case Retry(t) =>
      var row, k := db.instances[db.tasks[t].instance], db.tasks[t];
      || (k.command.Stop? && !CountsCompute(row))
      || (k.command.Update? && k.payload.boot == Some(false) && RaisesCompute(row, k))
    case _ => false
  }

  /** The steps that raise usage without a check on what they raise: an accepted request of that kind, and a failed
      delete or shrinking update. */
  predicate Unchecked(cfg: Config, db: Db, a: Action) {
    match a
    case Cancel(t) =>
      t < |db.tasks| && db.tasks[t].instance < |db.instances| && db.tasks[t].status.Queued? && RevertRaises(db, t)
    case Result(e) => Live(db, e) && (e.status.Failed? || e.status.Canceled?) && RevertRaises(db, e.task)
    case Sweep =>
      exists t :: t in SweepPick(cfg, db) && t < |db.tasks| && db.tasks[t].instance < |db.instances|
          && RevertRaises(db, t)
    case _ => CreatesTask(a) && Guards(db, a) && CheckPasses(db, a) && RaisesUnseen(db, a)
  }

  predicate RaisesCompute(row: Instance, k: Task) {
    var spec := GetOr(k.payload.spec, row.spec);
    spec.cpu > Cell(row, CpuSum) || spec.memory > Cell(row, MemorySum)
  }

  /** Every request that passes its guards is covered, unless it raises usage unseen; then it raises it strictly. */
  lemma RequestCovered(db: Db, a: Action)
    requires Inv(db) && CreatesTask(a) && Guards(db, a)
    ensures var prior, next := UsageAt(db, Target(db, a)), RowUsage(WrittenRow(db, a));
            && (!RaisesUnseen(db, a) ==> CoveredBy(CheckOf(db, a), prior, next))
            && (RaisesUnseen(db, a) ==> !AtMost(next, prior))
    ensures CheckOf(db, a).Some? && CheckOf(db, a).value.requestedProfile.RunningProfile? ==>
              ChargedExactly(CheckOf(db, a).value, UsageAt(db, Target(db, a)), RowUsage(WrittenRow(db, a)))
  {
    var i := Target(db, a);
    if i < |db.instances| {
      NoActiveTaskMeansSettled(db, i);
      ProfileAgreesWithViews(db.instances[i]);
    }
    if a.Retry? {
      assert TaskOk(db, a.task);
    }
  }

  // ----- The incremental check computes the recomputed aggregate -----

  /** For create, start of a stopped instance, update of a non-stopped instance and their retries (the
      requests checked under the running profile), the `next_*` values are the view aggregates after the
      write: of the tenant always, of the host when the check names the row's host. */
  lemma CheckComputesTheViews(cfg: Config, db: Db, a: Action)
    requires Inv(db) && CreatesTask(a) && Guards(db, a) && CheckPasses(db, a)
    requires CheckOf(db, a).Some? && CheckOf(db, a).value.requestedProfile.RunningProfile?
    ensures NextUsage(TenantUsage(db.instances, TenantOf(db, a)), CheckOf(db, a).value) ==
            TenantUsage(Handle(cfg, db, a).db.instances, TenantOf(db, a))
    ensures Target(db, a) < |Handle(cfg, db, a).db.instances|
    ensures Handle(cfg, db, a).db.instances[Target(db, a)].host == HostOf(db, a) ==>
              NextUsage(HostUsage(db.instances, HostOf(db, a)), CheckOf(db, a).value) ==
              HostUsage(Handle(cfg, db, a).db.instances, HostOf(db, a))
  {
    NormalForm(cfg, db, a);
    RequestCovered(db, a);
    WrittenRowKeepsOwner(db, a);
    PutMovesTenantUsage(db.instances, Target(db, a), WrittenRow(db, a), TenantOf(db, a));
    PutMovesHostUsage(db.instances, Target(db, a), WrittenRow(db, a), HostOf(db, a));
  }

  lemma WrittenRowKeepsOwner(db: Db, a: Action)
    requires CreatesTask(a) && Guards(db, a)
    ensures WrittenRow(db, a).tenant == TenantOf(db, a)
    ensures a.Create? ==> WrittenRow(db, a).host == HostOf(db, a)
    ensures !a.Create? ==> WrittenRow(db, a).host == db.instances[Target(db, a)].host
    ensures !a.Create? ==> WrittenRow(db, a).tenant == db.instances[Target(db, a)].tenant
  {
  }

  // ----- A covered write keeps the limits -----

  lemma CoveredKeepsQuota(rows: seq<Instance>, i: nat, row: Instance, c: Option<Check>, tenant: nat, q: Quota)
    requires i <= |rows| && (i < |rows| ==> rows[i].tenant == row.tenant)
    requires CoveredBy(c, if i < |rows| then RowUsage(rows[i]) else NO_USAGE, RowUsage(row))
    requires FitsQuota(TenantUsage(rows, tenant), q)
    requires c.Some? && row.tenant == tenant ==> FitsQuota(NextUsage(TenantUsage(rows, tenant), c.value), q)
    ensures FitsQuota(TenantUsage(Put(rows, i, row), tenant), q)
  {
    PutMovesTenantUsage(rows, i, row, tenant);
  }

  lemma CoveredKeepsCapacity(rows: seq<Instance>, i: nat, row: Instance, c: Option<Check>, host: string, total: Spec)
    requires i <= |rows| && (i < |rows| ==> rows[i].host == row.host)
    requires CoveredBy(c, if i < |rows| then RowUsage(rows[i]) else NO_USAGE, RowUsage(row))
    requires FitsCapacity(HostUsage(rows, host), total)
    requires c.Some? && row.host == host ==> FitsCapacity(NextUsage(HostUsage(rows, host), c.value), total)
    ensures FitsCapacity(HostUsage(Put(rows, i, row), host), total)
  {
    PutMovesHostUsage(rows, i, row, host);
  }

  ghost predicate WithinQuotas(db: Db) {
    forall t :: t in db.quotas ==> FitsQuota(TenantUsage(db.instances, t), db.quotas[t])
  }

  ghost predicate WithinCapacity(db: Db) {
    forall h :: h in db.capacity ==> FitsCapacity(HostUsage(db.instances, h), db.capacity[h])
  }

  /** All tenant quotas, and on demand the capacity of every host. */
  ghost predicate Limits(db: Db, hosts: bool) {
    WithinQuotas(db) && (hosts ==> WithinCapacity(db))
  }

  /** A request whose capacity check is on the host of the row it writes. */
  predicate NamesRowHost(db: Db, a: Action) {
    CreatesTask(a) && Guards(db, a) && CheckOf(db, a).Some? ==> HostOf(db, a) == WrittenRow(db, a).host
  }

  lemma RequestKeepsLimits(cfg: Config, db: Db, a: Action, hosts: bool)
    requires Inv(db) && CreatesTask(a) && !Unchecked(cfg, db, a)
    requires Limits(db, hosts) && (hosts ==> NamesRowHost(db, a))
    ensures Limits(Handle(cfg, db, a).db, hosts)
  {
    NormalForm(cfg, db, a);
    if Guards(db, a) && CheckPasses(db, a) {
      RequestCovered(db, a);
      CoveredRequestKeepsLimits(db, Handle(cfg, db, a).db, a, hosts);
    }
  }

  lemma CoveredRequestKeepsLimits(db: Db, after: Db, a: Action, hosts: bool)
    requires CreatesTask(a) && Guards(db, a) && Limits(db, hosts)
    requires Target(db, a) <= |db.instances|
    requires after.instances == Put(db.instances, Target(db, a), WrittenRow(db, a))
    requires after.quotas == db.quotas && after.capacity == db.capacity
    requires CoveredBy(CheckOf(db, a), UsageAt(db, Target(db, a)), RowUsage(WrittenRow(db, a)))
    requires CheckPasses(db, a) && (hosts ==> NamesRowHost(db, a))
    ensures Limits(after, hosts)
  {
    WrittenRowKeepsOwner(db, a);
    var i, row, c := Target(db, a), WrittenRow(db, a), CheckOf(db, a);
    forall t | t in after.quotas ensures FitsQuota(TenantUsage(after.instances, t), after.quotas[t]) {
      CoveredKeepsQuota(db.instances, i, row, c, t, db.quotas[t]);
    }
    if hosts {
      forall h | h in after.capacity ensures FitsCapacity(HostUsage(after.instances, h), after.capacity[h]) {
        CoveredKeepsCapacity(db.instances, i, row, c, h, db.capacity[h]);
      }
    }
  }

  // ----- Failure routes and results -----

  /** Terminal writes never raise usage, except by undoing a delete or a shrinking update. */
  lemma FinishKeepsLimits(db: Db, t: nat, task: Task, row: Instance, hosts: bool)
    requires Settles(db, t, task, row) && Limits(db, hosts)
    requires row.tenant == db.instances[db.tasks[t].instance].tenant
    requires AtMost(RowUsage(row), RowUsage(db.instances[db.tasks[t].instance]))
    ensures Limits(Finish(db, t, task, row), hosts)
  {
    var i, after := db.tasks[t].instance, Finish(db, t, task, row);
    forall q | q in after.quotas ensures FitsQuota(TenantUsage(after.instances, q), after.quotas[q]) {
      CoveredKeepsQuota(db.instances, i, row, None, q, db.quotas[q]);
    }
    if hosts {
      forall h | h in after.capacity ensures FitsCapacity(HostUsage(after.instances, h), after.capacity[h]) {
        CoveredKeepsCapacity(db.instances, i, row, None, h, db.capacity[h]);
      }
    }
  }

  /** What undoing does to the count of an active task's row: it rises exactly when `RevertRaises` says so. */
  lemma RevertUsage(db: Db, t: nat)
    requires Inv(db) && t < |db.tasks| && Active(db.tasks[t].status)
    ensures db.tasks[t].instance < |db.instances|
    ensures var row, k := db.instances[db.tasks[t].instance], db.tasks[t];
            RevertRaises(db, t) <==> !AtMost(RowUsage(Revert(row, k.command, k.payload)), RowUsage(row))
  {
    assert TaskOk(db, t);
    assert RowOk(db, db.tasks[t].instance);
  }

  lemma RevertKeepsLimits(db: Db, t: nat, task: Task, hosts: bool)
    requires Inv(db) && Limits(db, hosts) && t < |db.tasks| && Active(db.tasks[t].status)
    requires SameRequest(task, db.tasks[t]) && !Active(task.status)
    requires db.tasks[t].instance < |db.instances| && !RevertRaises(db, t)
    ensures Limits(Finish(db, t, task, Revert(db.instances[db.tasks[t].instance], task.command, task.payload)), hosts)
  {
    RevertSettles(db, t, task);
    RevertUsage(db, t);
    FinishKeepsLimits(db, t, task, Revert(db.instances[db.tasks[t].instance], task.command, task.payload), hosts);
  }

  lemma CancelKeepsLimits(cfg: Config, db: Db, t: nat, hosts: bool)
    requires Inv(db) && Limits(db, hosts) && !Unchecked(cfg, db, Cancel(t))
    ensures Limits(CancelTask(cfg, db, t).db, hosts)
  {
    if t < |db.tasks| && db.tasks[t].instance < |db.instances| && db.tasks[t].status.Queued? {
      RevertKeepsLimits(db, t, db.tasks[t].(status := TaskStatus.Canceled, errorCode := Some("CANCELED")), hosts);
    }
  }

  lemma SuccessNeverRaises(db: Db, e: Event)
    requires Inv(db) && LegalEvent(e) && Live(db, e) && e.status.Succeeded?
    ensures var k := db.tasks[e.task];
            AtMost(RowUsage(Succeed(db.instances[k.instance], k, e.task, e, db.now)),
                RowUsage(db.instances[k.instance]))
  {
    assert TaskOk(db, e.task);
    assert RowOk(db, db.tasks[e.task].instance);
  }

  lemma EventKeepsLimits(cfg: Config, db: Db, e: Event, hosts: bool)
    requires Inv(db) && LegalEvent(e) && Limits(db, hosts) && !Unchecked(cfg, db, Result(e))
    ensures Limits(ProcessEvent(db, e), hosts)
  {
    if Live(db, e) {
      var t, k := e.task, db.tasks[e.task];
      var row := db.instances[k.instance];
      if e.status.Running? {
        assert db.instances[k.instance := row] == db.instances;
      } else if e.status.Succeeded? {
        SuccessNeverRaises(db, e);
        assert RowOk(db, k.instance) && TaskOk(db, t);
        FinishKeepsLimits(db, t, EventTask(k, e), EventRow(row, k, t, e, db.now), hosts);
      } else {
        RevertKeepsLimits(db, t, EventTask(k, e), hosts);
      }
    }
  }

  lemma {:induction false} FailAllKeepsLimits(db: Db, ids: seq<nat>, hosts: bool)
    requires Inv(db) && Limits(db, hosts) && Queue(db, ids)
    requires forall t :: t in ids ==> t < |db.tasks| && db.tasks[t].instance < |db.instances| && !RevertRaises(db, t)
    ensures Limits(FailAll(db, ids), hosts)
  {
    if ids != [] {
      var front, t := ids[..|ids| - 1], ids[|ids| - 1];
      assert forall k :: k in front ==> k in ids;
      FailAllKeepsLimits(db, front, hosts);
      FailAllEffect(db, front);
      FailAllKeepsInv(db, front);
      var mid := FailAll(db, front);
      assert t in ids && t !in front;
      assert TaskOk(db, t);
      assert mid.tasks[t] == db.tasks[t] && mid.instances[db.tasks[t].instance] == db.instances[db.tasks[t].instance];
      RevertKeepsLimits(mid, t, TimedOut(mid.tasks[t]), hosts);
    }
  }

  lemma SweepKeepsLimits(cfg: Config, db: Db, hosts: bool)
    requires Inv(db) && Limits(db, hosts) && !Unchecked(cfg, db, Sweep)
    ensures Limits(SweepOnce(cfg, db), hosts)
  {
    PickIsQueue(cfg, db);
    forall t | t in SweepPick(cfg, db)
      ensures t < |db.tasks| && db.tasks[t].instance < |db.instances| && !RevertRaises(db, t)
    {
      assert TaskOk(db, t);
    }
    FailAllKeepsLimits(db, SweepPick(cfg, db), hosts);
  }

  /** A quota is only ever lowered to what current usage fits. */
  lemma QuotaChangeKeepsLimits(db: Db, tenant: nat, q: Quota, hosts: bool)
    requires Limits(db, hosts)
    ensures Limits(SetQuota(db, tenant, q).0, hosts)
  {
  }

  // ----- Safety over runs -----

  lemma QuietStepKeepsLimits(cfg: Config, p: Node, a: Action, hosts: bool)
    requires OnlyDelivers(a) && Limits(p.db, hosts)
    ensures Limits(Next(cfg, p, a).db, hosts)
  {
    DeliveryKeepsRows(cfg, p, a);
    if a.ChangeQuota? {
      QuotaChangeKeepsLimits(p.db, a.tenant, a.quota, hosts);
    }
  }

  lemma StepKeepsLimits(cfg: Config, p: Node, a: Action, hosts: bool)
    requires Inv(p.db) && Limits(p.db, hosts) && (hosts ==> NamesRowHost(p.db, a))
    requires (a.Result? ==> LegalEvent(a.event)) && !Unchecked(cfg, p.db, a)
    ensures Limits(Next(cfg, p, a).db, hosts)
  {
    if OnlyDelivers(a) {
      QuietStepKeepsLimits(cfg, p, a, hosts);
    } else {
      match a
      case Cancel(t) => CancelKeepsLimits(cfg, p.db, t, hosts);
      case Result(e) => EventKeepsLimits(cfg, p.db, e, hosts);
      case Sweep => SweepKeepsLimits(cfg, p.db, hosts);
      case _ => RequestKeepsLimits(cfg, p.db, a, hosts);
    }
  }

  predicate AllChecked(cfg: Config, p: Node, acts: seq<Action>) {
    acts == [] ||
    (AllChecked(cfg, p, acts[..|acts| - 1]) && !Unchecked(cfg, Run(cfg, p, acts[..|acts| - 1]).db, acts[|acts| - 1]))
  }

  /** Every checked request of the run names the host of the row it writes. */
  predicate AllNameRowHosts(cfg: Config, p: Node, acts: seq<Action>) {
    acts == [] ||
    (AllNameRowHosts(cfg, p, acts[..|acts| - 1]) && NamesRowHost(Run(cfg, p, acts[..|acts| - 1]).db, acts[|acts| - 1]))
  }

  lemma {:induction false} RunKeepsLimits(cfg: Config, p: Node, acts: seq<Action>, hosts: bool)
    requires Inv(p.db) && Limits(p.db, hosts) && LegalRun(acts) && AllChecked(cfg, p, acts)
    requires hosts ==> AllNameRowHosts(cfg, p, acts)
    ensures Limits(Run(cfg, p, acts).db, hosts)
  {
    if acts != [] {
      var n := |acts| - 1;
      assert LegalRun(acts[..n]);
      RunKeepsLimits(cfg, p, acts[..n], hosts);
      RunKeepsInv(cfg, p, acts[..n]);
      StepKeepsLimits(cfg, Run(cfg, p, acts[..n]), acts[n], hosts);
    }
  }

  /** Every run that takes no unchecked step keeps all four quotas of every tenant, through quota changes,
      results, cancellations, retries and sweeps; and the three capacities of every host too, when each checked
      request names the host of the row it writes. */
  lemma {:induction false} CheckedRunsKeepLimits(cfg: Config, p: Node, acts: seq<Action>)
    requires Inv(p.db) && WithinQuotas(p.db) && LegalRun(acts) && AllChecked(cfg, p, acts)
    ensures WithinQuotas(Run(cfg, p, acts).db)
    ensures WithinCapacity(p.db) && AllNameRowHosts(cfg, p, acts) ==> WithinCapacity(Run(cfg, p, acts).db)
  {
    RunKeepsLimits(cfg, p, acts, WithinCapacity(p.db) && AllNameRowHosts(cfg, p, acts));
  }

  // ----- One host: every request names the host of its row -----

  /** A deployment with one host: every row and every task names it. */
  ghost predicate SingleHost(db: Db, host: string) {
    && (forall i :: 0 <= i < |db.instances| ==> db.instances[i].host == host)
    && (forall t :: 0 <= t < |db.tasks| ==> db.tasks[t].payload.host == Some(host))
  }

  predicate OnHost(a: Action, host: string) {
    match a
    case Create(_, _, _, h, _) => h == host
    case Start(_, h) => h == host
    case Update(_, _, h) => h == host
    case _ => true
  }

  lemma RequestStaysOnHost(cfg: Config, db: Db, a: Action, host: string)
    requires CreatesTask(a) && SingleHost(db, host) && OnHost(a, host)
    ensures SingleHost(Handle(cfg, db, a).db, host) && NamesRowHost(db, a)
  {
    NormalForm(cfg, db, a);
    if Guards(db, a) {
      WrittenRowKeepsOwner(db, a);
      assert PayloadOf(db, a).host == Some(host);
    }
  }

  lemma {:induction false} FailAllStaysOnHost(db: Db, ids: seq<nat>, host: string)
    requires SingleHost(db, host)
    ensures SingleHost(FailAll(db, ids), host)
  {
    if ids != [] {
      FailAllStaysOnHost(db, ids[..|ids| - 1], host);
    }
  }

  lemma CancelStaysOnHost(cfg: Config, db: Db, t: nat, host: string)
    requires SingleHost(db, host)
    ensures SingleHost(CancelTask(cfg, db, t).db, host)
  {
  }

  lemma EventStaysOnHost(db: Db, e: Event, host: string)
    requires SingleHost(db, host)
    ensures SingleHost(ProcessEvent(db, e), host)
  {
  }

  lemma StepStaysOnHost(cfg: Config, p: Node, a: Action, host: string)
    requires SingleHost(p.db, host) && OnHost(a, host)
    ensures SingleHost(Next(cfg, p, a).db, host)
  {
    if OnlyDelivers(a) {
      DeliveryKeepsRows(cfg, p, a);
    } else {
      match a
      case Cancel(t) => CancelStaysOnHost(cfg, p.db, t, host);
      case Result(e) => EventStaysOnHost(p.db, e, host);
      case Sweep => FailAllStaysOnHost(p.db, SweepPick(cfg, p.db), host);
      case _ => RequestStaysOnHost(cfg, p.db, a, host);
    }
  }

  lemma {:induction false} SingleHostRuns(cfg: Config, p: Node, acts: seq<Action>, host: string)
    requires SingleHost(p.db, host) && forall k :: 0 <= k < |acts| ==> OnHost(acts[k], host)
    ensures SingleHost(Run(cfg, p, acts).db, host) && AllNameRowHosts(cfg, p, acts)
  {
    if acts != [] {
      var n := |acts| - 1;
      var mid := Run(cfg, p, acts[..n]);
      SingleHostRuns(cfg, p, acts[..n], host);
      StepStaysOnHost(cfg, mid, acts[n], host);
      if CreatesTask(acts[n]) {
        RequestStaysOnHost(cfg, mid.db, acts[n], host);
      }
    }
  }

  /** So a one-host deployment keeps its host's capacity along every checked run. */
  lemma {:induction false} SingleHostKeepsCapacity(cfg: Config, p: Node, acts: seq<Action>, host: string)
    requires Inv(p.db) && WithinQuotas(p.db) && WithinCapacity(p.db) && LegalRun(acts) && AllChecked(cfg, p, acts)
    requires SingleHost(p.db, host) && forall k :: 0 <= k < |acts| ==> OnHost(acts[k], host)
    ensures WithinCapacity(Run(cfg, p, acts).db) && SingleHost(Run(cfg, p, acts).db, host)
  {
    SingleHostRuns(cfg, p, acts, host);
    CheckedRunsKeepLimits(cfg, p, acts);
  }

  // ----- Exactly when the other steps keep the limits -----

  /** What an instance with `spec` counts for while it is reserved and not stopped. */
  function Full(spec: Spec): Usage {
    Usage(1, spec.cpu, spec.memory, spec.disk)
  }

  function Moved(used: Usage, here: bool, prior: Usage, next: Usage): Usage {
    if here then Plus(Minus(used, prior), next) else used
  }

  /** Every accepted request moves the usage of the tenant and of the host of the row it writes by the difference
      of the two rows, and nobody else's. */
  lemma RequestMovesUsage(cfg: Config, db: Db, a: Action, tenant: nat, host: string)
    requires CreatesTask(a) && Handle(cfg, db, a).reply.Accepted?
    ensures Guards(db, a) && CheckPasses(db, a)
    ensures var i, row, after := Target(db, a), WrittenRow(db, a), Handle(cfg, db, a).db.instances;
            && i < |after| && after[i] == row
            && TenantUsage(after, tenant) ==
               Moved(TenantUsage(db.instances, tenant), row.tenant == tenant, UsageAt(db, i), RowUsage(row))
            && HostUsage(after, host) ==
               Moved(HostUsage(db.instances, host), row.host == host, UsageAt(db, i), RowUsage(row))
  {
    NormalForm(cfg, db, a);
    WrittenRowKeepsOwner(db, a);
    PutMovesTenantUsage(db.instances, Target(db, a), WrittenRow(db, a), tenant);
    PutMovesHostUsage(db.instances, Target(db, a), WrittenRow(db, a), host);
  }

  /** For every accepted request: a quota of the tenant, and a capacity of the host of the row, hold afterwards if
      and only if they have room for the written row in place of the old one. */
  lemma RequestKeepsLimitsIff(cfg: Config, db: Db, a: Action, q: Quota, total: Spec)
    requires CreatesTask(a) && Handle(cfg, db, a).reply.Accepted?
    ensures Guards(db, a)
    ensures var row, after := WrittenRow(db, a), Handle(cfg, db, a).db.instances;
            var prior, next := UsageAt(db, Target(db, a)), RowUsage(row);
            && (FitsQuota(TenantUsage(after, row.tenant), q) <==>
                  FitsQuota(Plus(Minus(TenantUsage(db.instances, row.tenant), prior), next), q))
            && (FitsCapacity(HostUsage(after, row.host), total) <==>
                  FitsCapacity(Plus(Minus(HostUsage(db.instances, row.host), prior), next), total))
  {
    NormalForm(cfg, db, a);
    RequestMovesUsage(cfg, db, a, WrittenRow(db, a).tenant, WrittenRow(db, a).host);
  }

  /** The spec an unchecked request makes count in full: the requested one, or else the row's. */
  function RaisedSpec(db: Db, a: Action): Spec
    requires CreatesTask(a) && Target(db, a) < |db.instances|
  {
    var own := db.instances[Target(db, a)].spec;
    match a
    case Update(_, spec, _) => spec
    case Retry(s) => if s < |db.tasks| then GetOr(db.tasks[s].payload.spec, own) else own
    case _ => own
  }

  lemma UncheckedRowCountsInFull(cfg: Config, db: Db, a: Action)
    requires Inv(db) && CreatesTask(a) && Guards(db, a) && (Unchecked(cfg, db, a) || !NamesRowHost(db, a))
    ensures Target(db, a) < |db.instances| && RowUsage(WrittenRow(db, a)) == Full(RaisedSpec(db, a))
    ensures UsageAt(db, Target(db, a)) == RowUsage(db.instances[Target(db, a)])
    ensures WrittenRow(db, a).tenant == db.instances[Target(db, a)].tenant
    ensures WrittenRow(db, a).host == db.instances[Target(db, a)].host
  {
    WrittenRowKeepsOwner(db, a);
    if a.Retry? {
      assert TaskOk(db, a.task);
    }
  }

  /** For each kind of unchecked request: a quota of the tenant, and a capacity of the row's host, survive if and
      only if they have room for the row counted in full instead of as it counts now. */
  lemma UncheckedRequestKeepsLimitsIff(cfg: Config, db: Db, a: Action, q: Quota, total: Spec)
    requires Inv(db) && CreatesTask(a) && Unchecked(cfg, db, a)
    ensures Target(db, a) < |db.instances|
    ensures var row, after := db.instances[Target(db, a)], Handle(cfg, db, a).db.instances;
            var prior, next := RowUsage(row), Full(RaisedSpec(db, a));
            && (FitsQuota(TenantUsage(after, row.tenant), q) <==>
                  FitsQuota(Plus(Minus(TenantUsage(db.instances, row.tenant), prior), next), q))
            && (FitsCapacity(HostUsage(after, row.host), total) <==>
                  FitsCapacity(Plus(Minus(HostUsage(db.instances, row.host), prior), next), total))
  {
    NormalForm(cfg, db, a);
    RequestKeepsLimitsIff(cfg, db, a, q, total);
    UncheckedRowCountsInFull(cfg, db, a);
  }

  /** Stopping an instance that is already stopped puts its cpu and memory back on the account without a check:
      the limits survive exactly when they had room for them. */
  lemma StopOfStoppedKeepsLimitsIff(cfg: Config, db: Db, i: nat, q: Quota, total: Spec)
    requires Inv(db) && i < |db.instances| && db.instances[i].status.Stopped?
    requires FitsQuota(TenantUsage(db.instances, db.instances[i].tenant), q)
    requires FitsCapacity(HostUsage(db.instances, db.instances[i].host), total)
    ensures var row, after := db.instances[i], StopInstance(cfg, db, i).db.instances;
            var used, reserved := TenantUsage(db.instances, row.tenant), HostUsage(db.instances, row.host);
            && StopInstance(cfg, db, i).reply.Accepted?
            && Unchecked(cfg, db, Action.Stop(i))
            && (FitsQuota(TenantUsage(after, row.tenant), q) <==>
                  used.cpu + row.spec.cpu <= q.cpu && used.memory + row.spec.memory <= q.memory)
            && (FitsCapacity(HostUsage(after, row.host), total) <==>
                  reserved.cpu + row.spec.cpu <= total.cpu && reserved.memory + row.spec.memory <= total.memory)
  {
    PendingIffActiveTask(db, i);
    assert RowOk(db, i);
    NormalForm(cfg, db, Action.Stop(i));
    UncheckedRequestKeepsLimitsIff(cfg, db, Action.Stop(i), q, total);
  }

  /** Updating a stopped instance is checked as stopped and written as running: instances and disk are checked,
      the quota survives exactly when cpu and memory happen to fit. */
  lemma UpdateOfStoppedKeepsQuotaIff(cfg: Config, db: Db, i: nat, spec: Spec, host: string)
    requires Inv(db) && i < |db.instances| && db.instances[i].status.Stopped?
    requires UpdateInstance(cfg, db, i, spec, host).reply.Accepted?
    ensures var row, after := db.instances[i], UpdateInstance(cfg, db, i, spec, host).db.instances;
            var used := TenantUsage(db.instances, row.tenant);
            && row.tenant in db.quotas && Unchecked(cfg, db, Action.Update(i, spec, host))
            && (FitsQuota(TenantUsage(after, row.tenant), db.quotas[row.tenant]) <==>
                  && used.cpu + spec.cpu <= db.quotas[row.tenant].cpu
                  && used.memory + spec.memory <= db.quotas[row.tenant].memory)
  {
    var a := Action.Update(i, spec, host);
    assert RowOk(db, i);
    assert Handle(cfg, db, a) == UpdateInstance(cfg, db, i, spec, host);
    NormalForm(cfg, db, a);
    UncheckedRequestKeepsLimitsIff(cfg, db, a, db.quotas[db.instances[i].tenant], spec);
  }

  /** ... and the capacity of the row's host survives exactly when it has room; disk is checked only when the
      request names that host. */
  lemma UpdateOfStoppedKeepsCapacityIff(cfg: Config, db: Db, i: nat, spec: Spec, host: string, total: Spec)
    requires Inv(db) && i < |db.instances| && db.instances[i].status.Stopped?
    requires UpdateInstance(cfg, db, i, spec, host).reply.Accepted?
    ensures var row, after := db.instances[i], UpdateInstance(cfg, db, i, spec, host).db.instances;
            var reserved := HostUsage(db.instances, row.host);
            && (FitsCapacity(HostUsage(after, row.host), total) <==>
                  && reserved.cpu + spec.cpu <= total.cpu && reserved.memory + spec.memory <= total.memory
                  && reserved.disk - row.spec.disk + spec.disk <= total.disk)
            && (host == row.host ==>
                  && host in db.capacity && reserved.disk - row.spec.disk + spec.disk <= db.capacity[host].disk)
  {
    var a := Action.Update(i, spec, host);
    assert RowOk(db, i);
    assert Handle(cfg, db, a) == UpdateInstance(cfg, db, i, spec, host);
    NormalForm(cfg, db, a);
    UncheckedRequestKeepsLimitsIff(cfg, db, a, Quota(0, 0, 0, 0), total);
  }

  /** Retrying a stop of an instance that does not count compute, in `stopped` or `error`: whatever the row does
      not count yet must fit. */
  lemma StopRetryKeepsLimitsIff(cfg: Config, db: Db, s: nat, q: Quota, total: Spec)
    requires Inv(db) && s < |db.tasks| && db.tasks[s].command.Stop? && RetryTask(cfg, db, s).reply.Accepted?
    requires db.tasks[s].instance < |db.instances| && !CountsCompute(db.instances[db.tasks[s].instance])
    ensures var row, after := db.instances[db.tasks[s].instance], RetryTask(cfg, db, s).db.instances;
            var used, reserved := TenantUsage(db.instances, row.tenant), HostUsage(db.instances, row.host);
            && Unchecked(cfg, db, Retry(s))
            && (FitsQuota(TenantUsage(after, row.tenant), q) <==>
                  && used.instances + (if row.reserve then 0 else 1) <= q.instances
                  && used.cpu + row.spec.cpu <= q.cpu && used.memory + row.spec.memory <= q.memory
                  && used.disk + (if row.reserve then 0 else row.spec.disk) <= q.disk)
            && (FitsCapacity(HostUsage(after, row.host), total) <==>
                  && reserved.cpu + row.spec.cpu <= total.cpu && reserved.memory + row.spec.memory <= total.memory
                  && reserved.disk + (if row.reserve then 0 else row.spec.disk) <= total.disk)
  {
    var a := Retry(s);
    assert TaskOk(db, s);
    NormalForm(cfg, db, a);
    UncheckedRequestKeepsLimitsIff(cfg, db, a, q, total);
  }

  /** Retrying an update without boot: instances and disk are checked, cpu and memory are written in full. */
  lemma NoBootUpdateRetryKeepsQuotaIff(cfg: Config, db: Db, s: nat)
    requires Inv(db) && s < |db.tasks| && db.tasks[s].command.Update? && db.tasks[s].payload.boot == Some(false)
    requires RetryTask(cfg, db, s).reply.Accepted?
    ensures db.tasks[s].instance < |db.instances| && db.tasks[s].payload.spec.Some?
    ensures var row, spec := db.instances[db.tasks[s].instance], db.tasks[s].payload.spec.value;
            var used, after := TenantUsage(db.instances, row.tenant), RetryTask(cfg, db, s).db.instances;
            && row.tenant in db.quotas
            && (FitsQuota(TenantUsage(after, row.tenant), db.quotas[row.tenant]) <==>
                  && used.cpu - (if CountsCompute(row) then row.spec.cpu else 0) + spec.cpu <= db.quotas[row.tenant].cpu
                  && used.memory - (if CountsCompute(row) then row.spec.memory else 0) + spec.memory
                     <= db.quotas[row.tenant].memory)
  {
    var a := Retry(s);
    assert TaskOk(db, s);
    NormalForm(cfg, db, a);
    var row := db.instances[db.tasks[s].instance];
    RequestMovesUsage(cfg, db, a, row.tenant, row.host);
    NoActiveTaskMeansSettled(db, db.tasks[s].instance);
    ProfileAgreesWithViews(row);
  }

  // ----- ... and the failure routes -----

  /** A step that undoes task `t`: cancel while queued, or a failed or canceled event. */
  predicate Undoing(db: Db, a: Action, t: nat) {
    && t < |db.tasks| && db.tasks[t].instance < |db.instances|
    && ((a.Cancel? && a.task == t && db.tasks[t].status.Queued?)
        || (a.Result? && a.event.task == t && Live(db, a.event)
              && (a.event.status.Failed? || a.event.status.Canceled?)))
  }

  function UndoneTo(db: Db, t: nat): Instance
    requires t < |db.tasks| && db.tasks[t].instance < |db.instances|
  {
    Revert(db.instances[db.tasks[t].instance], db.tasks[t].command, db.tasks[t].payload)
  }

  lemma UndoingStep(cfg: Config, p: Node, a: Action, t: nat)
    requires Undoing(p.db, a, t)
    ensures Next(cfg, p, a).db.instances == p.db.instances[p.db.tasks[t].instance := UndoneTo(p.db, t)]
  {
  }

  lemma UndoingMovesUsage(cfg: Config, p: Node, a: Action, t: nat)
    requires Undoing(p.db, a, t)
    ensures var rows, row, undone := p.db.instances, p.db.instances[p.db.tasks[t].instance], UndoneTo(p.db, t);
            var after := Next(cfg, p, a).db.instances;
            && TenantUsage(after, row.tenant)
               == Plus(Minus(TenantUsage(rows, row.tenant), RowUsage(row)), RowUsage(undone))
            && HostUsage(after, row.host) == Plus(Minus(HostUsage(rows, row.host), RowUsage(row)), RowUsage(undone))
  {
    var i, undone := p.db.tasks[t].instance, UndoneTo(p.db, t);
    UndoingStep(cfg, p, a, t);
    PutMovesTenantUsage(p.db.instances, i, undone, p.db.instances[i].tenant);
    PutMovesHostUsage(p.db.instances, i, undone, p.db.instances[i].host);
  }

  /** A failed delete reserves everything again: the limits survive exactly when they have room for the whole
      previous spec. */
  lemma FailedDeleteKeepsLimitsIff(cfg: Config, p: Node, a: Action, t: nat, q: Quota, total: Spec)
    requires Inv(p.db) && Undoing(p.db, a, t) && p.db.tasks[t].command.Delete?
    ensures p.db.tasks[t].payload.previousSpec.Some?
    ensures var row, spec := p.db.instances[p.db.tasks[t].instance], p.db.tasks[t].payload.previousSpec.value;
            var after := Next(cfg, p, a).db.instances;
            var used, reserved := TenantUsage(p.db.instances, row.tenant), HostUsage(p.db.instances, row.host);
            && (FitsQuota(TenantUsage(after, row.tenant), q) <==>
                  && used.instances + 1 <= q.instances && used.cpu + spec.cpu <= q.cpu
                  && used.memory + spec.memory <= q.memory && used.disk + spec.disk <= q.disk)
            && (FitsCapacity(HostUsage(after, row.host), total) <==>
                  && reserved.cpu + spec.cpu <= total.cpu && reserved.memory + spec.memory <= total.memory
                  && reserved.disk + spec.disk <= total.disk)
  {
    UndoneCounts(p.db, t);
    UndoingMovesUsage(cfg, p, a, t);
  }

  /** A failed update gives the previous spec back in place of the written one. */
  lemma FailedUpdateKeepsLimitsIff(cfg: Config, p: Node, a: Action, t: nat, q: Quota, total: Spec)
    requires Inv(p.db) && Undoing(p.db, a, t) && p.db.tasks[t].command.Update?
    ensures p.db.tasks[t].payload.previousSpec.Some?
    ensures var row, spec := p.db.instances[p.db.tasks[t].instance], p.db.tasks[t].payload.previousSpec.value;
            var after := Next(cfg, p, a).db.instances;
            var used, reserved := TenantUsage(p.db.instances, row.tenant), HostUsage(p.db.instances, row.host);
            && (FitsQuota(TenantUsage(after, row.tenant), q) <==>
                  && used.instances <= q.instances && used.cpu - row.spec.cpu + spec.cpu <= q.cpu
                  && used.memory - row.spec.memory + spec.memory <= q.memory
                  && used.disk - row.spec.disk + spec.disk <= q.disk)
            && (FitsCapacity(HostUsage(after, row.host), total) <==>
                  && reserved.cpu - row.spec.cpu + spec.cpu <= total.cpu
                  && reserved.memory - row.spec.memory + spec.memory <= total.memory
                  && reserved.disk - row.spec.disk + spec.disk <= total.disk)
  {
    UndoneCounts(p.db, t);
    UndoingMovesUsage(cfg, p, a, t);
  }

  /** An active delete counts nothing, an active update its row in full; undone, both count the previous spec in
      full. */
  lemma UndoneCounts(db: Db, t: nat)
    requires Inv(db) && t < |db.tasks| && Active(db.tasks[t].status) && db.tasks[t].instance < |db.instances|
    requires db.tasks[t].command.Delete? || db.tasks[t].command.Update?
    ensures db.tasks[t].payload.previousSpec.Some?
    ensures RowUsage(UndoneTo(db, t)) == Full(db.tasks[t].payload.previousSpec.value)
    ensures var row := db.instances[db.tasks[t].instance];
            RowUsage(row) == if db.tasks[t].command.Delete? then NO_USAGE else Full(row.spec)
  {
    assert TaskOk(db, t);
    assert RowOk(db, db.tasks[t].instance);
  }

  /** What undoing the tasks `ids` adds to one aggregate. */
  function Shift(db: Db, ids: seq<nat>, cell: Instance -> int): int {
    if ids == [] then 0
    else
      var t := ids[|ids| - 1];
      Shift(db, ids[..|ids| - 1], cell)
      + if t < |db.tasks| && db.tasks[t].instance < |db.instances|
        then cell(UndoneTo(db, t)) - cell(db.instances[db.tasks[t].instance]) else 0
  }

  /** The last task of a list is undone on a row no earlier one has touched. */
  lemma FailAllNext(db: Db, ids: seq<nat>)
    requires Inv(db) && Queue(db, ids) && ids != []
    ensures var t, mid := ids[|ids| - 1], FailAll(db, ids[..|ids| - 1]);
            && t < |db.tasks| && db.tasks[t].instance < |db.instances| && db.tasks[t].instance < |mid.instances|
            && mid.instances[db.tasks[t].instance] == db.instances[db.tasks[t].instance]
            && FailAll(db, ids).instances == mid.instances[db.tasks[t].instance := UndoneTo(db, t)]
  {
    var front, t := ids[..|ids| - 1], ids[|ids| - 1];
    assert forall k :: k in front ==> k in ids;
    assert t in ids && t !in front;
    assert TaskOk(db, t);
    FailAllEffect(db, front);
    assert FailAll(db, front).tasks[t] == db.tasks[t];
    assert FailAll(db, front).instances[db.tasks[t].instance] == UndoneRow(db, front, db.tasks[t].instance);
  }

  lemma {:induction false} FailAllShifts(db: Db, ids: seq<nat>, cell: Instance -> int)
    requires Inv(db) && Queue(db, ids)
    ensures Sum(FailAll(db, ids).instances, cell) == Sum(db.instances, cell) + Shift(db, ids, cell)
  {
    if ids != [] {
      var front, t := ids[..|ids| - 1], ids[|ids| - 1];
      assert forall k :: k in front ==> k in ids;
      FailAllShifts(db, front, cell);
      FailAllNext(db, ids);
      SumReplace(FailAll(db, front).instances, db.tasks[t].instance, UndoneTo(db, t), cell);
    }
  }

  function TenantShift(db: Db, ids: seq<nat>, tenant: nat, c: Column): int {
    Shift(db, ids, (r: Instance) => if r.tenant == tenant then Cell(r, c) else 0)
  }

  function HostShift(db: Db, ids: seq<nat>, host: string, c: Column): int {
    Shift(db, ids, (r: Instance) => if r.host == host then Cell(r, c) else 0)
  }

  /** A sweep undoes up to 100 tasks at once: every tenant's quota and every host's capacity survive if and only
      if each column has room for the sum of what the undone rows add to it. */
  lemma SweepKeepsLimitsIff(cfg: Config, db: Db, tenant: nat, q: Quota, host: string, total: Spec)
    requires Inv(db)
    ensures var used, pick, after := TenantUsage(db.instances, tenant), SweepPick(cfg, db),
        SweepOnce(cfg, db).instances;
            FitsQuota(TenantUsage(after, tenant), q) <==>
              && used.instances + TenantShift(db, pick, tenant, InstanceCount) <= q.instances
              && used.cpu + TenantShift(db, pick, tenant, CpuSum) <= q.cpu
              && used.memory + TenantShift(db, pick, tenant, MemorySum) <= q.memory
              && used.disk + TenantShift(db, pick, tenant, DiskSum) <= q.disk
    ensures var reserved, pick, after := HostUsage(db.instances, host), SweepPick(cfg, db),
        SweepOnce(cfg, db).instances;
            FitsCapacity(HostUsage(after, host), total) <==>
              && reserved.cpu + HostShift(db, pick, host, CpuSum) <= total.cpu
              && reserved.memory + HostShift(db, pick, host, MemorySum) <= total.memory
              && reserved.disk + HostShift(db, pick, host, DiskSum) <= total.disk
  {
    var pick := SweepPick(cfg, db);
    PickIsQueue(cfg, db);
    forall c: Column
      ensures TenantColumn(SweepOnce(cfg, db).instances, tenant, c) ==
              TenantColumn(db.instances, tenant, c) + TenantShift(db, pick, tenant, c)
      ensures HostColumn(SweepOnce(cfg, db).instances, host, c) ==
              HostColumn(db.instances, host, c) + HostShift(db, pick, host, c)
    {
      FailAllShifts(db, pick, (r: Instance) => if r.tenant == tenant then Cell(r, c) else 0);
      FailAllShifts(db, pick, (r: Instance) => if r.host == host then Cell(r, c) else 0);
    }
  }

  // ----- Safety over runs, exactly -----

  /** The tenant's quota and, on demand, the host's capacity have room for `next` in place of row `i`. */
  predicate RoomFor(db: Db, i: nat, next: Usage, hosts: bool)
    requires i < |db.instances|
  {
    var row := db.instances[i];
    && (row.tenant in db.quotas ==>
          FitsQuota(Plus(Minus(TenantUsage(db.instances, row.tenant), RowUsage(row)), next), db.quotas[row.tenant]))
    && (hosts && row.host in db.capacity ==>
          FitsCapacity(Plus(Minus(HostUsage(db.instances, row.host), RowUsage(row)), next), db.capacity[row.host]))
  }

  function ShiftedTenant(db: Db, ids: seq<nat>, tenant: nat): Usage {
    Plus(TenantUsage(db.instances, tenant),
         Usage(TenantShift(db, ids, tenant, InstanceCount), TenantShift(db, ids, tenant, CpuSum),
               TenantShift(db, ids, tenant, MemorySum), TenantShift(db, ids, tenant, DiskSum)))
  }

  function ShiftedHost(db: Db, ids: seq<nat>, host: string): Usage {
    Plus(HostUsage(db.instances, host),
         Usage(0, HostShift(db, ids, host, CpuSum), HostShift(db, ids, host, MemorySum),
             HostShift(db, ids, host, DiskSum)))
  }

  /** The room a step of the unchecked kind needs, over the tables it finds. */
  ghost predicate HasRoom(cfg: Config, db: Db, a: Action, hosts: bool) {
    match a
    case Cancel(t) => UndoHasRoom(db, t, hosts)
    case Result(e) => UndoHasRoom(db, e.task, hosts)
    case Sweep =>
      var pick := SweepPick(cfg, db);
      && (forall t :: t in db.quotas ==> FitsQuota(ShiftedTenant(db, pick, t), db.quotas[t]))
      && (hosts ==> forall h :: h in db.capacity ==> FitsCapacity(ShiftedHost(db, pick, h), db.capacity[h]))
    case _ =>
      CreatesTask(a) && Target(db, a) < |db.instances| ==> RoomFor(db, Target(db, a), Full(RaisedSpec(db, a)), hosts)
  }

  predicate UndoHasRoom(db: Db, t: nat, hosts: bool) {
    t < |db.tasks| && db.tasks[t].instance < |db.instances| ==>
      RoomFor(db, db.tasks[t].instance, RowUsage(UndoneTo(db, t)), hosts)
  }

  /** Replacing one row keeps the limits exactly when its own tenant and host have room. */
  lemma ReplacedRowKeepsLimitsIff(db: Db, after: Db, i: nat, row: Instance, hosts: bool)
    requires Limits(db, hosts) && i < |db.instances| && after.instances == db.instances[i := row]
    requires row.tenant == db.instances[i].tenant && row.host == db.instances[i].host
    requires after.quotas == db.quotas && after.capacity == db.capacity
    ensures Limits(after, hosts) <==> RoomFor(db, i, RowUsage(row), hosts)
  {
    forall t | t in db.quotas
      ensures FitsQuota(TenantUsage(after.instances, t), db.quotas[t]) <==>
                (t == row.tenant ==>
                   FitsQuota(Plus(Minus(TenantUsage(db.instances, t), RowUsage(db.instances[i])), RowUsage(row)),
                       db.quotas[t]))
    {
      PutMovesTenantUsage(db.instances, i, row, t);
    }
    if hosts {
      forall h | h in db.capacity
        ensures FitsCapacity(HostUsage(after.instances, h), db.capacity[h]) <==>
                  (h == row.host ==>
                     FitsCapacity(Plus(Minus(HostUsage(db.instances, h), RowUsage(db.instances[i])), RowUsage(row)),
                         db.capacity[h]))
      {
        PutMovesHostUsage(db.instances, i, row, h);
      }
    }
  }

  lemma AcceptedWrites(cfg: Config, db: Db, a: Action)
    requires CreatesTask(a) && Guards(db, a) && CheckPasses(db, a)
    ensures var after := Handle(cfg, db, a).db;
            && after.quotas == db.quotas && after.capacity == db.capacity
            && (Target(db, a) < |db.instances| ==> after.instances == db.instances[Target(db, a) := WrittenRow(db, a)])
  {
    NormalForm(cfg, db, a);
  }

  /** A step whose effect on the limits no check has covered: the unchecked ones, and where hosts matter an
      accepted request whose capacity check was on another host than the row's. */
  predicate Exposed(cfg: Config, db: Db, a: Action, hosts: bool) {
    || Unchecked(cfg, db, a)
    || (hosts && CreatesTask(a) && Guards(db, a) && CheckPasses(db, a) && !NamesRowHost(db, a))
  }

  lemma ExposedRequestLimitsIff(cfg: Config, db: Db, a: Action, hosts: bool)
    requires Inv(db) && Limits(db, hosts) && CreatesTask(a) && Exposed(cfg, db, a, hosts)
    ensures Limits(Handle(cfg, db, a).db, hosts) <==> HasRoom(cfg, db, a, hosts)
  {
    AcceptedWrites(cfg, db, a);
    UncheckedRowCountsInFull(cfg, db, a);
    ReplacedRowKeepsLimitsIff(db, Handle(cfg, db, a).db, Target(db, a), WrittenRow(db, a), hosts);
  }

  lemma UndoneKeepsOwner(db: Db, t: nat)
    requires t < |db.tasks| && db.tasks[t].instance < |db.instances|
    ensures UndoneTo(db, t).tenant == db.instances[db.tasks[t].instance].tenant
    ensures UndoneTo(db, t).host == db.instances[db.tasks[t].instance].host
  {
  }

  lemma UndoingLimitsIff(cfg: Config, p: Node, a: Action, t: nat, hosts: bool)
    requires Limits(p.db, hosts) && Undoing(p.db, a, t)
    ensures Limits(Next(cfg, p, a).db, hosts) <==>
              RoomFor(p.db, p.db.tasks[t].instance, RowUsage(UndoneTo(p.db, t)), hosts)
  {
    UndoneKeepsOwner(p.db, t);
    UndoingStep(cfg, p, a, t);
    ReplacedRowKeepsLimitsIff(p.db, Next(cfg, p, a).db, p.db.tasks[t].instance, UndoneTo(p.db, t), hosts);
  }

  lemma SweepLimitsIff(cfg: Config, db: Db, hosts: bool)
    requires Inv(db) && Unchecked(cfg, db, Sweep)
    ensures Limits(SweepOnce(cfg, db), hosts) <==> HasRoom(cfg, db, Sweep, hosts)
  {
    var pick, after := SweepPick(cfg, db), SweepOnce(cfg, db);
    PickIsQueue(cfg, db);
    FailAllEffect(db, pick);
    forall t | t in db.quotas
      ensures FitsQuota(TenantUsage(after.instances, t), db.quotas[t]) <==>
          FitsQuota(ShiftedTenant(db, pick, t), db.quotas[t])
    {
      SweepKeepsLimitsIff(cfg, db, t, db.quotas[t], "", Spec(0, 0, 0));
    }
    forall h | h in db.capacity
      ensures FitsCapacity(HostUsage(after.instances, h), db.capacity[h]) <==>
                FitsCapacity(ShiftedHost(db, pick, h), db.capacity[h])
    {
      SweepKeepsLimitsIff(cfg, db, 0, Quota(0, 0, 0, 0), h, db.capacity[h]);
    }
  }

  lemma UncheckedUndoLimitsIff(cfg: Config, p: Node, a: Action, t: nat, hosts: bool)
    requires Limits(p.db, hosts) && Unchecked(cfg, p.db, a)
    requires (a.Cancel? && a.task == t) || (a.Result? && a.event.task == t)
    ensures Limits(Next(cfg, p, a).db, hosts) <==> UndoHasRoom(p.db, t, hosts)
  {
    assert Undoing(p.db, a, t);
    UndoingLimitsIff(cfg, p, a, t, hosts);
  }

  lemma UncheckedSweepLimitsIff(cfg: Config, p: Node, a: Action, hosts: bool)
    requires Inv(p.db) && a.Sweep? && Unchecked(cfg, p.db, a)
    ensures Limits(Next(cfg, p, a).db, hosts) <==> HasRoom(cfg, p.db, a, hosts)
  {
    SweepLimitsIff(cfg, p.db, hosts);
  }

  lemma ExposedStepKeepsLimitsIff(cfg: Config, p: Node, a: Action, hosts: bool)
    requires Inv(p.db) && Limits(p.db, hosts) && Exposed(cfg, p.db, a, hosts)
    ensures Limits(Next(cfg, p, a).db, hosts) <==> HasRoom(cfg, p.db, a, hosts)
  {
    if CreatesTask(a) {
      RequestStep(cfg, p, a);
      ExposedRequestLimitsIff(cfg, p.db, a, hosts);
    } else if a.Sweep? {
      UncheckedSweepLimitsIff(cfg, p, a, hosts);
    } else if a.Cancel? {
      UncheckedUndoLimitsIff(cfg, p, a, a.task, hosts);
    } else {
      UncheckedUndoLimitsIff(cfg, p, a, a.event.task, hosts);
    }
  }

  /** Every exposed step of the run finds the room it needs. */
  ghost predicate AllHaveRoom(cfg: Config, p: Node, acts: seq<Action>, hosts: bool) {
    forall n :: 0 <= n < |acts| && Exposed(cfg, Run(cfg, p, acts[..n]).db, acts[n], hosts) ==>
      HasRoom(cfg, Run(cfg, p, acts[..n]).db, acts[n], hosts)
  }

  /** The limits hold throughout the run. */
  ghost predicate AlwaysWithin(cfg: Config, p: Node, acts: seq<Action>, hosts: bool) {
    forall n :: 0 <= n <= |acts| ==> Limits(Run(cfg, p, acts[..n]).db, hosts)
  }

  lemma StepKeepsLimitsIff(cfg: Config, p: Node, a: Action, hosts: bool)
    requires Inv(p.db) && Limits(p.db, hosts) && (a.Result? ==> LegalEvent(a.event))
    ensures Limits(Next(cfg, p, a).db, hosts) <==> (Exposed(cfg, p.db, a, hosts) ==> HasRoom(cfg, p.db, a, hosts))
  {
    if Exposed(cfg, p.db, a, hosts) {
      ExposedStepKeepsLimitsIff(cfg, p, a, hosts);
    } else if CreatesTask(a) && !(Guards(p.db, a) && CheckPasses(p.db, a)) {
      RequestStep(cfg, p, a);
      NormalForm(cfg, p.db, a);
    } else {
      StepKeepsLimits(cfg, p, a, hosts);
    }
  }

  lemma RunPrefix(cfg: Config, p: Node, acts: seq<Action>, n: nat)
    requires n < |acts|
    ensures Run(cfg, p, acts[..n + 1]) == Next(cfg, Run(cfg, p, acts[..n]), acts[n])
  {
    assert acts[..n + 1] == acts[..n] + [acts[n]];
    RunSnoc(cfg, p, acts[..n], acts[n]);
  }

  lemma PrefixStep(cfg: Config, p: Node, acts: seq<Action>, n: nat, hosts: bool)
    requires Inv(p.db) && LegalRun(acts) && n < |acts| && Limits(Run(cfg, p, acts[..n]).db, hosts)
    ensures var mid := Run(cfg, p, acts[..n]).db;
            Limits(Run(cfg, p, acts[..n + 1]).db, hosts) <==>
              (Exposed(cfg, mid, acts[n], hosts) ==> HasRoom(cfg, mid, acts[n], hosts))
  {
    assert LegalRun(acts[..n]);
    RunKeepsInv(cfg, p, acts[..n]);
    RunPrefix(cfg, p, acts, n);
    StepKeepsLimitsIff(cfg, Run(cfg, p, acts[..n]), acts[n], hosts);
  }

  /** For every run whatsoever: all quotas (and with `hosts` all capacities) hold throughout if and only if every
      step that no check has covered finds the room it needs. */
  lemma {:induction false} LimitsHoldThroughoutIff(cfg: Config, p: Node, acts: seq<Action>, hosts: bool)
    requires Inv(p.db) && Limits(p.db, hosts) && LegalRun(acts)
    ensures AlwaysWithin(cfg, p, acts, hosts) <==> AllHaveRoom(cfg, p, acts, hosts)
  {
    if AlwaysWithin(cfg, p, acts, hosts) {
      forall n | 0 <= n < |acts| && Exposed(cfg, Run(cfg, p, acts[..n]).db, acts[n], hosts)
        ensures HasRoom(cfg, Run(cfg, p, acts[..n]).db, acts[n], hosts)
      {
        assert Limits(Run(cfg, p, acts[..n]).db, hosts) && Limits(Run(cfg, p, acts[..n + 1]).db, hosts);
        PrefixStep(cfg, p, acts, n, hosts);
      }
    }
    if AllHaveRoom(cfg, p, acts, hosts) {
      forall n | 0 <= n <= |acts| ensures Limits(Run(cfg, p, acts[..n]).db, hosts) {
        RoomKeepsLimits(cfg, p, acts, n, hosts);
      }
    }
  }

  lemma {:induction false} RoomKeepsLimits(cfg: Config, p: Node, acts: seq<Action>, n: nat, hosts: bool)
    requires Inv(p.db) && Limits(p.db, hosts) && LegalRun(acts)
    requires AllHaveRoom(cfg, p, acts, hosts) && n <= |acts|
    ensures Limits(Run(cfg, p, acts[..n]).db, hosts)
  {
    if n > 0 {
      RoomKeepsLimits(cfg, p, acts, n - 1, hosts);
      PrefixStep(cfg, p, acts, n - 1, hosts);
    }
  }
}
