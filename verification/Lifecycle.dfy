/** Whole-run facts: statuses only climb, deletion is final, a task in flight freezes its instance, and a
    failed request is undone exactly. */
module Lifecycle {
  import opened Model
  import opened Accounting
  import opened ControlPlane
  import opened Outbox
  import opened Protocol
  import opened Requests
  import opened Invariant
  import opened Sweeping

  // ----- What each kind of step leaves alone -----

  /** Relay steps, quota changes and the clock. */
  predicate OnlyDelivers(a: Action) {
    a.RelayClaim? || a.RelayDispatch? || a.RelayCrash? || a.ChangeQuota? || a.Tick?
  }

  lemma DeliveryKeepsRows(cfg: Config, p: Node, a: Action)
    requires OnlyDelivers(a)
    ensures Next(cfg, p, a).db.tasks == p.db.tasks && Next(cfg, p, a).db.instances == p.db.instances
  {
  }

  /** A request leaves every existing task alone, and every row that is deleted or has a task in flight. */
  lemma RequestOnlyAppends(cfg: Config, db: Db, a: Action)
    requires CreatesTask(a)
    ensures var after := Handle(cfg, db, a).db;
            && |db.tasks| <= |after.tasks| && |db.instances| <= |after.instances|
            && (forall t :: 0 <= t < |db.tasks| ==> after.tasks[t] == db.tasks[t])
            && (forall i ::
                  0 <= i < |db.instances| && (db.instances[i].status.Deleted? || HasActiveTask(db.tasks, i)) ==>
                  after.instances[i] == db.instances[i])
  {
    NormalForm(cfg, db, a);
  }

  // ----- One step, seen from one task -----

  function Rank(s: TaskStatus): nat {
    match s
    case Queued => 0
    case Running => 1
    case CancelPending => 2
    case _ => 3
  }

  /** A step keeps a task's identity, and its status stays or climbs. */
  predicate Climbs(before: Task, after: Task) {
    SameRequest(after, before) && (after.status == before.status || Rank(before.status) < Rank(after.status))
  }

  lemma EventClimbs(db: Db, e: Event, t: nat)
    requires t < |db.tasks|
    ensures t < |ProcessEvent(db, e).tasks| && Climbs(db.tasks[t], ProcessEvent(db, e).tasks[t])
  {
  }

  lemma CancelClimbs(cfg: Config, db: Db, s: nat, t: nat)
    requires t < |db.tasks|
    ensures t < |CancelTask(cfg, db, s).db.tasks| && Climbs(db.tasks[t], CancelTask(cfg, db, s).db.tasks[t])
  {
  }

  lemma SweepClimbs(cfg: Config, db: Db, t: nat)
    requires Inv(db) && t < |db.tasks|
    ensures t < |SweepOnce(cfg, db).tasks| && Climbs(db.tasks[t], SweepOnce(cfg, db).tasks[t])
  {
    PickIsQueue(cfg, db);
    FailAllEffect(db, SweepPick(cfg, db));
  }

  lemma StepClimbs(cfg: Config, p: Node, a: Action, t: nat)
    requires Inv(p.db) && t < |p.db.tasks|
    ensures t < |Next(cfg, p, a).db.tasks| && Climbs(p.db.tasks[t], Next(cfg, p, a).db.tasks[t])
  {
    if OnlyDelivers(a) {
      DeliveryKeepsRows(cfg, p, a);
    } else {
      match a
      case Cancel(s) => CancelClimbs(cfg, p.db, s, t);
      case Result(e) => EventClimbs(p.db, e, t);
      case Sweep => SweepClimbs(cfg, p.db, t);
      case _ => RequestOnlyAppends(cfg, p.db, a);
    }
  }

  /** How often the status of task `t` changes along a run. */
  function Changes(cfg: Config, p: Node, acts: seq<Action>, t: nat): nat {
    if acts == [] then 0
    else
      var before := Run(cfg, p, acts[..|acts| - 1]).db;
      var after := Run(cfg, p, acts).db;
      Changes(cfg, p, acts[..|acts| - 1], t)
      + if t < |before.tasks| && t < |after.tasks| && before.tasks[t].status != after.tasks[t].status then 1 else 0
  }

  /** Along every run a task's status only climbs queued < running < cancel_pending < terminal: it changes
      at most three times, and a terminal status is final. */
  lemma {:induction false} StatusChangesAtMostThreeTimes(cfg: Config, p: Node, acts: seq<Action>, t: nat)
    requires Inv(p.db) && LegalRun(acts) && t < |p.db.tasks|
    ensures t < |Run(cfg, p, acts).db.tasks|
    ensures Climbs(p.db.tasks[t], Run(cfg, p, acts).db.tasks[t])
    ensures Rank(p.db.tasks[t].status) + Changes(cfg, p, acts, t) <= Rank(Run(cfg, p, acts).db.tasks[t].status)
    ensures Changes(cfg, p, acts, t) <= 3
  {
    if acts != [] {
      var n := |acts| - 1;
      assert LegalRun(acts[..n]);
      StatusChangesAtMostThreeTimes(cfg, p, acts[..n], t);
      RunKeepsInv(cfg, p, acts[..n]);
      StepClimbs(cfg, Run(cfg, p, acts[..n]), acts[n], t);
    }
  }

  // ----- What a task's status says about its attempts and error code -----

  /** Attempts are counted from the first running event on, success carries no error code, and a cancellation
      always carries one. */
  predicate Accounted(k: Task) {
    match k.status
    case Queued => k.attempts == 0 && k.errorCode.None?
    case Running => k.attempts >= 1 && k.errorCode.None?
    case CancelPending => k.attempts >= 1 && k.errorCode.None?
    case Succeeded => k.attempts >= 1 && k.errorCode.None?
    case Failed => k.attempts >= 1
    case Canceled => k.attempts >= 0 && k.errorCode.Some? && k.errorCode.value != ""
  }

  ghost predicate AllAccounted(db: Db) {
    forall t :: 0 <= t < |db.tasks| ==> Accounted(db.tasks[t])
  }

  lemma EventKeepsAccounts(db: Db, e: Event)
    requires AllAccounted(db)
    ensures AllAccounted(ProcessEvent(db, e))
  {
  }

  lemma CancelKeepsAccounts(cfg: Config, db: Db, t: nat)
    requires AllAccounted(db)
    ensures AllAccounted(CancelTask(cfg, db, t).db)
  {
  }

  lemma {:induction false} FailAllKeepsAccounts(db: Db, ids: seq<nat>)
    requires AllAccounted(db)
    ensures AllAccounted(FailAll(db, ids))
  {
    if ids != [] {
      FailAllKeepsAccounts(db, ids[..|ids| - 1]);
    }
  }

  lemma RequestKeepsAccounts(cfg: Config, db: Db, a: Action)
    requires CreatesTask(a) && AllAccounted(db)
    ensures AllAccounted(Handle(cfg, db, a).db)
  {
    NormalForm(cfg, db, a);
  }

  lemma StepKeepsAccounts(cfg: Config, p: Node, a: Action)
    requires AllAccounted(p.db)
    ensures AllAccounted(Next(cfg, p, a).db)
  {
    if OnlyDelivers(a) {
      DeliveryKeepsRows(cfg, p, a);
    } else {
      match a
      case Cancel(t) => CancelKeepsAccounts(cfg, p.db, t);
      case Result(e) => EventKeepsAccounts(p.db, e);
      case Sweep => FailAllKeepsAccounts(p.db, SweepPick(cfg, p.db));
      case _ => RequestKeepsAccounts(cfg, p.db, a);
    }
  }

  lemma {:induction false} RunKeepsAccounts(cfg: Config, p: Node, acts: seq<Action>)
    requires AllAccounted(p.db)
    ensures AllAccounted(Run(cfg, p, acts).db)
  {
    if acts != [] {
      RunKeepsAccounts(cfg, p, acts[..|acts| - 1]);
      StepKeepsAccounts(cfg, Run(cfg, p, acts[..|acts| - 1]), acts[|acts| - 1]);
    }
  }

  // ----- One step, seen from one instance -----

  /** While a task stays active its instance row is frozen; when it fails or is canceled, the row is undone. */
  predicate RowFollowsTask(before: Db, after: Db, t: nat)
    requires t < |before.tasks| && before.tasks[t].instance < |before.instances|
  {
    var i, k := before.tasks[t].instance, before.tasks[t];
    && t < |after.tasks| && i < |after.instances|
    && (Active(after.tasks[t].status) ==> after.instances[i] == before.instances[i])
    && (after.tasks[t].status.Failed? || after.tasks[t].status.Canceled? ==>
          after.instances[i] == Revert(before.instances[i], k.command, k.payload))
  }

  lemma CancelFollowsTask(cfg: Config, db: Db, s: nat, t: nat)
    requires Inv(db) && t < |db.tasks| && Active(db.tasks[t].status) && db.tasks[t].instance < |db.instances|
    ensures RowFollowsTask(db, CancelTask(cfg, db, s).db, t)
  {
    if s < |db.tasks| && Active(db.tasks[s].status) && db.tasks[s].instance == db.tasks[t].instance {
      AtMostOneActiveTask(db, s, t);
    }
  }

  lemma EventFollowsTask(db: Db, e: Event, t: nat)
    requires Inv(db) && t < |db.tasks| && Active(db.tasks[t].status) && db.tasks[t].instance < |db.instances|
    ensures RowFollowsTask(db, ProcessEvent(db, e), t)
  {
    if Live(db, e) && db.tasks[e.task].instance == db.tasks[t].instance {
      AtMostOneActiveTask(db, e.task, t);
    }
  }

  lemma SweepFollowsTask(cfg: Config, db: Db, t: nat)
    requires Inv(db) && t < |db.tasks| && Active(db.tasks[t].status) && db.tasks[t].instance < |db.instances|
    ensures RowFollowsTask(db, SweepOnce(cfg, db), t)
  {
    var i, pick := db.tasks[t].instance, SweepPick(cfg, db);
    PickIsQueue(cfg, db);
    FailAllEffect(db, pick);
    assert SweepOnce(cfg, db).instances[i] == UndoneRow(db, pick, i);
    assert TaskOk(db, t);
  }

  lemma StepFollowsTask(cfg: Config, p: Node, a: Action, t: nat)
    requires Inv(p.db) && t < |p.db.tasks| && Active(p.db.tasks[t].status)
    ensures p.db.tasks[t].instance < |p.db.instances|
    ensures RowFollowsTask(p.db, Next(cfg, p, a).db, t)
  {
    var db := p.db;
    assert TaskOk(db, t);
    if OnlyDelivers(a) {
      DeliveryKeepsRows(cfg, p, a);
    } else {
      match a
      case Cancel(s) => CancelFollowsTask(cfg, db, s, t);
      case Result(e) => EventFollowsTask(db, e, t);
      case Sweep => SweepFollowsTask(cfg, db, t);
      case _ => RequestOnlyAppends(cfg, db, a);
    }
  }

  /** No task of a deleted instance is active. */
  lemma DeletedIsIdle(db: Db, i: nat, t: nat)
    requires Inv(db) && i < |db.instances| && db.instances[i].status.Deleted? && t < |db.tasks|
    ensures Active(db.tasks[t].status) ==> db.tasks[t].instance != i
  {
    assert TaskOk(db, t);
  }

  lemma CancelKeepsDeleted(cfg: Config, db: Db, t: nat, i: nat)
    requires Inv(db) && i < |db.instances| && db.instances[i].status.Deleted?
    ensures i < |CancelTask(cfg, db, t).db.instances| && CancelTask(cfg, db, t).db.instances[i] == db.instances[i]
  {
    if t < |db.tasks| {
      DeletedIsIdle(db, i, t);
    }
  }

  lemma EventKeepsDeleted(db: Db, e: Event, i: nat)
    requires Inv(db) && i < |db.instances| && db.instances[i].status.Deleted?
    ensures i < |ProcessEvent(db, e).instances| && ProcessEvent(db, e).instances[i] == db.instances[i]
  {
    if e.task < |db.tasks| {
      DeletedIsIdle(db, i, e.task);
    }
  }

  lemma SweepKeepsDeleted(cfg: Config, db: Db, i: nat)
    requires Inv(db) && i < |db.instances| && db.instances[i].status.Deleted?
    ensures i < |SweepOnce(cfg, db).instances| && SweepOnce(cfg, db).instances[i] == db.instances[i]
  {
    PickIsQueue(cfg, db);
    FailAllEffect(db, SweepPick(cfg, db));
    assert SweepOnce(cfg, db).instances[i] == UndoneRow(db, SweepPick(cfg, db), i);
  }

  /** Deletion is final: no request, retry, event or sweep changes anything in a deleted row. */
  lemma StepKeepsDeleted(cfg: Config, p: Node, a: Action, i: nat)
    requires Inv(p.db) && i < |p.db.instances| && p.db.instances[i].status.Deleted?
    ensures i < |Next(cfg, p, a).db.instances| && Next(cfg, p, a).db.instances[i] == p.db.instances[i]
  {
    if OnlyDelivers(a) {
      DeliveryKeepsRows(cfg, p, a);
    } else {
      match a
      case Cancel(t) => CancelKeepsDeleted(cfg, p.db, t, i);
      case Result(e) => EventKeepsDeleted(p.db, e, i);
      case Sweep => SweepKeepsDeleted(cfg, p.db, i);
      case _ => RequestOnlyAppends(cfg, p.db, a);
    }
  }

  lemma {:induction false} DeletedForever(cfg: Config, p: Node, acts: seq<Action>, i: nat)
    requires Inv(p.db) && LegalRun(acts) && i < |p.db.instances| && p.db.instances[i].status.Deleted?
    ensures i < |Run(cfg, p, acts).db.instances| && Run(cfg, p, acts).db.instances[i] == p.db.instances[i]
  {
    if acts != [] {
      var n := |acts| - 1;
      assert LegalRun(acts[..n]);
      DeletedForever(cfg, p, acts[..n], i);
      RunKeepsInv(cfg, p, acts[..n]);
      StepKeepsDeleted(cfg, Run(cfg, p, acts[..n]), acts[n], i);
    }
  }

  // ----- Failure round trip -----

  /** The task and the row of its instance, as they stand. */
  predicate Frozen(before: Db, after: Db, t: nat)
    requires t < |before.tasks| && before.tasks[t].instance < |before.instances|
  {
    && t < |after.tasks| && SameRequest(after.tasks[t], before.tasks[t])
    && before.tasks[t].instance < |after.instances|
    && after.instances[before.tasks[t].instance] == before.instances[before.tasks[t].instance]
  }

  lemma StaysFrozen(cfg: Config, before: Db, p: Node, a: Action, t: nat)
    requires t < |before.tasks| && before.tasks[t].instance < |before.instances|
    requires Inv(p.db) && t < |p.db.tasks| && (InFlight(p.db, t) ==> Frozen(before, p.db, t))
    ensures InFlight(Next(cfg, p, a).db, t) ==> Frozen(before, Next(cfg, p, a).db, t)
  {
    StepClimbs(cfg, p, a, t);
    if InFlight(p.db, t) {
      StepFollowsTask(cfg, p, a, t);
    }
  }

  /** As long as a task is active its instance row does not change, whatever the run does. */
  lemma {:induction false} FrozenWhileActive(cfg: Config, p: Node, acts: seq<Action>, t: nat)
    requires Inv(p.db) && LegalRun(acts) && t < |p.db.tasks|
    ensures p.db.tasks[t].instance < |p.db.instances| && t < |Run(cfg, p, acts).db.tasks|
    ensures InFlight(Run(cfg, p, acts).db, t) ==> Frozen(p.db, Run(cfg, p, acts).db, t)
  {
    assert TaskOk(p.db, t);
    if acts != [] {
      var n := |acts| - 1;
      assert LegalRun(acts[..n]);
      var mid := Run(cfg, p, acts[..n]);
      RunKeepsInv(cfg, p, acts[..n]);
      FrozenWhileActive(cfg, p, acts[..n], t);
      StepClimbs(cfg, mid, acts[n], t);
      StaysFrozen(cfg, p.db, mid, acts[n], t);
    }
  }

  /** The row an undone request leaves: start and stop restore it whole, update and delete restore spec and
      address and leave the instance in `error` with its resources reserved. */
  function Restored(row: Instance, a: Action): Instance {
    if a.Start? || a.Stop? then row.(lastTask := None)
    else row.(status := Error, reserve := true, lastTask := None)
  }

  predicate Undoable(a: Action) {
    a.Start? || a.Stop? || a.Update? || a.Delete?
  }

  /** Undoing a request straight after it was accepted. */
  lemma UndoRestores(cfg: Config, db: Db, a: Action)
    requires Inv(db) && Undoable(a) && Handle(cfg, db, a).reply.Accepted?
    ensures var t, after := Handle(cfg, db, a).reply.task, Handle(cfg, db, a).db;
            && a.instance < |db.instances| && a.instance < |after.instances| && t == |db.tasks| < |after.tasks|
            && after.tasks[t].instance == a.instance && Active(after.tasks[t].status)
            && Revert(after.instances[a.instance], after.tasks[t].command, after.tasks[t].payload) ==
               Restored(db.instances[a.instance], a)
  {
    NormalForm(cfg, db, a);
    NoActiveTaskMeansSettled(db, a.instance);
  }

  predicate FailedOrCanceled(db: Db, t: nat) {
    t < |db.tasks| && (db.tasks[t].status.Failed? || db.tasks[t].status.Canceled?)
  }

  /** Request, then any run whatsoever that leaves the new task active, then any step that fails or cancels
      it (queued cancel, sweep, failed or canceled event): the instance row is the restored one. */
  lemma {:induction false} FailureRoundTrip(cfg: Config, p: Node, a: Action, acts: seq<Action>, b: Action)
    requires Inv(p.db) && LegalRun(acts) && Undoable(a) && Handle(cfg, p.db, a).reply.Accepted?
    requires InFlight(Run(cfg, p, [a] + acts).db, |p.db.tasks|)
    requires FailedOrCanceled(Run(cfg, p, [a] + acts + [b]).db, |p.db.tasks|)
    ensures a.instance < |p.db.instances|
    ensures var last := Run(cfg, p, [a] + acts + [b]).db;
            a.instance < |last.instances| && last.instances[a.instance] == Restored(p.db.instances[a.instance], a)
  {
    var first, t := Next(cfg, p, a), |p.db.tasks|;
    UndoRestores(cfg, p.db, a);
    RequestKeepsInv(cfg, p.db, a);
    RunCons(cfg, p, a, acts);
    assert [a] + acts + [b] == [a] + (acts + [b]);
    RunCons(cfg, p, a, acts + [b]);
    FailureAfterRun(cfg, first, acts, b, t);
  }

  /** Failing a task after a run undoes the row as it stood before the run. */
  lemma {:induction false} FailureAfterRun(cfg: Config, first: Node, acts: seq<Action>, b: Action, t: nat)
    requires Inv(first.db) && LegalRun(acts) && InFlight(first.db, t)
    requires InFlight(Run(cfg, first, acts).db, t) && FailedOrCanceled(Run(cfg, first, acts + [b]).db, t)
    ensures var k, last := first.db.tasks[t], Run(cfg, first, acts + [b]).db;
            && k.instance < |first.db.instances| && k.instance < |last.instances|
            && last.instances[k.instance] == Revert(first.db.instances[k.instance], k.command, k.payload)
  {
    FrozenWhileActive(cfg, first, acts, t);
    RunKeepsInv(cfg, first, acts);
    RunSnoc(cfg, first, acts, b);
    StepFollowsTask(cfg, Run(cfg, first, acts), b, t);
  }

  // ----- Success round trip -----

  /** The row a request asks for, once its task `t` has succeeded with event `e` at time `now`. */
  function Fulfilled(db: Db, a: Action, t: nat, e: Event, now: nat): Instance
    requires CreatesTask(a) && !a.Retry? && (a.Create? || a.instance < |db.instances|)
  {
    match a
    case Create(tenant, name, spec, host, _) =>
      Instance(tenant, name, spec, InstanceStatus.Running, e.resultIp, host, true, Some(t), None)
    case Update(i, spec, _) =>
      db.instances[i].(spec := spec, status := GetOr(e.resultStatus, InstanceStatus.Running),
                       ip := OrElse(e.resultIp, db.instances[i].ip), reserve := true, lastTask := Some(t))
    case Start(i, _) =>
      db.instances[i].(status := InstanceStatus.Running, ip := OrElse(e.resultIp, db.instances[i].ip),
          lastTask := Some(t))
    case Stop(i) =>
      db.instances[i].(status := InstanceStatus.Stopped, ip := OrElse(e.resultIp, db.instances[i].ip),
          lastTask := Some(t))
    case Delete(i) =>
      db.instances[i].(status := Deleted, ip := None, reserve := false, lastTask := Some(t), deletedAt := Some(now))
  }

  lemma SuccessFulfills(cfg: Config, db: Db, a: Action, e: Event, now: nat)
    requires Inv(db) && CreatesTask(a) && !a.Retry? && Handle(cfg, db, a).reply.Accepted? && e.task == |db.tasks|
    ensures a.Create? || a.instance < |db.instances|
    ensures var t, after, i := |db.tasks|, Handle(cfg, db, a).db, Target(db, a);
            && t < |after.tasks| && i < |after.instances| && after.tasks[t].instance == i
            && Active(after.tasks[t].status)
            && Succeed(after.instances[i], after.tasks[t], t, e, now) == Fulfilled(db, a, t, e, now)
  {
    NormalForm(cfg, db, a);
    if !a.Create? {
      NoActiveTaskMeansSettled(db, a.instance);
    }
  }

  lemma {:induction false} SuccessAfterRun(cfg: Config, first: Node, acts: seq<Action>, e: Event)
    requires Inv(first.db) && LegalRun(acts) && InFlight(first.db, e.task)
    requires InFlight(Run(cfg, first, acts).db, e.task) && e.status.Succeeded?
    ensures var k, mid, last := first.db.tasks[e.task], Run(cfg, first, acts).db,
        ProcessEvent(Run(cfg, first, acts).db, e);
            && k.instance < |first.db.instances| && k.instance < |last.instances|
            && last.instances[k.instance] == Succeed(first.db.instances[k.instance], k, e.task, e, mid.now)
  {
    FrozenWhileActive(cfg, first, acts, e.task);
    RunKeepsInv(cfg, first, acts);
  }

  /** Request, then any run that leaves the new task active, then its success event: the row is exactly what
      was asked for, with the address the event reports or else the one it had. */
  lemma {:induction false} SuccessRoundTrip(cfg: Config, p: Node, a: Action, acts: seq<Action>, e: Event)
    requires Inv(p.db) && LegalRun(acts) && CreatesTask(a) && !a.Retry? && Handle(cfg, p.db, a).reply.Accepted?
    requires InFlight(Run(cfg, p, [a] + acts).db, |p.db.tasks|) && e.task == |p.db.tasks| && e.status.Succeeded?
    ensures a.Create? || a.instance < |p.db.instances|
    ensures var mid, last, i := Run(cfg, p, [a] + acts).db, ProcessEvent(Run(cfg, p, [a] + acts).db, e),
        Target(p.db, a);
            i < |last.instances| && last.instances[i] == Fulfilled(p.db, a, e.task, e, mid.now)
  {
    RunCons(cfg, p, a, acts);
    RequestKeepsInv(cfg, p.db, a);
    SuccessFulfills(cfg, p.db, a, e, Run(cfg, p, [a] + acts).db.now);
    RequestStep(cfg, p, a);
    SuccessAfterRun(cfg, Next(cfg, p, a), acts, e);
  }

  lemma RequestStep(cfg: Config, p: Node, a: Action)
    requires CreatesTask(a)
    ensures Next(cfg, p, a).db == Handle(cfg, p.db, a).db
  {
  }

  /** The snapshot a task carries still shows the row: the columns its undo will write. */
  predicate SnapshotIsCurrent(row: Instance, k: Task) {
    && k.payload.previousIp == row.ip
    && (k.command.Start? || k.command.Stop? ==>
          k.payload.previousStatus == Some(row.status) && k.payload.previousReserve == Some(row.reserve))
    && (k.command.Update? || k.command.Delete? ==> k.payload.previousSpec == Some(row.spec))
  }

  /** A retry keeps the snapshot of the task it repeats, so undoing it restores the row it found exactly when
      that snapshot is still current; otherwise an out-of-date spec, status or address comes back. */
  lemma RetryUndoRestoresIffSnapshotIsCurrent(cfg: Config, db: Db, s: nat)
    requires Inv(db) && RetryTask(cfg, db, s).reply.Accepted? && s < |db.tasks| && !db.tasks[s].command.Create?
    ensures db.tasks[s].instance < |db.instances|
    ensures var k, after := db.tasks[s], RetryTask(cfg, db, s).db;
            var row := db.instances[k.instance];
            && k.instance < |after.instances|
            && (Revert(after.instances[k.instance], k.command, k.payload)
                == (if k.command.Start? || k.command.Stop? then row.(lastTask := None)
                    else row.(status := Error, reserve := true, lastTask := None))
                <==> SnapshotIsCurrent(row, k))
  {
    NormalForm(cfg, db, Retry(s));
    assert TaskOk(db, s);
    NoActiveTaskMeansSettled(db, db.tasks[s].instance);
  }

  /** The default previous spec is never what an undo restores. */
  lemma DefaultSpecIsNeverUsed(db: Db, t: nat)
    requires Inv(db) && t < |db.tasks| && (db.tasks[t].command.Update? || db.tasks[t].command.Delete?)
    ensures db.tasks[t].payload.previousSpec.Some?
    ensures forall row: Instance ::
              Revert(row, db.tasks[t].command, db.tasks[t].payload).spec == db.tasks[t].payload.previousSpec.value
  {
    assert TaskOk(db, t);
  }

  // ----- Retry chains -----

  /** The first task of a retry chain. */
  function Root(db: Db, t: nat): nat
    requires t < |db.tasks|
  {
    if db.tasks[t].retryOf.Some? && db.tasks[t].retryOf.value < t then Root(db, db.tasks[t].retryOf.value) else t
  }

  lemma {:induction false} ChainSharesSnapshot(db: Db, t: nat)
    requires Inv(db) && t < |db.tasks|
    ensures Root(db, t) < |db.tasks|
    ensures var k, root := db.tasks[t], db.tasks[Root(db, t)];
            && root.retryOf.None? && root.instance == k.instance && root.command == k.command
            && root.payload == k.payload
            && (Root(db, t) != t <==> k.retryOf.Some?)
  {
    assert TaskOk(db, t);
    if db.tasks[t].retryOf.Some? {
      ChainSharesSnapshot(db, db.tasks[t].retryOf.value);
    }
  }

  /** Along a retry chain of any length every retry publishes, under a request id of its own, exactly the
      payload its first task enqueued - unless that one named the empty host, which a retry replaces by the
      instance's host. */
  lemma RetriesRepublishTheOriginal(db: Db, t: nat, r: nat, q: nat)
    requires Inv(db) && t < |db.tasks| && db.tasks[t].retryOf.Some?
    requires Root(db, t) < |db.tasks| && IsCommandRow(db, t, r) && IsCommandRow(db, Root(db, t), q)
    ensures db.outbox[r].request != db.outbox[q].request && db.outbox[r].topic == db.outbox[q].topic
    ensures db.tasks[t].instance < |db.instances|
    ensures db.outbox[r].payload == db.outbox[q].payload <==>
              db.tasks[t].payload.host != Some("") || db.instances[db.tasks[t].instance].host == ""
  {
    ChainSharesSnapshot(db, t);
    assert TaskOk(db, t) && TaskOk(db, Root(db, t));
    assert LinkOk(db, r) && LinkOk(db, q);
  }

  /** An accepted retry takes a request id that no row of the outbox has ever carried. */
  lemma RetryIsFresh(cfg: Config, db: Db, s: nat)
    requires Inv(db) && RetryTask(cfg, db, s).reply.Accepted?
    ensures var after := RetryTask(cfg, db, s).db;
            && |after.tasks| == |db.tasks| + 1
            && after.tasks[|db.tasks|].retryOf == Some(s)
            && (forall r :: 0 <= r < |db.outbox| ==> db.outbox[r].request != after.tasks[|db.tasks|].request)
  {
    NormalForm(cfg, db, Retry(s));
    forall r | 0 <= r < |db.outbox| ensures db.outbox[r].request != db.nextRequest {
      assert LinkOk(db, r);
    }
  }
}
