/** One normal form for the six requests that create a task: when they are accepted and what they submit. */
module Requests {
  import opened Model
  import opened Accounting
  import opened ControlPlane
  import opened Protocol

  /** Every request but cancel creates a task. */
  predicate CreatesTask(a: Action) {
    IsRequest(a) && !a.Cancel?
  }

  /** The instance a request writes. */
  function Target(db: Db, a: Action): nat
    requires CreatesTask(a)
  {
    match a
    case Create(_, _, _, _, _) => |db.instances|
    case Delete(i) => i
    case Stop(i) => i
    case Start(i, _) => i
    case Update(i, _, _) => i
    case Retry(t) => if t < |db.tasks| then db.tasks[t].instance else 0
  }

  /** The quota and capacity check an accepted request went through; `None` when the handler makes none. */
  function CheckOf(db: Db, a: Action): Option<Check>
    requires CreatesTask(a)
  {
    var i := Target(db, a);
    match a
    case Create(_, _, spec, _, _) => Some(Check(None, spec, NoProfile, RunningProfile))
    case Start(_, _) =>
      if i < |db.instances| && db.instances[i].status.Stopped?
      then Some(Check(Some(db.instances[i].spec), db.instances[i].spec, StoppedProfile, RunningProfile)) else None
    case Update(_, spec, _) => if i < |db.instances| then Some(UpdateCheck(db.instances[i], spec)) else None
    case Retry(t) =>
      if t < |db.tasks| && i < |db.instances| && Charged(db.tasks[t].command)
      then Some(RetryCheck(db.instances[i], db.tasks[t])) else None
    case _ => None
  }

  function TenantOf(db: Db, a: Action): nat
    requires CreatesTask(a)
  {
    if a.Create? then a.tenant
    else if Target(db, a) < |db.instances| then db.instances[Target(db, a)].tenant else 0
  }

  function HostOf(db: Db, a: Action): string
    requires CreatesTask(a)
  {
    match a
    case Create(_, _, _, host, _) => host
    case Start(_, host) => host
    case Update(_, _, host) => host
    case Retry(t) =>
      if t < |db.tasks| && Target(db, a) < |db.instances|
      then RetryHost(db.instances[Target(db, a)], db.tasks[t].payload) else ""
    case _ => ""
  }

  /** What a request needs of the tables besides passing its check. */
  predicate Guards(db: Db, a: Action)
    requires CreatesTask(a)
  {
    var i := Target(db, a);
    && (a.Retry? ==> a.task < |db.tasks| && (db.tasks[a.task].status.Failed? || db.tasks[a.task].status.Canceled?))
    && (a.Create? || a.Update? ==> a.spec.Positive())
    && (!a.Create? ==>
          && i < |db.instances|
          && !db.instances[i].status.Deleted?
          && !HasActiveTask(db.tasks, i)
          && (a.Stop? || a.Start? ==> db.instances[i].status.Running? || db.instances[i].status.Stopped?))
    && (a.Retry? ==>
          CommandMessage(db.tasks[a.task].command, i, db.tasks[a.task].payload, HostOf(db, a)).Some?)
  }

  predicate CheckPasses(db: Db, a: Action)
    requires CreatesTask(a)
  {
    CheckOf(db, a).Some? ==>
      FirstCheckError(db, TenantOf(db, a), HostOf(db, a), CheckOf(db, a).value).None?
  }

  function CommandOf(db: Db, a: Action): Command
    requires CreatesTask(a) && Guards(db, a)
  {
    match a
    case Create(_, _, _, _, _) => Command.Create
    case Delete(_) => Command.Delete
    case Stop(_) => Command.Stop
    case Start(_, _) => Command.Start
    case Update(_, _, _) => Command.Update
    case Retry(s) => db.tasks[s].command
  }

  /** The request payload of the new task: a snapshot of the row, or the retried task's own snapshot. */
  function PayloadOf(db: Db, a: Action): RequestPayload
    requires CreatesTask(a) && Guards(db, a)
  {
    match a
    case Create(tenant, name, spec, host, image) => CreatePayloadOf(tenant, name, spec, host, image)
    case Delete(i) => DeletePayloadOf(db.instances[i])
    case Stop(i) => PowerPayloadOf(db.instances[i], db.instances[i].host)
    case Start(i, host) => PowerPayloadOf(db.instances[i], host)
    case Update(i, spec, host) => UpdatePayloadOf(db.instances[i], spec, host)
    case Retry(s) => db.tasks[s].payload
  }

  /** The row the request leaves at its target: for every command the one `ApplyPending` gives. */
  function WrittenRow(db: Db, a: Action): Instance
    requires CreatesTask(a) && Guards(db, a)
  {
    if a.Create? then Instance(a.tenant, a.name, a.spec, CreatingPending, None, a.host, true, Some(|db.tasks|), None)
    else ApplyPending(db.instances[Target(db, a)], CommandOf(db, a), PayloadOf(db, a), |db.tasks|)
  }

  /** The payload put on the outbox. */
  function MessageOf(db: Db, a: Action): CommandPayload
    requires CreatesTask(a) && Guards(db, a)
  {
    var i := Target(db, a);
    match a
    case Create(_, name, spec, host, image) => CreatePayload(i, name, spec, host, OrElse(image, None))
    case Delete(_) => TargetPayload(i, db.instances[i].host)
    case Stop(_) => TargetPayload(i, db.instances[i].host)
    case Start(_, host) => TargetPayload(i, host)
    case Update(_, spec, host) => UpdatePayload(i, spec, host, !db.instances[i].status.Stopped?)
    case Retry(s) => CommandMessage(db.tasks[s].command, i, db.tasks[s].payload, HostOf(db, a)).value
  }

  function RetryOf(a: Action): Option<nat> {
    if a.Retry? then Some(a.task) else None
  }

  /** A request is accepted exactly when its guards hold and its check, if it makes one, passes; then it
      submits one row, one task and one outbox row. Otherwise nothing is written. */
  lemma NormalForm(cfg: Config, db: Db, a: Action)
    requires CreatesTask(a)
    ensures Guards(db, a) && CheckPasses(db, a) ==>
              && Target(db, a) <= |db.instances|
              && Handle(cfg, db, a) ==
                 Submit(cfg, db, Target(db, a), WrittenRow(db, a), CommandOf(db, a), PayloadOf(db, a),
                     MessageOf(db, a), RetryOf(a))
    ensures !(Guards(db, a) && CheckPasses(db, a)) ==> Handle(cfg, db, a).reply.Rejected? && Handle(cfg, db, a).db == db
  {
    match a
    case Create(_, _, _, _, _) => CreateNormalForm(cfg, db, a);
    case Retry(_) => RetryNormalForm(cfg, db, a);
    case Update(_, _, _) => UpdateNormalForm(cfg, db, a);
    case _ =>
  }

  lemma CreateNormalForm(cfg: Config, db: Db, a: Action)
    requires a.Create?
    ensures Guards(db, a) && CheckPasses(db, a) ==>
              CreateInstance(cfg, db, a.tenant, a.name, a.spec, a.host, a.image) ==
              Submit(cfg, db, Target(db, a), WrittenRow(db, a), CommandOf(db, a), PayloadOf(db, a), MessageOf(db, a),
                  None)
    ensures !(Guards(db, a) && CheckPasses(db, a)) ==>
              && CreateInstance(cfg, db, a.tenant, a.name, a.spec, a.host, a.image).reply.Rejected?
              && CreateInstance(cfg, db, a.tenant, a.name, a.spec, a.host, a.image).db == db
  {
  }

  lemma UpdateNormalForm(cfg: Config, db: Db, a: Action)
    requires a.Update?
    ensures Guards(db, a) && CheckPasses(db, a) ==>
              UpdateInstance(cfg, db, a.instance, a.spec, a.host) ==
              Submit(cfg, db, a.instance, WrittenRow(db, a), CommandOf(db, a), PayloadOf(db, a), MessageOf(db, a), None)
    ensures !(Guards(db, a) && CheckPasses(db, a)) ==>
              && UpdateInstance(cfg, db, a.instance, a.spec, a.host).reply.Rejected?
              && UpdateInstance(cfg, db, a.instance, a.spec, a.host).db == db
  {
  }

  lemma RetryNormalForm(cfg: Config, db: Db, a: Action)
    requires a.Retry?
    ensures Guards(db, a) && CheckPasses(db, a) ==>
              RetryTask(cfg, db, a.task) ==
              Submit(cfg, db, Target(db, a), WrittenRow(db, a), CommandOf(db, a), PayloadOf(db, a), MessageOf(db, a),
                  Some(a.task))
    ensures !(Guards(db, a) && CheckPasses(db, a)) ==>
              RetryTask(cfg, db, a.task).reply.Rejected? && RetryTask(cfg, db, a.task).db == db
  {
  }
}
