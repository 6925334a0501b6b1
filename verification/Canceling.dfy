/** Cancellation: what a cancel request does in each status, and that a running task is never canceled behind the
    agent's back - a cancel command for it is on the outbox. */
module Canceling {
  import opened Model
  import opened Accounting
  import opened ControlPlane
  import opened Outbox
  import opened Protocol
  import opened Requests
  import opened Invariant
  import opened Lifecycle
  import opened Delivery
  import Effects
  import opened Sweeping

  // ----- One cancel request -----

  /** A running task is marked and the agent is sent a cancel command under a request id of its own. */
  lemma CancelOfRunningTellsAgent(cfg: Config, p: Node, a: Action)
    requires Inv(p.db) && a.Cancel? && a.task < |p.db.tasks| && p.db.tasks[a.task].status.Running?
    ensures var db, t, k := p.db, a.task, p.db.tasks[a.task];
            && Handle(cfg, db, a).reply == Accepted(t, k.instance, k.command, TaskStatus.CancelPending)
            && Next(cfg, p, a) == p.(db := db.(
                 tasks := db.tasks[t := k.(status := TaskStatus.CancelPending)],
                 outbox := db.outbox
                   + [OutboxRow(CancelTopic, t, db.nextRequest, CancelPayload(k.instance, t, k.command),
                                OutboxStatus.Queued, 0, AtLeastOne(cfg.outboxMaxAttempts), db.now,
                                None, None, None, db.now)],
                 nextRequest := db.nextRequest + 1))
            && (forall r :: 0 <= r < |db.outbox| ==> db.outbox[r].request != db.nextRequest)
            && (forall s :: 0 <= s < |db.tasks| ==> db.tasks[s].request != db.nextRequest)
  {
    var k := p.db.tasks[a.task];
    assert TaskOk(p.db, a.task);
    EnqueueInserts(cfg, p.db, CancelTopic, CancelPayload(k.instance, a.task, k.command), a.task);
    forall r | 0 <= r < |p.db.outbox| ensures p.db.outbox[r].request != p.db.nextRequest {
      assert LinkOk(p.db, r);
    }
    forall s | 0 <= s < |p.db.tasks| ensures p.db.tasks[s].request != p.db.nextRequest {
      assert TaskOk(p.db, s);
    }
  }

  /** A queued task is over at once, without a word to the agent; its instance row is undone. */
  lemma CancelOfQueuedEndsIt(cfg: Config, p: Node, a: Action)
    requires Inv(p.db) && a.Cancel? && a.task < |p.db.tasks| && p.db.tasks[a.task].status.Queued?
    ensures p.db.tasks[a.task].instance < |p.db.instances|
    ensures var db, q, t, k := p.db, Next(cfg, p, a), a.task, p.db.tasks[a.task];
            && Handle(cfg, db, a).reply == Accepted(t, k.instance, k.command, TaskStatus.Canceled)
            && q == p.(db := db.(
                 tasks := db.tasks[t := k.(status := TaskStatus.Canceled, errorCode := Some("CANCELED"))],
                 instances := db.instances[k.instance := q.db.instances[k.instance]]))
            && !Pending(q.db.instances[k.instance].status) && q.db.instances[k.instance].lastTask.None?
  {
    assert TaskOk(p.db, a.task) && RowOk(p.db, p.db.tasks[a.task].instance);
  }

  /** Canceling again changes nothing and says so; a finished or unknown task cannot be canceled. */
  lemma OtherCancelsChangeNothing(cfg: Config, p: Node, a: Action)
    requires Inv(p.db) && a.Cancel?
    requires a.task < |p.db.tasks| ==> !p.db.tasks[a.task].status.Queued? && !p.db.tasks[a.task].status.Running?
    ensures Next(cfg, p, a) == p
    ensures Handle(cfg, p.db, a).reply
            == if a.task >= |p.db.tasks| then Rejected(NotFound)
               else
                 var k := p.db.tasks[a.task];
                 if k.status.CancelPending? || k.status.Canceled? then Accepted(a.task, k.instance, k.command, k.status)
                 else Rejected(Conflict)
  {
    if a.task < |p.db.tasks| {
      assert TaskOk(p.db, a.task);
    }
  }

  // ----- Every cancellation under way has its command -----

  predicate IsCancelRow(db: Db, t: nat, r: nat) {
    && t < |db.tasks| && r < |db.outbox| && db.outbox[r].topic.CancelTopic? && db.outbox[r].task == t
    && db.outbox[r].payload == CancelPayload(db.tasks[t].instance, t, db.tasks[t].command)
  }

  ghost predicate HasCancelRow(db: Db, t: nat) {
    exists r :: IsCancelRow(db, t, r)
  }

  ghost predicate AllCancelsSent(db: Db) {
    forall t :: 0 <= t < |db.tasks| && db.tasks[t].status.CancelPending? ==> HasCancelRow(db, t)
  }

  ghost predicate OneCancelEach(db: Db) {
    forall q, r :: 0 <= q < r < |db.outbox| && db.outbox[q].topic.CancelTopic? && db.outbox[r].topic.CancelTopic? ==>
      db.outbox[q].task != db.outbox[r].task
  }

  /** A task waiting for its cancellation has a cancel command of its own on the outbox, and no task has two. */
  ghost predicate CancelsOk(db: Db) {
    AllCancelsSent(db) && OneCancelEach(db)
  }

  /** Steps that leave the messages alone and mark no task. */
  lemma QuietKeepsCancels(before: Db, after: Db)
    requires CancelsOk(before) && SameMessages(before.outbox, after.outbox) && |before.tasks| == |after.tasks|
    requires forall t :: 0 <= t < |before.tasks| ==>
               && SameRequest(after.tasks[t], before.tasks[t])
               && (after.tasks[t].status.CancelPending? ==> before.tasks[t].status.CancelPending?)
    ensures CancelsOk(after)
  {
    forall t | 0 <= t < |after.tasks| && after.tasks[t].status.CancelPending? ensures HasCancelRow(after, t) {
      assert HasCancelRow(before, t);
      var r: nat :| IsCancelRow(before, t, r);
      assert SameMessage(before.outbox[r], after.outbox[r]);
      assert IsCancelRow(after, t, r);
    }
    forall q, r |
      0 <= q < r < |after.outbox| && after.outbox[q].topic.CancelTopic? && after.outbox[r].topic.CancelTopic?
      ensures after.outbox[q].task != after.outbox[r].task
    {
      assert SameMessage(before.outbox[q], after.outbox[q]) && SameMessage(before.outbox[r], after.outbox[r]);
    }
  }

  lemma RequestKeepsCancels(cfg: Config, p: Node, a: Action)
    requires Inv(p.db) && CancelsOk(p.db) && CreatesTask(a)
    ensures CancelsOk(Next(cfg, p, a).db)
  {
    if Guards(p.db, a) && CheckPasses(p.db, a) {
      var after := Next(cfg, p, a).db;
      Effects.AcceptedRequestCommits(cfg, p, a);
      forall t | 0 <= t < |after.tasks| && after.tasks[t].status.CancelPending? ensures HasCancelRow(after, t) {
        assert HasCancelRow(p.db, t);
        var r: nat :| IsCancelRow(p.db, t, r);
        assert IsCancelRow(after, t, r);
      }
    } else {
      Effects.RejectionTellsWhy(cfg, p, a);
    }
  }

  lemma CancelKeepsCancels(cfg: Config, p: Node, a: Action)
    requires Inv(p.db) && CancelsOk(p.db) && a.Cancel?
    ensures CancelsOk(Next(cfg, p, a).db)
  {
    var db, after := p.db, Next(cfg, p, a).db;
    if a.task < |db.tasks| && db.tasks[a.task].status.Running? {
      CancelOfRunningTellsAgent(cfg, p, a);
      forall t | 0 <= t < |after.tasks| && after.tasks[t].status.CancelPending? ensures HasCancelRow(after, t) {
        if t == a.task {
          assert IsCancelRow(after, t, |db.outbox|);
        } else {
          assert HasCancelRow(db, t);
          var r: nat :| IsCancelRow(db, t, r);
          assert IsCancelRow(after, t, r);
        }
      }
      forall q | 0 <= q < |db.outbox| && db.outbox[q].topic.CancelTopic? ensures db.outbox[q].task != a.task {
        assert LinkOk(db, q);
      }
    } else if a.task < |db.tasks| && db.tasks[a.task].status.Queued? {
      CancelOfQueuedEndsIt(cfg, p, a);
      QuietKeepsCancels(db, after);
    } else {
      OtherCancelsChangeNothing(cfg, p, a);
    }
  }

  lemma SweepKeepsCancels(cfg: Config, p: Node, a: Action)
    requires Inv(p.db) && CancelsOk(p.db) && a.Sweep?
    ensures CancelsOk(Next(cfg, p, a).db)
  {
    PickIsQueue(cfg, p.db);
    FailAllEffect(p.db, SweepPick(cfg, p.db));
    QuietKeepsCancels(p.db, Next(cfg, p, a).db);
  }

  lemma DeliveryKeepsCancels(cfg: Config, p: Node, a: Action)
    requires CancelsOk(p.db) && OnlyDelivers(a)
    ensures CancelsOk(Next(cfg, p, a).db)
  {
    DeliveryKeepsRows(cfg, p, a);
    if RelayMoves(a) {
      RelayKeepsMessages(cfg, p, a);
    }
    QuietKeepsCancels(p.db, Next(cfg, p, a).db);
  }

  lemma ResultKeepsCancels(cfg: Config, p: Node, a: Action)
    requires CancelsOk(p.db) && a.Result?
    ensures CancelsOk(Next(cfg, p, a).db)
  {
    Effects.ResultIsTold(cfg, p, a);
    QuietKeepsCancels(p.db, Next(cfg, p, a).db);
  }

  lemma StepKeepsCancels(cfg: Config, p: Node, a: Action)
    requires Inv(p.db) && CancelsOk(p.db)
    ensures CancelsOk(Next(cfg, p, a).db)
  {
    if OnlyDelivers(a) {
      DeliveryKeepsCancels(cfg, p, a);
    } else {
      match a
      case Cancel(_) => CancelKeepsCancels(cfg, p, a);
      case Result(_) => ResultKeepsCancels(cfg, p, a);
      case Sweep => SweepKeepsCancels(cfg, p, a);
      case _ => RequestKeepsCancels(cfg, p, a);
    }
  }

  lemma {:induction false} RunKeepsCancels(cfg: Config, p: Node, acts: seq<Action>)
    requires Inv(p.db) && CancelsOk(p.db) && LegalRun(acts)
    ensures CancelsOk(Run(cfg, p, acts).db)
  {
    if acts != [] {
      var n := |acts| - 1;
      assert LegalRun(acts[..n]);
      RunKeepsCancels(cfg, p, acts[..n]);
      RunKeepsInv(cfg, p, acts[..n]);
      StepKeepsCancels(cfg, Run(cfg, p, acts[..n]), acts[n]);
    }
  }

  /** In every reachable state a task waiting for its cancellation has exactly one cancel command on the outbox; it
      names the task, and no other row and no task shares its request id. */
  lemma {:induction false} CancellationsReachTheOutbox(cfg: Config, start: Node, acts: seq<Action>, t: nat)
    returns (r: nat)
    requires Initial(start) && LegalRun(acts)
    requires t < |Run(cfg, start, acts).db.tasks| && Run(cfg, start, acts).db.tasks[t].status.CancelPending?
    ensures var db := Run(cfg, start, acts).db;
            && IsCancelRow(db, t, r)
            && (forall q :: 0 <= q < |db.outbox| && q != r && db.outbox[q].topic.CancelTopic? ==>
                  db.outbox[q].task != t)
            && (forall q :: 0 <= q < |db.outbox| && q != r ==> db.outbox[q].request != db.outbox[r].request)
            && (forall s :: 0 <= s < |db.tasks| ==> db.tasks[s].request != db.outbox[r].request)
  {
    var db := Run(cfg, start, acts).db;
    RunKeepsCancels(cfg, start, acts);
    RunKeepsInv(cfg, start, acts);
    assert HasCancelRow(db, t);
    r :| IsCancelRow(db, t, r);
    forall s | 0 <= s < |db.tasks| ensures db.tasks[s].request != db.outbox[r].request {
      var own := ExactlyOneCommandRow(db, s);
    }
  }
}
