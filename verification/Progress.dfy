/** Progress of the agent: which commands a machine can serve, what a served command leaves, that the retry loop stops
    at the first attempt that works, and when retrying helps. */
module Progress {
  import opened Model
  import opened Agent

  // ----- One attempt in which nothing fails -----

  /** The machine can serve the command: a valid request, for a machine in the right state, with no process in the way
      of the one to be started. */
  predicate CanServe(m: Message, vm: Vm) {
    match (m.topic, m.payload)
    case (Lifecycle(Create), CreatePayload(_, _, spec, _, _)) => spec.Positive() && vm.process.None?
    case (Lifecycle(Update), UpdatePayload(_, spec, _, _)) =>
      && spec.Positive() && vm.record.Some? && vm.record.value.disk <= spec.disk
      && (StartsCold(m, vm) ==> vm.process.None?)
    case (Lifecycle(Start), TargetPayload(_, _)) =>
      && vm.record.Some? && (vm.record.value.status.Running? || vm.record.value.status.Stopped?)
      && (StartsCold(m, vm) ==> vm.process.None?)
    case (Lifecycle(Stop), TargetPayload(_, _)) =>
      vm.record.Some? && (vm.record.value.status.Running? || vm.record.value.status.Stopped?)
    case (Lifecycle(Delete), TargetPayload(_, _)) => true
    case (CancelTopic, CancelPayload(_, _, _)) => true
    case _ => false
  }

  /** The command starts a process without shutting one down first. */
  predicate StartsCold(m: Message, vm: Vm) {
    match (m.topic, m.payload)
    case (Lifecycle(Create), CreatePayload(_, _, _, _, _)) => true
    case (Lifecycle(Update), UpdatePayload(_, _, _, boot)) =>
      boot && vm.record.Some? && vm.record.value.status.Stopped?
    case (Lifecycle(Start), TargetPayload(_, _)) => vm.record.Some? && vm.record.value.status.Stopped?
    case _ => false
  }

  /** When nothing fails, an attempt succeeds exactly when the machine can serve the command. */
  lemma FaultFreeSucceedsIff(cfg: AgentConfig, m: Message, vm: Vm)
    ensures Attempt(cfg, m, vm, NO_FAULTS).response.success <==> CanServe(m, vm)
  {
  }

  /** The machine and the reply after a served command, in full. */
  predicate Served(cfg: AgentConfig, m: Message, vm: Vm, after: Vm, reply: Response)
    requires CanServe(m, vm)
  {
    && reply.success && reply.correlation == m.correlation && reply.errorCode == ""
    && match (m.topic, m.payload)
       case (Lifecycle(Create), CreatePayload(i, _, spec, _, _)) =>
         && reply.status == Some(Lasting(InstanceStatus.Running)) && reply.ip == Some(AddressOf(cfg, i))
         && after == Vm(Some(Process(spec.cpu, spec.memory)), Up, Some(spec.disk),
                        Some(Record(spec.cpu, spec.memory, spec.disk, InstanceStatus.Running, AddressOf(cfg, i))))
       case (Lifecycle(Update), UpdatePayload(_, spec, _, boot)) =>
         var st, status := vm.record.value, if boot then InstanceStatus.Running else InstanceStatus.Stopped;
         && reply.status == Some(Lasting(status)) && reply.ip == Some(st.ip)
         && after.record == Some(Record(spec.cpu, spec.memory, spec.disk, status, st.ip))
         && after.disk == (if spec.disk == st.disk then vm.disk else Some(spec.disk))
         && after.net == (if boot then Up else Down)
         && after.process == (if boot then Some(Process(spec.cpu, spec.memory))
                              else if st.status.Stopped? then vm.process else None)
       case (Lifecycle(Start), TargetPayload(_, _)) =>
         var st := vm.record.value;
         && reply.status == Some(Lasting(InstanceStatus.Running)) && reply.ip == Some(st.ip)
         && after == if st.status.Running? then vm
                     else Vm(Some(Process(st.cpu, st.memory)), Up, vm.disk,
                             Some(st.(status := InstanceStatus.Running)))
       case (Lifecycle(Stop), TargetPayload(_, _)) =>
         var st := vm.record.value;
         && reply.status == Some(Lasting(InstanceStatus.Stopped)) && reply.ip == Some(st.ip)
         && after == Vm(if st.status.Running? then None else vm.process, Down, vm.disk,
                        Some(st.(status := InstanceStatus.Stopped)))
       case (Lifecycle(Delete), TargetPayload(_, _)) =>
         && reply.status == Some(Lasting(Deleted)) && reply.ip.None?
         && after == Vm(if vm.record.Some? then None else vm.process, Down, None, None)
       case (CancelTopic, _) => reply.status == Some(ResponseStatus.Canceled) && reply.ip.None? && after == vm
       case _ => true
  }

  lemma FaultFreeServes(cfg: AgentConfig, m: Message, vm: Vm)
    requires CanServe(m, vm)
    ensures Served(cfg, m, vm, Attempt(cfg, m, vm, NO_FAULTS).vm, Attempt(cfg, m, vm, NO_FAULTS).response)
  {
  }

  /** So, whatever failed on the way: a new command reported as successful, on a machine that matches its state file,
      was one the machine could serve, and has left the state file and reply of a served one. */
  lemma SuccessServes(cfg: AgentConfig, w: World, m: Message, s: Schedule)
    requires m.request.Some? && m.request.value !in w.replies
    requires Consistent(VmOf(w, InstanceOf(m.payload))) && Handle(cfg, w, m, s).response.success
    ensures var vm, h := VmOf(w, InstanceOf(m.payload)), Handle(cfg, w, m, s);
            && CanServe(m, vm)
            && Served(cfg, m, vm, Attempt(cfg, m, vm, NO_FAULTS).vm, h.response)
            && VmOf(h.world, InstanceOf(m.payload)).record == Attempt(cfg, m, vm, NO_FAULTS).vm.record
  {
    var vm := VmOf(w, InstanceOf(m.payload));
    SuccessIsFaultFree(cfg, w, m, s);
    FaultFreeSucceedsIff(cfg, m, vm);
    FaultFreeServes(cfg, m, vm);
  }

  /** What an error code blames. */
  lemma ErrorCodeTellsCause(cfg: AgentConfig, m: Message, vm: Vm, f: Faults)
    requires !Attempt(cfg, m, vm, f).response.success && f.image.None?
    ensures var code := Attempt(cfg, m, vm, f).response.errorCode;
            && (code == "NETWORK_ERROR" || code == "VM_NOT_FOUND" || code == "VALIDATION_ERROR" || code == "QEMU_ERROR")
            && (code == "NETWORK_ERROR" ==> f.ensure.Some?)
            && (code == "VM_NOT_FOUND" ==> f.load || vm.record.None?)
            && (code == "VALIDATION_ERROR" ==> !CanServe(m, vm))
            && (code == "QEMU_ERROR" ==>
                  || f.mkdir || f.seed || f.save || f.drop || f.overlay.Some? || f.launch.Some? || f.halt.Some?
                  || f.resize.Some? || f.removeDir.Some? || vm.process.Some?)
  {
  }

  // ----- The loop stops at the first attempt that works -----

  /** One attempt at some command, given the machine and how many attempts were made before. */
  type Step = (Vm, nat) -> Attempted

  function StepOf(cfg: AgentConfig, m: Message, s: Schedule): Step {
    (vm: Vm, n: nat) => Attempt(cfg, m, vm, FaultsAt(s, n + 1))
  }

  /** Attempt number `n`, counted from 1, at a machine. */
  function Try(step: Step, vm: Vm, n: nat): Attempted
    requires n >= 1
  {
    step(vm, n - 1)
  }

  /** The machine after the first `n` attempts, had they all been made. */
  function AfterTries(step: Step, vm: Vm, n: nat): Vm {
    if n == 0 then vm else Try(step, AfterTries(step, vm, n - 1), n).vm
  }

  /** The `n`-th attempt, had all before it been made. */
  function Trial(step: Step, vm: Vm, n: nat): Attempted
    requires n >= 1
  {
    Try(step, AfterTries(step, vm, n - 1), n)
  }

  /** The first `n` attempts all fail. */
  predicate AllFail(step: Step, vm: Vm, n: nat) {
    n == 0 || (AllFail(step, vm, n - 1) && !Trial(step, vm, n).response.success)
  }

  lemma {:induction false} FewerFail(step: Step, vm: Vm, j: nat, n: nat)
    requires j <= n && AllFail(step, vm, n)
    ensures AllFail(step, vm, j)
  {
    if j < n {
      FewerFail(step, vm, j, n - 1);
    }
  }

  /** The first attempt that succeeds within the limit, or the last one allowed. */
  function Reported(step: Step, limit: nat, vm: Vm, attempt: nat): Retried
    requires 1 <= attempt <= limit
    decreases limit - attempt
  {
    var tried := Try(step, vm, attempt);
    if tried.response.success || attempt == limit then Retried(tried.vm, tried.response, attempt)
    else Reported(step, limit, tried.vm, attempt + 1)
  }

  /** One turn of the loop ends it, or goes on with the machine it leaves. */
  lemma LoopTurn(cfg: AgentConfig, m: Message, vm: Vm, s: Schedule, attempt: nat) returns (over: bool, later: Vm)
    requires 1 <= attempt <= cfg.retries
    ensures over || attempt < cfg.retries
    ensures over ==>
              Attempts(cfg, m, vm, s, attempt) == Reported(StepOf(cfg, m, s), cfg.retries, vm, attempt)
    ensures !over ==>
              && Attempts(cfg, m, vm, s, attempt) == Attempts(cfg, m, later, s, attempt + 1)
              && Reported(StepOf(cfg, m, s), cfg.retries, vm, attempt)
                 == Reported(StepOf(cfg, m, s), cfg.retries, later, attempt + 1)
  {
    var tried := Attempt(cfg, m, vm, FaultsAt(s, attempt));
    assert Try(StepOf(cfg, m, s), vm, attempt) == tried;
    over, later := tried.response.success || attempt == cfg.retries, tried.vm;
  }

  lemma LoopReports(cfg: AgentConfig, m: Message, vm: Vm, s: Schedule, step: Step)
    requires step == StepOf(cfg, m, s)
    ensures Attempts(cfg, m, vm, s, 1) == Reported(step, cfg.retries, vm, 1)
  {
    var n, now, over, later := 1, vm, false, vm;
    while !over
      invariant 1 <= n <= cfg.retries
      invariant !over ==> Attempts(cfg, m, vm, s, 1) == Attempts(cfg, m, now, s, n)
      invariant !over ==> Reported(step, cfg.retries, vm, 1) == Reported(step, cfg.retries, now, n)
      invariant over ==> Attempts(cfg, m, vm, s, 1) == Reported(step, cfg.retries, vm, 1)
      decreases cfg.retries - n, !over
    {
      over, later := LoopTurn(cfg, m, now, s, n);
      if !over {
        n, now := n + 1, later;
      }
    }
  }

  lemma FirstIsReported(step: Step, limit: nat, vm: Vm)
    requires limit >= 1
    ensures var r := Reported(step, limit, vm, 1);
            && 1 <= r.attempts <= limit
            && Attempted(r.vm, r.response) == Trial(step, vm, r.attempts)
            && AllFail(step, vm, r.attempts - 1)
            && (!r.response.success ==> r.attempts == limit)
            && (r.response.success <==> !AllFail(step, vm, limit))
  {
    var done := 0;
    while done + 1 < limit && !Trial(step, vm, done + 1).response.success
      invariant 0 <= done < limit
      invariant Reported(step, limit, AfterTries(step, vm, done), done + 1) == Reported(step, limit, vm, 1)
      invariant AllFail(step, vm, done)
    {
      done := done + 1;
    }
    if AllFail(step, vm, limit) {
      FewerFail(step, vm, done + 1, limit);
    }
  }

  lemma SuccessBy(step: Step, limit: nat, vm: Vm, k: nat)
    requires 1 <= k <= limit
    ensures var r := Reported(step, limit, vm, 1);
            r.response.success && r.attempts <= k <==> !AllFail(step, vm, k)
  {
    var r := Reported(step, limit, vm, 1);
    FirstIsReported(step, limit, vm);
    if AllFail(step, vm, k) {
      if r.attempts <= k {
        FewerFail(step, vm, r.attempts, k);
      }
    } else if k < r.attempts {
      FewerFail(step, vm, k, r.attempts - 1);
    } else if !r.response.success {
      FewerFail(step, vm, k, limit);
    }
  }

  /** The reply is that of the first attempt to succeed, or of the last one allowed: every attempt before it has
      failed, and a reported failure means that all of them were made. */
  lemma FirstSuccessIsReported(cfg: AgentConfig, m: Message, vm: Vm, s: Schedule)
    ensures var r, step := Attempts(cfg, m, vm, s, 1), StepOf(cfg, m, s);
            && 1 <= r.attempts <= cfg.retries
            && Attempted(r.vm, r.response) == Trial(step, vm, r.attempts)
            && AllFail(step, vm, r.attempts - 1)
            && (!r.response.success ==> r.attempts == cfg.retries)
            && (r.response.success <==> !AllFail(step, vm, cfg.retries))
  {
    LoopReports(cfg, m, vm, s, StepOf(cfg, m, s));
    FirstIsReported(StepOf(cfg, m, s), cfg.retries, vm);
  }

  // ----- When retrying helps -----

  lemma FailureKeepsServing(cfg: AgentConfig, m: Message, vm: Vm, f: Faults)
    requires CanServe(m, vm) && !Attempt(cfg, m, vm, f).response.success
    ensures var after := Attempt(cfg, m, vm, f).vm;
            && StartsCold(m, after) == StartsCold(m, vm)
            && (CanServe(m, after) <==> (StartsCold(m, vm) ==> after.process.None?))
  {
    FailedAttemptKeepsRecord(cfg, m, vm, f);
  }

  /** A process in the way of one to be started stays there, and every attempt fails. */
  lemma LeftProcessBlocks(cfg: AgentConfig, m: Message, vm: Vm, f: Faults)
    requires StartsCold(m, vm) && vm.process.Some?
    ensures var tried := Attempt(cfg, m, vm, f);
            !tried.response.success && StartsCold(m, tried.vm) && tried.vm.process == vm.process
  {
  }

  /** The machine after failed attempts can still serve the command exactly when none of them left a process in the
      way. */
  lemma {:induction false} StillServes(cfg: AgentConfig, m: Message, vm: Vm, s: Schedule, n: nat)
    requires CanServe(m, vm) && AllFail(StepOf(cfg, m, s), vm, n)
    ensures var after := AfterTries(StepOf(cfg, m, s), vm, n);
            && StartsCold(m, after) == StartsCold(m, vm)
            && (CanServe(m, after) <==> (StartsCold(m, vm) ==> after.process.None?))
            && (!CanServe(m, after) ==> StartsCold(m, after) && after.process.Some?)
  {
    if n > 0 {
      var before := AfterTries(StepOf(cfg, m, s), vm, n - 1);
      StillServes(cfg, m, vm, s, n - 1);
      if CanServe(m, before) {
        FailureKeepsServing(cfg, m, before, FaultsAt(s, n));
      } else {
        LeftProcessBlocks(cfg, m, before, FaultsAt(s, n));
        FailedAttemptKeepsRecord(cfg, m, before, FaultsAt(s, n));
      }
    }
  }

  /** The exact worth of a fault-free attempt: from a machine that can serve the command, when attempt `k` meets no
      fault, the command succeeds by then if and only if an earlier attempt does, or none has left a process where one
      is to be started. */
  lemma {:induction false} FaultFreeAttemptHelpsIff(cfg: AgentConfig, m: Message, vm: Vm, s: Schedule, k: nat)
    requires CanServe(m, vm) && 1 <= k <= cfg.retries && FaultsAt(s, k) == NO_FAULTS
    ensures var r, step := Attempts(cfg, m, vm, s, 1), StepOf(cfg, m, s);
            r.response.success && r.attempts <= k <==>
              !AllFail(step, vm, k - 1) || !(StartsCold(m, vm) && AfterTries(step, vm, k - 1).process.Some?)
  {
    LoopReports(cfg, m, vm, s, StepOf(cfg, m, s));
    SuccessBy(StepOf(cfg, m, s), cfg.retries, vm, k);
    if AllFail(StepOf(cfg, m, s), vm, k - 1) {
      StillServes(cfg, m, vm, s, k - 1);
      FaultFreeSucceedsIff(cfg, m, AfterTries(StepOf(cfg, m, s), vm, k - 1));
    }
  }

  /** The failures of these calls leave no process: the launch has left none, and nothing fails after it. */
  predicate LeavesNoProcess(f: Faults) {
    !f.save && (f.launch.Some? ==> f.launch.value.None?)
  }

  lemma CleanFailureKeepsServing(cfg: AgentConfig, m: Message, vm: Vm, f: Faults)
    requires CanServe(m, vm) && LeavesNoProcess(f) && !Attempt(cfg, m, vm, f).response.success
    ensures CanServe(m, Attempt(cfg, m, vm, f).vm)
  {
    FailureKeepsServing(cfg, m, vm, f);
  }

  lemma {:induction false} CleanFailuresKeepServing(cfg: AgentConfig, m: Message, vm: Vm, s: Schedule, n: nat)
    requires CanServe(m, vm) && forall j :: 1 <= j <= n ==> LeavesNoProcess(FaultsAt(s, j))
    requires AllFail(StepOf(cfg, m, s), vm, n)
    ensures CanServe(m, AfterTries(StepOf(cfg, m, s), vm, n))
  {
    if n > 0 {
      CleanFailuresKeepServing(cfg, m, vm, s, n - 1);
      assert LeavesNoProcess(FaultsAt(s, n));
      CleanFailureKeepsServing(cfg, m, AfterTries(StepOf(cfg, m, s), vm, n - 1), FaultsAt(s, n));
    }
  }

  /** Retrying works: a command the machine can serve succeeds by attempt `k` if that attempt meets no fault and the
      calls that failed before it left no process behind. */
  lemma {:induction false} RetryingSucceeds(cfg: AgentConfig, m: Message, vm: Vm, s: Schedule, k: nat)
    requires CanServe(m, vm) && 1 <= k <= cfg.retries && FaultsAt(s, k) == NO_FAULTS
    requires forall j :: 1 <= j < k ==> LeavesNoProcess(FaultsAt(s, j))
    ensures Attempts(cfg, m, vm, s, 1).response.success && Attempts(cfg, m, vm, s, 1).attempts <= k
  {
    if AllFail(StepOf(cfg, m, s), vm, k - 1) {
      CleanFailuresKeepServing(cfg, m, vm, s, k - 1);
      StillServes(cfg, m, vm, s, k - 1);
    }
    FaultFreeAttemptHelpsIff(cfg, m, vm, s, k);
  }

  /** ... and the success is what the agent answers, now and to every repeat. */
  lemma RetriedCommandIsAnswered(cfg: AgentConfig, w: World, m: Message, s: Schedule, k: nat, again: Schedule)
    requires m.request.Some? && m.request.value !in w.replies && !s.replyLost
    requires CanServe(m, VmOf(w, InstanceOf(m.payload))) && 1 <= k <= cfg.retries && FaultsAt(s, k) == NO_FAULTS
    requires forall j :: 1 <= j < k ==> LeavesNoProcess(FaultsAt(s, j))
    ensures var h := Handle(cfg, w, m, s);
            && h.response.success && h.attempts <= k
            && Handle(cfg, h.world, m, again).response == h.response && Handle(cfg, h.world, m, again).world == h.world
  {
    var vm := VmOf(w, InstanceOf(m.payload));
    RetryingSucceeds(cfg, m, vm, s, k);
    ResponseEchoesCorrelation(cfg, m, vm, s, 1);
  }

  /** The witness for the exact condition: a create whose state file cannot be written once fails for good, although
      every later attempt meets no fault; its process is still there. */
  lemma {:induction false} UnsavedCreateNeverSucceeds(cfg: AgentConfig, m: Message, vm: Vm)
    requires m.topic == Lifecycle(Create) && m.payload.CreatePayload? && CanServe(m, vm)
    ensures var r := Attempts(cfg, m, vm, Schedule([NO_FAULTS.(save := true)], false), 1);
            && !r.response.success && r.attempts == cfg.retries
            && r.vm.process == Some(Process(m.payload.spec.cpu, m.payload.spec.memory)) && r.vm.record == vm.record
  {
    var s := Schedule([NO_FAULTS.(save := true)], false);
    FirstSuccessIsReported(cfg, m, vm, s);
    FailureKeepsRecord(cfg, m, vm, s, 1);
    BlockedForGood(cfg, m, vm, s, Attempts(cfg, m, vm, s, 1).attempts);
  }

  /** Once the first attempt has left a process where one is to be started, all attempts fail and it stays. */
  lemma {:induction false} BlockedForGood(cfg: AgentConfig, m: Message, vm: Vm, s: Schedule, n: nat)
    requires n >= 1 && !Trial(StepOf(cfg, m, s), vm, 1).response.success
    requires StartsCold(m, AfterTries(StepOf(cfg, m, s), vm, 1)) && AfterTries(StepOf(cfg, m, s), vm, 1).process.Some?
    ensures !Trial(StepOf(cfg, m, s), vm, n).response.success
    ensures StartsCold(m, AfterTries(StepOf(cfg, m, s), vm, n))
    ensures AfterTries(StepOf(cfg, m, s), vm, n).process == AfterTries(StepOf(cfg, m, s), vm, 1).process
  {
    if n > 1 {
      BlockedForGood(cfg, m, vm, s, n - 1);
      LeftProcessBlocks(cfg, m, AfterTries(StepOf(cfg, m, s), vm, n - 1), FaultsAt(s, n));
    }
  }

  // ----- What one message touches -----

  /** A message without a request id is refused and changes nothing; any other touches at most its own machine and
      the reply saved for its own request. */
  lemma HandleIsContained(cfg: AgentConfig, w: World, m: Message, s: Schedule)
    ensures var h := Handle(cfg, w, m, s);
            && (m.request.None? ==>
                  h.world == w && h.attempts == 1 && h.response == FailureReply(m, "VALIDATION_ERROR"))
            && (forall i: nat :: i != InstanceOf(m.payload) ==> VmOf(h.world, i) == VmOf(w, i))
            && (forall r :: r in w.replies ==> r in h.world.replies && h.world.replies[r] == w.replies[r])
            && (forall r :: r in h.world.replies && r !in w.replies ==>
                  m.request == Some(r) && !s.replyLost && h.world.replies[r] == h.response)
  {
  }
}
