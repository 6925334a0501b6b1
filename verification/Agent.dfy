/** The vm-manager: what one attempt at a command does to one virtual machine, the bounded retry loop, and the
    request deduplication around it. */
module Agent {
  import opened Model

  // ----- The world of one virtual machine -----

  datatype Process = Process(cpu: int, memory: int)

  datatype Link = Down | Partial | Up

  /** The saved state file of an instance. */
  datatype Record = Record(cpu: int, memory: int, disk: int, status: InstanceStatus, ip: string)

  /** The qemu process, the bridge and tap, the disk size, and the state file. */
  datatype Vm = Vm(process: Option<Process>, net: Link, disk: Option<int>, record: Option<Record>)

  const NO_VM := Vm(None, Down, None, None)

  /** How the external calls of one attempt turn out. A failed call carries what it leaves behind. Three failures
      go unnoticed by the caller: a process that survives its kill or has lost its pid file (`survives`), link
      removal, and the directory cleanup of an unknown machine. */
  datatype Faults = Faults(
    load: bool,
    mkdir: bool,
    image: Option<string>,
    ensure: Option<Link>,
    seed: bool,
    overlay: Option<Option<int>>,
    launch: Option<Option<Process>>,
    halt: Option<Option<Process>>,
    survives: bool,
    resize: Option<Option<int>>,
    unlink: Option<Link>,
    removeDir: Option<Option<int>>,
    save: bool,
    drop: bool)

  const NO_FAULTS := Faults(false, false, None, None, false, None, None, None, false, None, None, None, false, false)

  type Retries = n: nat | n >= 1 witness 1

  datatype AgentConfig = AgentConfig(retries: Retries, subnets: nat -> string)

  /** `BuildNetworkSpec`: a hash of the instance id picks the subnet. */
  function AddressOf(cfg: AgentConfig, i: nat): (address: string)
    ensures address != ""
  {
    "172.30." + cfg.subnets(i) + ".10"
  }

  /** A command as the broker delivers it; `None` is an empty request id. */
  datatype Message = Message(request: Option<nat>, task: nat, topic: Topic, payload: CommandPayload, correlation: nat)

  datatype ResponseStatus = Lasting(status: InstanceStatus) | Canceled

  datatype Response = Response(
    correlation: nat, success: bool, errorCode: string, status: Option<ResponseStatus>, ip: Option<string>)

  datatype Attempted = Attempted(vm: Vm, response: Response)

  function FailureReply(m: Message, code: string): Response {
    Response(m.correlation, false, code, None, None)
  }

  function SuccessReply(m: Message, status: ResponseStatus, ip: Option<string>): Response {
    Response(m.correlation, true, "", Some(status), ip)
  }

  function Failure(m: Message, vm: Vm, code: string): Attempted {
    Attempted(vm, FailureReply(m, code))
  }

  function Success(m: Message, vm: Vm, status: ResponseStatus, ip: Option<string>): Attempted {
    Attempted(vm, SuccessReply(m, status, ip))
  }

  // ----- External calls -----

  /** Each returns the machine afterwards and whether the caller sees success. */
  function EnsureNetwork(vm: Vm, f: Faults): (Vm, bool) {
    if f.ensure.Some? then (vm.(net := f.ensure.value), false) else (vm.(net := Up), true)
  }

  function DeleteNetwork(vm: Vm, f: Faults): Vm {
    vm.(net := GetOr(f.unlink, Down))
  }

  function CreateOverlay(vm: Vm, disk: int, f: Faults): (Vm, bool) {
    if f.overlay.Some? then (vm.(disk := f.overlay.value), false) else (vm.(disk := Some(disk)), true)
  }

  function ResizeDisk(vm: Vm, disk: int, f: Faults): (Vm, bool) {
    if f.resize.Some? then (vm.(disk := f.resize.value), false) else (vm.(disk := Some(disk)), true)
  }

  /** qemu refuses to start on a disk and pid file in use. */
  function Launch(vm: Vm, process: Process, f: Faults): (Vm, bool) {
    if vm.process.Some? then (vm, false)
    else if f.launch.Some? then (vm.(process := f.launch.value), false)
    else (vm.(process := Some(process)), true)
  }

  /** `Stop` and `Powerdown`: a failed call may leave the process alive, and so may one that looks successful. */
  function Halt(vm: Vm, f: Faults): (Vm, bool) {
    if f.halt.Some? then (if vm.process.Some? then vm.(process := f.halt.value) else vm, false)
    else if f.survives then (vm, true)
    else (vm.(process := None), true)
  }

  function RemoveDir(vm: Vm, f: Faults): (Vm, bool) {
    if f.removeDir.Some? then (vm.(disk := f.removeDir.value), false) else (vm.(disk := None), true)
  }

  function SaveRecord(vm: Vm, r: Record, f: Faults): (Vm, bool) {
    if f.save then (vm, false) else (vm.(record := Some(r)), true)
  }

  // ----- One attempt at each command -----

  function CreateVm(cfg: AgentConfig, m: Message, vm: Vm, i: nat, spec: Spec, f: Faults): Attempted {
    if !spec.Positive() then Failure(m, vm, "VALIDATION_ERROR")
    else if f.mkdir then Failure(m, vm, "QEMU_ERROR")
    else if f.image.Some? then Failure(m, vm, f.image.value)
    else
      var (a, ensured) := EnsureNetwork(vm, f);
      if !ensured then Failure(m, a, "NETWORK_ERROR")
      else if f.seed then Failure(m, a, "QEMU_ERROR")
      else
        var (b, created) := CreateOverlay(a, spec.disk, f);
        if !created then Failure(m, b, "QEMU_ERROR")
        else
          var (c, launched) := Launch(b, Process(spec.cpu, spec.memory), f);
          if !launched then Failure(m, c, "QEMU_ERROR")
          else
            var record := Record(spec.cpu, spec.memory, spec.disk, InstanceStatus.Running, AddressOf(cfg, i));
            var (d, saved) := SaveRecord(c, record, f);
            if !saved then Failure(m, d, "QEMU_ERROR")
            else Success(m, d, Lasting(InstanceStatus.Running), Some(AddressOf(cfg, i)))
  }

  function UpdateVm(m: Message, vm: Vm, spec: Spec, boot: bool, f: Faults): Attempted {
    if !spec.Positive() then Failure(m, vm, "VALIDATION_ERROR")
    else if f.load || vm.record.None? then Failure(m, vm, "VM_NOT_FOUND")
    else
      var st := vm.record.value;
      if spec.disk < st.disk then Failure(m, vm, "VALIDATION_ERROR")
      else
        var (a, halted) := if st.status.Stopped? then (vm, true) else Halt(vm, f);
        if !halted then Failure(m, a, "QEMU_ERROR")
        else
          var (b, resized) := if spec.disk > st.disk then ResizeDisk(a, spec.disk, f) else (a, true);
          if !resized then Failure(m, b, "QEMU_ERROR")
          else if boot then UpdateAndBoot(m, b, st, spec, f)
          else UpdateRecord(m, DeleteNetwork(b, f), st, spec, InstanceStatus.Stopped, f)
  }

  function UpdateAndBoot(m: Message, vm: Vm, st: Record, spec: Spec, f: Faults): Attempted {
    var (a, ensured) := EnsureNetwork(vm, f);
    if !ensured then Failure(m, a, "NETWORK_ERROR")
    else
      var (b, launched) := Launch(a, Process(spec.cpu, spec.memory), f);
      if !launched then Failure(m, b, "QEMU_ERROR")
      else UpdateRecord(m, b, st, spec, InstanceStatus.Running, f)
  }

  function UpdateRecord(m: Message, vm: Vm, st: Record, spec: Spec, status: InstanceStatus, f: Faults): Attempted {
    var (a, saved) := SaveRecord(vm, Record(spec.cpu, spec.memory, spec.disk, status, st.ip), f);
    if !saved then Failure(m, a, "QEMU_ERROR") else Success(m, a, Lasting(status), Some(st.ip))
  }

  function StartVm(m: Message, vm: Vm, f: Faults): Attempted {
    if f.load || vm.record.None? then Failure(m, vm, "VM_NOT_FOUND")
    else
      var st := vm.record.value;
      if st.status.Running? then Success(m, vm, Lasting(InstanceStatus.Running), Some(st.ip))
      else if !st.status.Stopped? then Failure(m, vm, "VALIDATION_ERROR")
      else
        var (a, ensured) := EnsureNetwork(vm, f);
        if !ensured then Failure(m, a, "NETWORK_ERROR")
        else
          var (b, launched) := Launch(a, Process(st.cpu, st.memory), f);
          if !launched then Failure(m, b, "QEMU_ERROR")
          else
            var (c, saved) := SaveRecord(b, st.(status := InstanceStatus.Running), f);
            if !saved then Failure(m, c, "QEMU_ERROR") else Success(m, c, Lasting(InstanceStatus.Running), Some(st.ip))
  }

  function StopVm(m: Message, vm: Vm, f: Faults): Attempted {
    if f.load || vm.record.None? then Failure(m, vm, "VM_NOT_FOUND")
    else
      var st := vm.record.value;
      if !st.status.Running? && !st.status.Stopped? then Failure(m, vm, "VALIDATION_ERROR")
      else
        var (a, halted) := if st.status.Running? then Halt(vm, f) else (vm, true);
        if !halted then Failure(m, a, "QEMU_ERROR")
        else
          var (b, saved) := SaveRecord(DeleteNetwork(a, f), st.(status := InstanceStatus.Stopped), f);
          if !saved then Failure(m, b, "QEMU_ERROR") else Success(m, b, Lasting(InstanceStatus.Stopped), Some(st.ip))
  }

  /** Deleting an unknown machine cleans up what it can and succeeds; an unreadable state file is an error. */
  function DeleteVm(m: Message, vm: Vm, f: Faults): Attempted {
    if f.load then Failure(m, vm, "VM_NOT_FOUND")
    else if vm.record.None? then
      Success(m, RemoveDir(DeleteNetwork(vm, f), f).0, Lasting(Deleted), None)
    else
      var (a, halted) := Halt(vm, f);
      if !halted then Failure(m, a, "QEMU_ERROR")
      else
        var (b, removed) := RemoveDir(DeleteNetwork(a, f), f);
        if !removed || f.drop then Failure(m, b, "QEMU_ERROR")
        else Success(m, b.(record := None), Lasting(Deleted), None)
  }

  /** One attempt: a payload that does not decode for its command is a validation error. */
  function Attempt(cfg: AgentConfig, m: Message, vm: Vm, f: Faults): Attempted {
    match (m.topic, m.payload)
    case (Lifecycle(Create), CreatePayload(i, _, spec, _, _)) => CreateVm(cfg, m, vm, i, spec, f)
    case (Lifecycle(Update), UpdatePayload(_, spec, _, boot)) => UpdateVm(m, vm, spec, boot, f)
    case (Lifecycle(Start), TargetPayload(_, _)) => StartVm(m, vm, f)
    case (Lifecycle(Stop), TargetPayload(_, _)) => StopVm(m, vm, f)
    case (Lifecycle(Delete), TargetPayload(_, _)) => DeleteVm(m, vm, f)
    case (CancelTopic, CancelPayload(_, _, _)) => Success(m, vm, ResponseStatus.Canceled, None)
    case _ => Failure(m, vm, "VALIDATION_ERROR")
  }

  // ----- The retry loop -----

  /** The faults of every attempt, and whether saving the reply fails. */
  datatype Schedule = Schedule(attempts: seq<Faults>, replyLost: bool)

  function FaultsAt(s: Schedule, attempt: nat): Faults
    requires attempt >= 1
  {
    if attempt <= |s.attempts| then s.attempts[attempt - 1] else NO_FAULTS
  }

  datatype Retried = Retried(vm: Vm, response: Response, attempts: nat)

  function Attempts(cfg: AgentConfig, m: Message, vm: Vm, s: Schedule, attempt: nat): (r: Retried)
    requires 1 <= attempt <= cfg.retries
    ensures attempt <= r.attempts <= cfg.retries
    decreases cfg.retries - attempt
  {
    var tried := Attempt(cfg, m, vm, FaultsAt(s, attempt));
    if tried.response.success || attempt == cfg.retries then Retried(tried.vm, tried.response, attempt)
    else Attempts(cfg, m, tried.vm, s, attempt + 1)
  }

  // ----- Handling a message -----

  datatype World = World(vms: map<nat, Vm>, replies: map<nat, Response>)

  function VmOf(w: World, i: nat): Vm {
    if i in w.vms then w.vms[i] else NO_VM
  }

  function InstanceOf(payload: CommandPayload): nat {
    payload.instance
  }

  datatype Handled = Handled(world: World, response: Response, attempts: nat)

  function Handle(cfg: AgentConfig, w: World, m: Message, s: Schedule): Handled {
    if m.request.None? then Handled(w, FailureReply(m, "VALIDATION_ERROR"), 1)
    else if m.request.value in w.replies then
      Handled(w, w.replies[m.request.value].(correlation := m.correlation), 1)
    else
      var i := InstanceOf(m.payload);
      var r := Attempts(cfg, m, VmOf(w, i), s, 1);
      Handled(World(w.vms[i := r.vm], if s.replyLost then w.replies else w.replies[m.request.value := r.response]),
              r.response, r.attempts)
  }

  // ----- Dedup over sequences -----

  datatype Delivery = Delivery(message: Message, schedule: Schedule)

  function HandleAll(cfg: AgentConfig, w: World, ds: seq<Delivery>): (World, seq<Response>) {
    if ds == [] then (w, [])
    else
      var n := |ds| - 1;
      var (mid, responses) := HandleAll(cfg, w, ds[..n]);
      var h := Handle(cfg, mid, ds[n].message, ds[n].schedule);
      (h.world, responses + [h.response])
  }

  /** Every message names its request, and every reply gets saved. */
  predicate Deduplicated(ds: seq<Delivery>) {
    forall k :: 0 <= k < |ds| ==> ds[k].message.request.Some? && !ds[k].schedule.replyLost
  }

  predicate Repeats(ds: seq<Delivery>, n: nat)
    requires n < |ds|
  {
    exists k :: 0 <= k < n && ds[k].message.request == ds[n].message.request
  }

  /** The first delivery of each request. */
  function Firsts(ds: seq<Delivery>): seq<Delivery> {
    if ds == [] then []
    else
      var n := |ds| - 1;
      Firsts(ds[..n]) + if Repeats(ds, n) then [] else [ds[n]]
  }

  lemma {:induction false} RepliesCoverDeliveries(cfg: AgentConfig, w: World, ds: seq<Delivery>)
    requires Deduplicated(ds)
    ensures |HandleAll(cfg, w, ds).1| == |ds|
    ensures forall k :: 0 <= k < |ds| ==>
              && ds[k].message.request.value in HandleAll(cfg, w, ds).0.replies
              && HandleAll(cfg, w, ds).1[k]
                 == HandleAll(cfg, w, ds).0.replies[ds[k].message.request.value].(
                        correlation := ds[k].message.correlation)
  {
    if ds != [] {
      var n := |ds| - 1;
      RepliesCoverDeliveries(cfg, w, ds[..n]);
      var mid, m := HandleAll(cfg, w, ds[..n]).0, ds[n].message;
      ResponseEchoesCorrelation(cfg, m, VmOf(mid, InstanceOf(m.payload)), ds[n].schedule, 1);
    }
  }

  lemma {:induction false} ResponseEchoesCorrelation(cfg: AgentConfig, m: Message, vm: Vm, s: Schedule, attempt: nat)
    requires 1 <= attempt <= cfg.retries
    ensures Attempts(cfg, m, vm, s, attempt).response.correlation == m.correlation
    decreases cfg.retries - attempt
  {
    var tried := Attempt(cfg, m, vm, FaultsAt(s, attempt));
    AttemptEchoesCorrelation(cfg, m, vm, FaultsAt(s, attempt));
    if !tried.response.success && attempt < cfg.retries {
      ResponseEchoesCorrelation(cfg, m, tried.vm, s, attempt + 1);
    }
  }

  lemma AttemptEchoesCorrelation(cfg: AgentConfig, m: Message, vm: Vm, f: Faults)
    ensures Attempt(cfg, m, vm, f).response.correlation == m.correlation
  {
  }

  lemma HandleKnownRequest(cfg: AgentConfig, w: World, m: Message, s: Schedule)
    requires m.request.Some? && m.request.value in w.replies
    ensures Handle(cfg, w, m, s).world == w
  {
  }

  lemma HandleAllSnoc(cfg: AgentConfig, w: World, ds: seq<Delivery>, d: Delivery)
    ensures HandleAll(cfg, w, ds + [d]).0 == Handle(cfg, HandleAll(cfg, w, ds).0, d.message, d.schedule).world
  {
    assert (ds + [d])[..|ds|] == ds;
  }

  /** Only the first delivery of each request changes the world, whatever the faults of the later ones. */
  lemma {:induction false} OnlyFirstDeliveriesCount(cfg: AgentConfig, w: World, ds: seq<Delivery>)
    requires Deduplicated(ds)
    ensures HandleAll(cfg, w, ds).0 == HandleAll(cfg, w, Firsts(ds)).0
  {
    if ds != [] {
      var n := |ds| - 1;
      var mid := HandleAll(cfg, w, ds[..n]).0;
      OnlyFirstDeliveriesCount(cfg, w, ds[..n]);
      HandleAllSnoc(cfg, w, ds[..n], ds[n]);
      assert ds[..n] + [ds[n]] == ds;
      if Repeats(ds, n) {
        assert Firsts(ds) == Firsts(ds[..n]) + [] == Firsts(ds[..n]);
        RepeatIsKnown(cfg, w, ds);
        HandleKnownRequest(cfg, mid, ds[n].message, ds[n].schedule);
      } else {
        HandleAllSnoc(cfg, w, Firsts(ds[..n]), ds[n]);
      }
    }
  }

  lemma RepeatIsKnown(cfg: AgentConfig, w: World, ds: seq<Delivery>)
    requires Deduplicated(ds) && ds != [] && Repeats(ds, |ds| - 1)
    ensures ds[|ds| - 1].message.request.value in HandleAll(cfg, w, ds[..|ds| - 1]).0.replies
  {
    var n := |ds| - 1;
    RepliesCoverDeliveries(cfg, w, ds[..n]);
    var k :| 0 <= k < n && ds[k].message.request == ds[n].message.request;
    assert ds[..n][k] == ds[k];
  }

  /** A repeated delivery gets the first one's answer, failures included, under its own correlation id. */
  lemma RepeatsGetTheFirstReply(cfg: AgentConfig, w: World, ds: seq<Delivery>)
    requires Deduplicated(ds)
    ensures |HandleAll(cfg, w, ds).1| == |ds|
    ensures forall j, k :: 0 <= j < k < |ds| && ds[j].message.request == ds[k].message.request ==>
              HandleAll(cfg, w, ds).1[k] == HandleAll(cfg, w, ds).1[j].(correlation := ds[k].message.correlation)
  {
    RepliesCoverDeliveries(cfg, w, ds);
  }

  // ----- What a failed command leaves alone -----

  /** The state file is written last: an attempt that fails leaves it as it was. */
  lemma FailedAttemptKeepsRecord(cfg: AgentConfig, m: Message, vm: Vm, f: Faults)
    ensures !Attempt(cfg, m, vm, f).response.success ==> Attempt(cfg, m, vm, f).vm.record == vm.record
  {
  }

  /** A command reported as failed leaves the state file as it was before the first attempt. */
  lemma {:induction false} FailureKeepsRecord(cfg: AgentConfig, m: Message, vm: Vm, s: Schedule, attempt: nat)
    requires 1 <= attempt <= cfg.retries
    ensures var r := Attempts(cfg, m, vm, s, attempt);
            !r.response.success ==> r.vm.record == vm.record
    decreases cfg.retries - attempt
  {
    var f := FaultsAt(s, attempt);
    FailedAttemptKeepsRecord(cfg, m, vm, f);
    var tried := Attempt(cfg, m, vm, f);
    if !tried.response.success && attempt < cfg.retries {
      FailureKeepsRecord(cfg, m, tried.vm, s, attempt + 1);
    }
  }

  // ----- Convergence of the retry loop -----

  /** The machine is what its state file says. */
  predicate Consistent(vm: Vm) {
    match vm.record
    case None => vm.process.None?
    case Some(r) =>
      && (r.status.Running? || r.status.Stopped?)
      && vm.process == (if r.status.Running? then Some(Process(r.cpu, r.memory)) else None)
      && vm.disk == Some(r.disk)
  }

  /** What failed attempts at a command cannot have changed since the machine was `vm`. */
  predicate Drifted(m: Message, vm: Vm, later: Vm) {
    && later.record == vm.record
    && match (m.topic, m.payload)
       case (Lifecycle(Create), CreatePayload(_, _, _, _, _)) => vm.process.Some? ==> later.process.Some?
       case (Lifecycle(Update), UpdatePayload(_, spec, _, boot)) =>
         && (vm.record.Some? && spec.disk == vm.record.value.disk ==> later.disk == vm.disk)
         && (!boot && vm.process.None? ==> later.process.None?)
       case (Lifecycle(Start), TargetPayload(_, _)) =>
         && later.disk == vm.disk
         && (vm.process.Some? ==> later.process.Some?)
         && (vm.record.Some? && vm.record.value.status.Running? ==> later == vm)
       case (Lifecycle(Stop), TargetPayload(_, _)) =>
         later.disk == vm.disk && (vm.process.None? ==> later.process.None?)
       case (Lifecycle(Delete), TargetPayload(_, _)) => vm.process.None? ==> later.process.None?
       case _ => later == vm
  }

  lemma CreateKeepsProcess(cfg: AgentConfig, m: Message, vm: Vm, i: nat, spec: Spec, f: Faults)
    requires !CreateVm(cfg, m, vm, i, spec, f).response.success
    ensures var after := CreateVm(cfg, m, vm, i, spec, f).vm;
            after.record == vm.record && (vm.process.Some? ==> after.process.Some?)
  {
  }

  lemma UpdateKeepsDisk(m: Message, vm: Vm, spec: Spec, boot: bool, f: Faults)
    requires !UpdateVm(m, vm, spec, boot, f).response.success
    ensures var after := UpdateVm(m, vm, spec, boot, f).vm;
            && after.record == vm.record
            && (vm.record.Some? && spec.disk == vm.record.value.disk ==> after.disk == vm.disk)
            && (!boot && vm.process.None? ==> after.process.None?)
  {
  }

  lemma AttemptDrifts(cfg: AgentConfig, m: Message, vm: Vm, later: Vm, f: Faults)
    requires Drifted(m, vm, later) && !Attempt(cfg, m, later, f).response.success
    ensures Drifted(m, vm, Attempt(cfg, m, later, f).vm)
  {
    match (m.topic, m.payload)
    case (Lifecycle(Create), CreatePayload(i, _, spec, _, _)) => CreateKeepsProcess(cfg, m, later, i, spec, f);
    case (Lifecycle(Update), UpdatePayload(_, spec, _, boot)) => UpdateKeepsDisk(m, later, spec, boot, f);
    case _ =>
  }

  /** The commands that end by taking the network down. */
  predicate Unlinks(m: Message) {
    || m.topic == Lifecycle(Stop) || m.topic == Lifecycle(Delete)
    || (m.topic == Lifecycle(Update) && m.payload.UpdatePayload? && !m.payload.boot)
  }

  /** A process outlives the command that ends by shutting it down. */
  predicate Outlives(m: Message, before: Vm, f: Faults) {
    Unlinks(m) && f.survives && before.process.Some?
  }

  /** The result `a` of a command whose last attempt found the machine `before` and met the faults `f`, against
      the fault-free result `b`: same reply and state file; same process exactly when none outlived its kill;
      the network and disk differ only by what a swallowed removal left. */
  predicate Agrees(m: Message, before: Vm, a: Attempted, b: Attempted, f: Faults) {
    && a.response == b.response && a.vm.record == b.vm.record
    && (a.vm.process == b.vm.process <==> !Outlives(m, before, f))
    && a.vm.net == (if Unlinks(m) then GetOr(f.unlink, Down) else b.vm.net)
    && a.vm.disk == (if m.topic == Lifecycle(Delete) && f.removeDir.Some? then f.removeDir.value else b.vm.disk)
  }

  lemma LateCreateAgrees(cfg: AgentConfig, m: Message, vm: Vm, later: Vm, i: nat, spec: Spec, f: Faults)
    requires m.topic == Lifecycle(Create) && (vm.process.Some? ==> later.process.Some?)
    requires CreateVm(cfg, m, later, i, spec, f).response.success
    ensures Agrees(m, later, CreateVm(cfg, m, later, i, spec, f), CreateVm(cfg, m, vm, i, spec, NO_FAULTS), f)
  {
  }

  lemma LateUpdateAgrees(m: Message, vm: Vm, later: Vm, spec: Spec, boot: bool, f: Faults)
    requires m.topic == Lifecycle(Update) && m.payload.UpdatePayload? && m.payload.boot == boot
    requires Consistent(vm) && later.record == vm.record
    requires vm.record.Some? && spec.disk == vm.record.value.disk ==> later.disk == vm.disk
    requires !boot && vm.process.None? ==> later.process.None?
    requires UpdateVm(m, later, spec, boot, f).response.success
    ensures Agrees(m, later, UpdateVm(m, later, spec, boot, f), UpdateVm(m, vm, spec, boot, NO_FAULTS), f)
  {
  }

  lemma LateSuccessAgrees(cfg: AgentConfig, m: Message, vm: Vm, later: Vm, f: Faults)
    requires Consistent(vm) && Drifted(m, vm, later) && Attempt(cfg, m, later, f).response.success
    ensures Agrees(m, later, Attempt(cfg, m, later, f), Attempt(cfg, m, vm, NO_FAULTS), f)
  {
    match (m.topic, m.payload)
    case (Lifecycle(Create), CreatePayload(i, _, spec, _, _)) => LateCreateAgrees(cfg, m, vm, later, i, spec, f);
    case (Lifecycle(Update), UpdatePayload(_, spec, _, boot)) => LateUpdateAgrees(m, vm, later, spec, boot, f);
    case _ =>
  }

  /** The machine as the last attempt finds it. */
  function BeforeLast(cfg: AgentConfig, m: Message, vm: Vm, s: Schedule, attempt: nat): Vm
    requires 1 <= attempt <= cfg.retries
    decreases cfg.retries - attempt
  {
    var tried := Attempt(cfg, m, vm, FaultsAt(s, attempt));
    if tried.response.success || attempt == cfg.retries then vm else BeforeLast(cfg, m, tried.vm, s, attempt + 1)
  }

  lemma {:induction false} RetriesConverge(cfg: AgentConfig, m: Message, vm: Vm, later: Vm, s: Schedule, attempt: nat)
    requires 1 <= attempt <= cfg.retries && Consistent(vm) && Drifted(m, vm, later)
    ensures var r := Attempts(cfg, m, later, s, attempt);
            r.response.success ==>
              Agrees(m, BeforeLast(cfg, m, later, s, attempt), Attempted(r.vm, r.response),
                  Attempt(cfg, m, vm, NO_FAULTS),
                     FaultsAt(s, r.attempts))
    decreases cfg.retries - attempt
  {
    var f := FaultsAt(s, attempt);
    var tried := Attempt(cfg, m, later, f);
    if tried.response.success {
      LateSuccessAgrees(cfg, m, vm, later, f);
    } else if attempt < cfg.retries {
      AttemptDrifts(cfg, m, vm, later, f);
      RetriesConverge(cfg, m, vm, tried.vm, s, attempt + 1);
    }
  }

  /** The last attempt at `m` found a live process and ended, successfully, without ending it. */
  predicate LeavesSurvivor(cfg: AgentConfig, w: World, m: Message, s: Schedule) {
    Outlives(m, BeforeLast(cfg, m, VmOf(w, InstanceOf(m.payload)), s, 1), FaultsAt(s, Handle(cfg, w, m, s).attempts))
  }

  /** From a machine that matches its state file, whatever fails in whatever attempt: a command reported as
      successful leaves the reply and state file of a first attempt in which nothing failed; the same process
      exactly when none outlived its kill; the same network and disk up to swallowed removals. */
  lemma SuccessIsFaultFree(cfg: AgentConfig, w: World, m: Message, s: Schedule)
    requires m.request.Some? && m.request.value !in w.replies
    requires Consistent(VmOf(w, InstanceOf(m.payload)))
    requires Handle(cfg, w, m, s).response.success
    ensures var h, i := Handle(cfg, w, m, s), InstanceOf(m.payload);
            Agrees(m, BeforeLast(cfg, m, VmOf(w, i), s, 1), Attempted(VmOf(h.world, i), h.response),
                   Attempt(cfg, m, VmOf(w, i), NO_FAULTS), FaultsAt(s, h.attempts))
  {
    var vm := VmOf(w, InstanceOf(m.payload));
    RetriesConverge(cfg, m, vm, vm, s, 1);
  }

  lemma FaultFreeStaysConsistent(cfg: AgentConfig, m: Message, vm: Vm)
    requires Consistent(vm) && Attempt(cfg, m, vm, NO_FAULTS).response.success
    ensures Consistent(Attempt(cfg, m, vm, NO_FAULTS).vm)
    ensures Unlinks(m) ==> Attempt(cfg, m, vm, NO_FAULTS).vm.process.None?
    ensures m.topic == Lifecycle(Delete) ==> Attempt(cfg, m, vm, NO_FAULTS).vm.record.None?
  {
  }

  /** So success restores the premise, and commands that succeed can follow one another, exactly when no process
      outlived its kill. */
  lemma SuccessStaysConsistentIff(cfg: AgentConfig, w: World, m: Message, s: Schedule)
    requires m.request.Some? && m.request.value !in w.replies
    requires Consistent(VmOf(w, InstanceOf(m.payload)))
    requires Handle(cfg, w, m, s).response.success
    ensures Consistent(VmOf(Handle(cfg, w, m, s).world, InstanceOf(m.payload))) <==> !LeavesSurvivor(cfg, w, m, s)
  {
    SuccessIsFaultFree(cfg, w, m, s);
    FaultFreeStaysConsistent(cfg, m, VmOf(w, InstanceOf(m.payload)));
  }

  /** A stop of a running machine whose kill has no effect: reported as successful, the state file says stopped,
      the process lives. */
  lemma StopOverASurvivor(cfg: AgentConfig, m: Message, vm: Vm)
    requires Consistent(vm) && vm.record.Some? && vm.record.value.status.Running?
    requires m.topic == Lifecycle(Stop) && m.payload.TargetPayload?
    ensures var r := Attempts(cfg, m, vm, Schedule([NO_FAULTS.(survives := true)], false), 1);
            && r.response.success && r.vm.record.Some? && r.vm.record.value.status.Stopped?
            && r.vm.process == vm.process && r.vm.process.Some? && !Consistent(r.vm)
  {
  }
}
