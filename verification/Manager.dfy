/** The vm-manager as it runs: commands act on a machine call by call and return early, the retry loop goes
    round over the same machine, and replies are kept per request. */
module Manager {
  import opened Model
  import opened Agent

  class Machine {
    var process: Option<Process>
    var net: Link
    var disk: Option<int>
    var record: Option<Record>

    constructor ()
      ensures View() == NO_VM
    {
      process, net, disk, record := None, Down, None, None;
    }

    function View(): Vm
      reads this
    {
      Vm(process, net, disk, record)
    }

    // ----- External calls -----

    method Ensure(f: Faults) returns (ok: bool)
      modifies this`net
      ensures (View(), ok) == EnsureNetwork(old(View()), f)
    {
      ok := f.ensure.None?;
      net := if ok then Up else f.ensure.value;
    }

    /** Errors of the link removals are ignored. */
    method Unlink(f: Faults)
      modifies this`net
      ensures View() == DeleteNetwork(old(View()), f)
    {
      net := if f.unlink.Some? then f.unlink.value else Down;
    }

    method Overlay(size: int, f: Faults) returns (ok: bool)
      modifies this`disk
      ensures (View(), ok) == CreateOverlay(old(View()), size, f)
    {
      ok := f.overlay.None?;
      disk := if ok then Some(size) else f.overlay.value;
    }

    method Resize(size: int, f: Faults) returns (ok: bool)
      modifies this`disk
      ensures (View(), ok) == ResizeDisk(old(View()), size, f)
    {
      ok := f.resize.None?;
      disk := if ok then Some(size) else f.resize.value;
    }

    method Boot(cpu: int, memory: int, f: Faults) returns (ok: bool)
      modifies this`process
      ensures (View(), ok) == Launch(old(View()), Process(cpu, memory), f)
    {
      if process.Some? {
        return false;
      }
      ok := f.launch.None?;
      process := if ok then Some(Process(cpu, memory)) else f.launch.value;
    }

    /** The outcome of the last kill is ignored, and a missing pid file counts as success. */
    method Shutdown(f: Faults) returns (ok: bool)
      modifies this`process
      ensures (View(), ok) == Halt(old(View()), f)
    {
      ok := f.halt.None?;
      if ok {
        process := if f.survives then process else None;
      } else if process.Some? {
        process := f.halt.value;
      }
    }

    method RemoveFiles(f: Faults) returns (ok: bool)
      modifies this`disk
      ensures (View(), ok) == RemoveDir(old(View()), f)
    {
      ok := f.removeDir.None?;
      disk := if ok then None else f.removeDir.value;
    }

    method Save(st: Record, f: Faults) returns (ok: bool)
      modifies this`record
      ensures (View(), ok) == SaveRecord(old(View()), st, f)
    {
      ok := !f.save;
      if ok {
        record := Some(st);
      }
    }

    // ----- Commands -----

    method Create(cfg: AgentConfig, m: Message, i: nat, spec: Spec, f: Faults) returns (response: Response)
      modifies this
      ensures Attempted(View(), response) == CreateVm(cfg, m, old(View()), i, spec, f)
    {
      if !spec.Positive() {
        return FailureReply(m, "VALIDATION_ERROR");
      }
      if f.mkdir {
        return FailureReply(m, "QEMU_ERROR");
      }
      if f.image.Some? {
        return FailureReply(m, f.image.value);
      }
      var ok := Ensure(f);
      if !ok {
        return FailureReply(m, "NETWORK_ERROR");
      }
      if f.seed {
        return FailureReply(m, "QEMU_ERROR");
      }
      ok := Overlay(spec.disk, f);
      if !ok {
        return FailureReply(m, "QEMU_ERROR");
      }
      ok := Boot(spec.cpu, spec.memory, f);
      if !ok {
        return FailureReply(m, "QEMU_ERROR");
      }
      ok := Save(Record(spec.cpu, spec.memory, spec.disk, InstanceStatus.Running, AddressOf(cfg, i)), f);
      if !ok {
        return FailureReply(m, "QEMU_ERROR");
      }
      return SuccessReply(m, Lasting(InstanceStatus.Running), Some(AddressOf(cfg, i)));
    }

    method Update(m: Message, spec: Spec, boot: bool, f: Faults) returns (response: Response)
      modifies this
      ensures Attempted(View(), response) == UpdateVm(m, old(View()), spec, boot, f)
    {
      if !spec.Positive() {
        return FailureReply(m, "VALIDATION_ERROR");
      }
      if f.load || record.None? {
        return FailureReply(m, "VM_NOT_FOUND");
      }
      var st := record.value;
      if spec.disk < st.disk {
        return FailureReply(m, "VALIDATION_ERROR");
      }
      var ok;
      if !st.status.Stopped? {
        ok := Shutdown(f);
        if !ok {
          return FailureReply(m, "QEMU_ERROR");
        }
      }
      if spec.disk > st.disk {
        ok := Resize(spec.disk, f);
        if !ok {
          return FailureReply(m, "QEMU_ERROR");
        }
      }
      if boot {
        ok := Ensure(f);
        if !ok {
          return FailureReply(m, "NETWORK_ERROR");
        }
        ok := Boot(spec.cpu, spec.memory, f);
        if !ok {
          return FailureReply(m, "QEMU_ERROR");
        }
      } else {
        Unlink(f);
      }
      st := st.(cpu := spec.cpu, memory := spec.memory, disk := spec.disk,
                status := if boot then InstanceStatus.Running else InstanceStatus.Stopped);
      ok := Save(st, f);
      if !ok {
        return FailureReply(m, "QEMU_ERROR");
      }
      return SuccessReply(m, Lasting(st.status), Some(st.ip));
    }

    method Start(m: Message, f: Faults) returns (response: Response)
      modifies this
      ensures Attempted(View(), response) == StartVm(m, old(View()), f)
    {
      if f.load || record.None? {
        return FailureReply(m, "VM_NOT_FOUND");
      }
      var st := record.value;
      if st.status.Running? {
        return SuccessReply(m, Lasting(InstanceStatus.Running), Some(st.ip));
      }
      if !st.status.Stopped? {
        return FailureReply(m, "VALIDATION_ERROR");
      }
      var ok := Ensure(f);
      if !ok {
        return FailureReply(m, "NETWORK_ERROR");
      }
      ok := Boot(st.cpu, st.memory, f);
      if !ok {
        return FailureReply(m, "QEMU_ERROR");
      }
      ok := Save(st.(status := InstanceStatus.Running), f);
      if !ok {
        return FailureReply(m, "QEMU_ERROR");
      }
      return SuccessReply(m, Lasting(InstanceStatus.Running), Some(st.ip));
    }

    method Stop(m: Message, f: Faults) returns (response: Response)
      modifies this
      ensures Attempted(View(), response) == StopVm(m, old(View()), f)
    {
      if f.load || record.None? {
        return FailureReply(m, "VM_NOT_FOUND");
      }
      var st := record.value;
      if !st.status.Running? && !st.status.Stopped? {
        return FailureReply(m, "VALIDATION_ERROR");
      }
      var ok;
      if st.status.Running? {
        ok := Shutdown(f);
        if !ok {
          return FailureReply(m, "QEMU_ERROR");
        }
      }
      Unlink(f);
      ok := Save(st.(status := InstanceStatus.Stopped), f);
      if !ok {
        return FailureReply(m, "QEMU_ERROR");
      }
      return SuccessReply(m, Lasting(InstanceStatus.Stopped), Some(st.ip));
    }

    method Delete(m: Message, f: Faults) returns (response: Response)
      modifies this
      ensures Attempted(View(), response) == DeleteVm(m, old(View()), f)
    {
      var ok;
      if f.load {
        return FailureReply(m, "VM_NOT_FOUND");
      }
      if record.None? {
        Unlink(f);
        ok := RemoveFiles(f);
        return SuccessReply(m, Lasting(Deleted), None);
      }
      ok := Shutdown(f);
      if !ok {
        return FailureReply(m, "QEMU_ERROR");
      }
      Unlink(f);
      ok := RemoveFiles(f);
      if !ok {
        return FailureReply(m, "QEMU_ERROR");
      }
      if f.drop {
        return FailureReply(m, "QEMU_ERROR");
      }
      record := None;
      return SuccessReply(m, Lasting(Deleted), None);
    }

    method Dispatch(cfg: AgentConfig, m: Message, f: Faults) returns (response: Response)
      modifies this
      ensures Attempted(View(), response) == Attempt(cfg, m, old(View()), f)
    {
      match m.topic {
      case CancelTopic =>
        if m.payload.CancelPayload? {
          return SuccessReply(m, ResponseStatus.Canceled, None);
        }
      case Lifecycle(command) =>
        match command {
          case Create =>
            if m.payload.CreatePayload? {
              response := Create(cfg, m, m.payload.instance, m.payload.spec, f);
              return;
            }
          case Update =>
            if m.payload.UpdatePayload? {
              response := Update(m, m.payload.spec, m.payload.boot, f);
              return;
            }
          case Start =>
            if m.payload.TargetPayload? {
              response := Start(m, f);
              return;
            }
          case Stop =>
            if m.payload.TargetPayload? {
              response := Stop(m, f);
              return;
            }
          case Delete =>
            if m.payload.TargetPayload? {
              response := Delete(m, f);
              return;
            }
        }
      }
      return FailureReply(m, "VALIDATION_ERROR");
    }
  }

  class Manager {
    const cfg: AgentConfig
    var machines: map<nat, Machine>
    var replies: map<nat, Response>
    ghost var world: World

    constructor (cfg: AgentConfig)
      ensures Valid() && this.cfg == cfg && world == World(map[], map[]) && machines == map[]
    {
      this.cfg, machines, replies := cfg, map[], map[];
      world := World(map[], map[]);
    }

    /** `world` is what the machines and saved replies show, and no two instances share a machine. */
    ghost predicate Valid()
      reads this, machines.Values
    {
      && world.replies == replies && world.vms.Keys <= machines.Keys
      && (forall i :: i in machines ==> machines[i].View() == VmOf(world, i))
      && (forall i, j :: i in machines && j in machines && i != j ==> machines[i] != machines[j])
    }

    /** A known request is answered from its saved reply; a new one is attempted until it succeeds or the
        attempts are used up, and its reply is saved either way. */
    method Handle(m: Message, s: Schedule) returns (response: Response, attempts: nat)
      requires Valid()
      modifies this, machines.Values
      ensures Valid() && fresh(machines.Values - old(machines.Values))
      ensures Handled(world, response, attempts) == Agent.Handle(cfg, old(world), m, s)
    {
      if m.request.None? {
        return FailureReply(m, "VALIDATION_ERROR"), 1;
      }
      if m.request.value in replies {
        return replies[m.request.value].(correlation := m.correlation), 1;
      }
      ghost var before := world;
      response, attempts := Run(m, s);
      if !s.replyLost {
        replies := replies[m.request.value := response];
        world := World(world.vms, replies);
      }
      assert Agent.Handle(cfg, before, m, s).world.vms == world.vms;
    }

    /** The attempts at a new request: only the machine it names is touched. */
    method Run(m: Message, s: Schedule) returns (response: Response, attempts: nat)
      requires Valid()
      modifies this`machines, this`world, machines.Values
      ensures Valid() && fresh(machines.Values - old(machines.Values))
      ensures var r := Attempts(cfg, m, VmOf(old(world), m.payload.instance), s, 1);
              && world == World(old(world).vms[m.payload.instance := r.vm], old(world).replies)
              && response == r.response && attempts == r.attempts
    {
      var i := m.payload.instance;
      var machine := MachineFor(i);
      response, attempts := RetryLoop(machine, m, s);
      world := World(world.vms[i := machine.View()], world.replies);
    }

    /** The machine of an instance, an empty one when the host has never seen it. */
    method MachineFor(i: nat) returns (machine: Machine)
      requires Valid()
      modifies this`machines
      ensures Valid() && i in machines && machines[i] == machine && fresh(machines.Values - old(machines.Values))
    {
      if i !in machines {
        var created := new Machine();
        machines := machines[i := created];
      }
      machine := machines[i];
    }

    method RetryLoop(machine: Machine, m: Message, s: Schedule) returns (response: Response, attempts: nat)
      modifies machine
      ensures Retried(machine.View(), response, attempts) == Attempts(cfg, m, old(machine.View()), s, 1)
    {
      response, attempts := FailureReply(m, ""), 1;
      var attempt := 1;
      while attempt <= cfg.retries
        invariant 1 <= attempt <= cfg.retries + 1
        invariant attempt <= cfg.retries ==>
                    Attempts(cfg, m, old(machine.View()), s, 1) == Attempts(cfg, m, machine.View(), s, attempt)
        invariant attempt > cfg.retries ==>
                    Attempts(cfg, m, old(machine.View()), s, 1) == Retried(machine.View(), response, attempts)
      {
        attempts := attempt;
        response := machine.Dispatch(cfg, m, FaultsAt(s, attempt));
        if response.success {
          return;
        }
        attempt := attempt + 1;
      }
    }
  }
}
