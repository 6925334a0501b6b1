/** Quota and capacity checks (incremental) against the two SQL views (recomputed sums). */
module Accounting {
  import opened Model

  datatype Profile = NoProfile | StoppedProfile | RunningProfile

  datatype Usage = Usage(instances: int, cpu: int, memory: int, disk: int)

  const NO_USAGE := Usage(0, 0, 0, 0)

  function Plus(a: Usage, b: Usage): Usage {
    Usage(a.instances + b.instances, a.cpu + b.cpu, a.memory + b.memory, a.disk + b.disk)
  }

  function Minus(a: Usage, b: Usage): Usage {
    Usage(a.instances - b.instances, a.cpu - b.cpu, a.memory - b.memory, a.disk - b.disk)
  }

  predicate AtMost(a: Usage, b: Usage) {
    a.instances <= b.instances && a.cpu <= b.cpu && a.memory <= b.memory && a.disk <= b.disk
  }

  // ----- The checks: what one instance costs under a profile, and the incremental sums -----

  function ProfileFactors(p: Profile): (int, int, int, int) {
    match p
    case NoProfile => (0, 0, 0, 0)
    case StoppedProfile => (1, 0, 0, 1)
    case RunningProfile => (1, 1, 1, 1)
  }

  function ProfileOf(status: InstanceStatus, reserve: bool): Profile {
    if !reserve then NoProfile
    else if status.Stopped? then StoppedProfile
    else RunningProfile
  }

  function Charge(spec: Option<Spec>, p: Profile): Usage {
    var (n, c, m, d) := ProfileFactors(p);
    if spec.None? then NO_USAGE
    else Usage(n, spec.value.cpu * c, spec.value.memory * m, spec.value.disk * d)
  }

  datatype Check = Check(
    current: Option<Spec>, requested: Spec, currentProfile: Profile, requestedProfile: Profile)

  /** `next = used - current + requested`, column by column. */
  function NextUsage(used: Usage, c: Check): Usage {
    Plus(Minus(used, Charge(c.current, c.currentProfile)), Charge(Some(c.requested), c.requestedProfile))
  }

  function AssertCapacity(rows: seq<Instance>, capacity: map<string, Spec>, host: string, c: Check)
    : (e: Option<DomainError>)
    ensures e.None? <==>
            && host in capacity
            && FitsCapacity(NextUsage(HostUsage(rows, host), c), capacity[host])
  {
    if host !in capacity then Some(CapacityExceeded)
    else
      var next := NextUsage(HostUsage(rows, host), c);
      if next.cpu > capacity[host].cpu then Some(CapacityExceeded)
      else if next.memory > capacity[host].memory then Some(CapacityExceeded)
      else if next.disk > capacity[host].disk then Some(CapacityExceeded)
      else None
  }

  function AssertQuota(rows: seq<Instance>, tenants: map<nat, bool>, quotas: map<nat, Quota>, tenant: nat, c: Check)
    : (e: Option<DomainError>)
    ensures e.None? <==>
            && tenant in tenants && tenants[tenant] && tenant in quotas
            && FitsQuota(NextUsage(TenantUsage(rows, tenant), c), quotas[tenant])
  {
    if tenant !in tenants then Some(QuotaExceeded)
    else if !tenants[tenant] then Some(TenantInactive)
    else if tenant !in quotas then Some(QuotaExceeded)
    else
      var next := NextUsage(TenantUsage(rows, tenant), c);
      var q := quotas[tenant];
      if next.instances > q.instances then Some(QuotaExceeded)
      else if next.cpu > q.cpu then Some(QuotaExceeded)
      else if next.memory > q.memory then Some(QuotaExceeded)
      else if next.disk > q.disk then Some(QuotaExceeded)
      else None
  }

  predicate FitsQuota(u: Usage, q: Quota) {
    u.instances <= q.instances && u.cpu <= q.cpu && u.memory <= q.memory && u.disk <= q.disk
  }

  predicate FitsCapacity(u: Usage, total: Spec) {
    u.cpu <= total.cpu && u.memory <= total.memory && u.disk <= total.disk
  }

  // ----- The views: each column is a filtered aggregate over the rows of one group -----

  predicate CountsAsInstance(r: Instance) {
    r.reserve && !r.status.Deleted?
  }

  predicate CountsCompute(r: Instance) {
    CountsAsInstance(r) && !r.status.Stopped?
  }

  datatype Column = InstanceCount | CpuSum | MemorySum | DiskSum

  /** What one row adds to a column of its group: `COUNT(*)`, `SUM(cpu)`, ... with its FILTER. */
  function Cell(r: Instance, c: Column): int {
    match c
    case InstanceCount => if CountsAsInstance(r) then 1 else 0
    case CpuSum => if CountsCompute(r) then r.spec.cpu else 0
    case MemorySum => if CountsCompute(r) then r.spec.memory else 0
    case DiskSum => if CountsAsInstance(r) then r.spec.disk else 0
  }

  function Sum(rows: seq<Instance>, cell: Instance -> int): int {
    if rows == [] then 0 else Sum(rows[..|rows| - 1], cell) + cell(rows[|rows| - 1])
  }

  function TenantColumn(rows: seq<Instance>, tenant: nat, c: Column): int {
    Sum(rows, (r: Instance) => if r.tenant == tenant then Cell(r, c) else 0)
  }

  function HostColumn(rows: seq<Instance>, host: string, c: Column): int {
    Sum(rows, (r: Instance) => if r.host == host then Cell(r, c) else 0)
  }

  /** `tenant_resource_usage_view` for one tenant, all zero when it has no rows. */
  function TenantUsage(rows: seq<Instance>, tenant: nat): Usage {
    Usage(TenantColumn(rows, tenant, InstanceCount), TenantColumn(rows, tenant, CpuSum),
          TenantColumn(rows, tenant, MemorySum), TenantColumn(rows, tenant, DiskSum))
  }

  /** `resource_reservations_view` for one host; the view has no instance count, which no check reads. */
  function HostUsage(rows: seq<Instance>, host: string): Usage {
    Usage(HostColumn(rows, host, InstanceCount), HostColumn(rows, host, CpuSum),
          HostColumn(rows, host, MemorySum), HostColumn(rows, host, DiskSum))
  }

  function RowUsage(r: Instance): Usage {
    Usage(Cell(r, InstanceCount), Cell(r, CpuSum), Cell(r, MemorySum), Cell(r, DiskSum))
  }

  function Share(r: Instance, here: bool): Usage {
    if here then RowUsage(r) else NO_USAGE
  }

  /** The profile the handlers derive from a row charges exactly what the views count for it. */
  lemma ProfileAgreesWithViews(r: Instance)
    ensures !r.status.Deleted? ==> Charge(Some(r.spec), ProfileOf(r.status, r.reserve)) == RowUsage(r)
    ensures r.status.Deleted? ==> RowUsage(r) == NO_USAGE
  {
  }

  lemma {:induction false} SumReplace(rows: seq<Instance>, i: nat, r: Instance, cell: Instance -> int)
    requires i < |rows|
    ensures Sum(rows[i := r], cell) == Sum(rows, cell) - cell(rows[i]) + cell(r)
  {
    var n, after := |rows| - 1, rows[i := r];
    if i < n {
      assert after[..n] == rows[..n][i := r];
      SumReplace(rows[..n], i, r, cell);
    } else {
      assert after[..n] == rows[..n];
    }
  }

  lemma SumAppend(rows: seq<Instance>, r: Instance, cell: Instance -> int)
    ensures Sum(rows + [r], cell) == Sum(rows, cell) + cell(r)
  {
    assert (rows + [r])[..|rows|] == rows;
  }

  /** Writing row `i` of a table, where `i` may be the next free position. */
  function Put(rows: seq<Instance>, i: nat, r: Instance): seq<Instance>
    requires i <= |rows|
  {
    if i < |rows| then rows[i := r] else rows + [r]
  }

  function Before(rows: seq<Instance>, i: nat, cell: Instance -> int): int
    requires i <= |rows|
  {
    if i < |rows| then cell(rows[i]) else 0
  }

  lemma SumPut(rows: seq<Instance>, i: nat, r: Instance, cell: Instance -> int)
    requires i <= |rows|
    ensures Sum(Put(rows, i, r), cell) == Sum(rows, cell) - Before(rows, i, cell) + cell(r)
  {
    if i < |rows| {
      SumReplace(rows, i, r, cell);
    } else {
      SumAppend(rows, r, cell);
    }
  }

  /** Writing one row moves a tenant's recomputed usage by exactly the difference of the two rows. */
  lemma PutMovesTenantUsage(rows: seq<Instance>, i: nat, r: Instance, tenant: nat)
    requires i <= |rows|
    ensures TenantUsage(Put(rows, i, r), tenant) ==
            Plus(Minus(TenantUsage(rows, tenant),
                  if i < |rows| then Share(rows[i], rows[i].tenant == tenant) else NO_USAGE),
                 Share(r, r.tenant == tenant))
  {
    forall c: Column
      ensures TenantColumn(Put(rows, i, r), tenant, c) == TenantColumn(rows, tenant, c)
              - (if i < |rows| && rows[i].tenant == tenant then Cell(rows[i], c) else 0)
              + (if r.tenant == tenant then Cell(r, c) else 0)
    {
      SumPut(rows, i, r, (x: Instance) => if x.tenant == tenant then Cell(x, c) else 0);
    }
  }

  lemma PutMovesHostUsage(rows: seq<Instance>, i: nat, r: Instance, host: string)
    requires i <= |rows|
    ensures HostUsage(Put(rows, i, r), host) ==
            Plus(Minus(HostUsage(rows, host), if i < |rows| then Share(rows[i], rows[i].host == host) else NO_USAGE),
                 Share(r, r.host == host))
  {
    forall c: Column
      ensures HostColumn(Put(rows, i, r), host, c) == HostColumn(rows, host, c)
              - (if i < |rows| && rows[i].host == host then Cell(rows[i], c) else 0)
              + (if r.host == host then Cell(r, c) else 0)
    {
      SumPut(rows, i, r, (x: Instance) => if x.host == host then Cell(x, c) else 0);
    }
  }

  // ----- Double counting: tenants and hosts are two partitions of the same rows -----

  function SumBy<K>(keys: seq<K>, f: K -> int): int {
    if keys == [] then 0 else f(keys[0]) + SumBy(keys[1..], f)
  }

  predicate Distinct<K(==)>(s: seq<K>) {
    forall j, k :: 0 <= j < k < |s| ==> s[j] != s[k]
  }

  function Elements(ids: seq<nat>): set<nat> {
    set m | m in ids
  }

  lemma SplitElements(ids: seq<nat>, k: nat)
    requires Distinct(ids) && k < |ids|
    ensures Elements(ids[..k + 1]) == Elements(ids[..k]) + {ids[k]}
    ensures Elements(ids[k + 1..]) == Elements(ids[k..]) - {ids[k]}
    ensures ids[k] in Elements(ids[k..]) && ids[k] !in Elements(ids[..k])
  {
    assert ids[k..] == [ids[k]] + ids[k + 1..];
    assert ids[..k + 1] == ids[..k] + [ids[k]];
  }

  lemma {:induction false} DistinctSize(ids: seq<nat>)
    requires Distinct(ids)
    ensures |Elements(ids)| == |ids|
  {
    if ids != [] {
      var n := |ids| - 1;
      DistinctSize(ids[..n]);
      SplitElements(ids, n);
      assert ids[..n + 1] == ids;
    }
  }

  /** Growing the share of one key grows the sum over distinct keys by the same amount. */
  lemma {:induction false} SumByShift<K(!new)>(keys: seq<K>, before: K -> int, after: K -> int, at: K, d: int)
    requires Distinct(keys)
    requires forall k :: after(k) == before(k) + if k == at then d else 0
    ensures SumBy(keys, after) == SumBy(keys, before) + if at in keys then d else 0
  {
    if keys != [] {
      SumByShift(keys[1..], before, after, at, d);
      assert at in keys <==> at == keys[0] || at in keys[1..];
    }
  }

  lemma {:induction false} SumByZero<K>(keys: seq<K>, f: K -> int)
    requires forall k :: k in keys ==> f(k) == 0
    ensures SumBy(keys, f) == 0
  {
    if keys != [] {
      SumByZero(keys[1..], f);
    }
  }

  /** For every instance table and every column, the usage summed over tenants equals the
      reservations summed over hosts. */
  lemma {:induction false} TenantsAndHostsCountTheSame(
    rows: seq<Instance>, tenants: seq<nat>, hosts: seq<string>, c: Column)
    requires Distinct(tenants) && Distinct(hosts)
    requires forall i :: 0 <= i < |rows| ==> rows[i].tenant in tenants && rows[i].host in hosts
    ensures SumBy(tenants, t => TenantColumn(rows, t, c)) == SumBy(hosts, h => HostColumn(rows, h, c))
  {
    var byTenant, byHost := t => TenantColumn(rows, t, c), h => HostColumn(rows, h, c);
    if rows == [] {
      SumByZero(tenants, byTenant);
      SumByZero(hosts, byHost);
    } else {
      var front, r := rows[..|rows| - 1], rows[|rows| - 1];
      TenantsAndHostsCountTheSame(front, tenants, hosts, c);
      SumByShift(tenants, t => TenantColumn(front, t, c), byTenant, r.tenant, Cell(r, c));
      SumByShift(hosts, h => HostColumn(front, h, c), byHost, r.host, Cell(r, c));
    }
  }
}
