/**
 * Health classification for the pipeline's Kubernetes probes
 * (src/utils/health_check.py): per-component checks, worst-of aggregation,
 * the fixed order in which `check_health` runs the components, and the HTTP
 * status each probe endpoint answers with.
 *
 * What psutil, the imports and the Google clients report is passed in as a
 * `Probes` value; the clock is a `now` argument; `fmt` stands for the
 * `{x:.1f}` formatting of a percentage.
 */
module HealthCheck {
  import opened Optional
  import opened PyValue
  import opened Strings
  import opened Environ

  /** `HealthStatus`, ordered by severity. */
  datatype HealthStatus = Healthy | Degraded | Unhealthy {
    function Value(): string {
      match this
      case Healthy => "healthy"
      case Degraded => "degraded"
      case Unhealthy => "unhealthy"
    }

    function Severity(): nat {
      match this
      case Healthy => 0
      case Degraded => 1
      case Unhealthy => 2
    }
  }

  /** `ComponentHealth` without latency and details. */
  datatype ComponentHealth = ComponentHealth(name: string, status: HealthStatus, message: string)

  /** `SystemHealth`. */
  datatype SystemHealth = SystemHealth(
    status: HealthStatus,
    timestamp: real,
    components: seq<ComponentHealth>,
    version: string,
    uptimeSeconds: real)

  predicate AnyStatus(cs: seq<ComponentHealth>, st: HealthStatus) {
    exists i :: 0 <= i < |cs| && cs[i].status == st
  }

  /** `_aggregate_status`: the worst status of any component, HEALTHY when there are none. */
  function AggregateStatus(cs: seq<ComponentHealth>): (r: HealthStatus)
    ensures forall i :: 0 <= i < |cs| ==> cs[i].status.Severity() <= r.Severity()
    ensures cs != [] ==> exists i :: 0 <= i < |cs| && cs[i].status == r
    ensures cs == [] ==> r == Healthy
    ensures r == Healthy <==> forall i :: 0 <= i < |cs| ==> cs[i].status == Healthy
  {
    if AnyStatus(cs, Unhealthy) then Unhealthy
    else if AnyStatus(cs, Degraded) then Degraded
    else
      assert cs != [] ==> cs[0].status == Healthy;
      Healthy
  }

  /** The worst of two statuses. */
  function Worse(a: HealthStatus, b: HealthStatus): HealthStatus {
    if a.Severity() >= b.Severity() then a else b
  }

  /** Worst-of as a fold over the components. */
  function WorstOf(cs: seq<ComponentHealth>): HealthStatus {
    if cs == [] then Healthy else Worse(WorstOf(cs[..|cs| - 1]), cs[|cs| - 1].status)
  }

  /** The aggregation is the fold of `Worse` over the components. */
  lemma {:induction false} AggregateIsFold(cs: seq<ComponentHealth>)
    ensures AggregateStatus(cs) == WorstOf(cs)
  {
    if cs != [] {
      var init := cs[..|cs| - 1];
      AggregateIsFold(init);
      assert forall i :: 0 <= i < |init| ==> init[i] == cs[i];
      var a := AggregateStatus(init);
      var r := AggregateStatus(cs);
      assert r.Severity() >= a.Severity() by {
        if init != [] {
          var i :| 0 <= i < |init| && init[i].status == a;
          assert cs[i].status == a;
        }
      }
      var j :| 0 <= j < |cs| && cs[j].status == r;
      if j < |cs| - 1 {
        assert init[j].status == r;
      }
    }
  }

  /** One more component can only keep or worsen the aggregate. */
  lemma AggregateNeverImproves(cs: seq<ComponentHealth>, c: ComponentHealth)
    ensures AggregateStatus(cs + [c]).Severity() >= AggregateStatus(cs).Severity()
    ensures AggregateStatus(cs + [c]).Severity() >= c.status.Severity()
  {
    var r := AggregateStatus(cs);
    if cs != [] {
      var i :| 0 <= i < |cs| && cs[i].status == r;
      assert (cs + [c])[i] == cs[i];
    }
    assert (cs + [c])[|cs|] == c;
  }

  /** The disk thresholds on the percentage of free space. */
  function ClassifyDisk(percentFree: real): (r: HealthStatus)
    ensures r == Unhealthy <==> percentFree < 10.0
    ensures r == Degraded <==> 10.0 <= percentFree < 20.0
    ensures r == Healthy <==> percentFree >= 20.0
  {
    if percentFree < 10.0 then Unhealthy else if percentFree < 20.0 then Degraded else Healthy
  }

  /** More free space never makes the disk status worse. */
  lemma DiskMonotone(a: real, b: real)
    requires a <= b
    ensures ClassifyDisk(b).Severity() <= ClassifyDisk(a).Severity()
  {
  }

  /** The memory thresholds on the percentage of memory in use. */
  function ClassifyMemory(percentUsed: real): (r: HealthStatus)
    ensures r == Unhealthy <==> percentUsed > 90.0
    ensures r == Degraded <==> 80.0 < percentUsed <= 90.0
    ensures r == Healthy <==> percentUsed <= 80.0
  {
    if percentUsed > 90.0 then Unhealthy else if percentUsed > 80.0 then Degraded else Healthy
  }

  /** More memory in use never makes the memory status better. */
  lemma MemoryMonotone(a: real, b: real)
    requires a <= b
    ensures ClassifyMemory(a).Severity() <= ClassifyMemory(b).Severity()
  {
  }

  /** `psutil.disk_usage(...)`'s free and total byte counts. */
  datatype DiskUsage = DiskUsage(free: nat, total: nat)

  /** A Google client check: what the import raises, then what the client calls raise. */
  datatype CloudProbe = CloudProbe(importError: Option<Exc>, accessError: Option<Exc>)

  /**
   * What the environment reports to each check: the exception importing the
   * pipeline modules raises, the disk usage (or what `mkdir`/`disk_usage`
   * raise), the memory percentage (or what `virtual_memory` raises), and the
   * two cloud probes.
   */
  datatype Probes = Probes(
    modules: Option<Exc>,
    disk: Outcome<DiskUsage>,
    memory: Outcome<real>,
    gcs: CloudProbe,
    bigquery: CloudProbe)

  /** `_check_python_modules`: only `ImportError` is caught. */
  function CheckModules(probe: Option<Exc>): (r: Outcome<ComponentHealth>)
    ensures r.Ok? ==> r.value.name == "python_modules"
    ensures r.Ok? ==> (r.value.status == Healthy <==> probe.None?)
    ensures r.Ok? ==> r.value.status != Degraded
    ensures r.Raised? <==> probe.Some? && !IsSubclass(probe.value.kind, ImportError)
  {
    match probe
    case None => Ok(ComponentHealth("python_modules", Healthy, "All modules importable"))
    case Some(e) =>
      if IsSubclass(e.kind, ImportError) then Ok(ComponentHealth("python_modules", Unhealthy, "Import error: " + e.message))
      else Raised(e)
  }

  /** `_check_filesystem`: any `Exception`, including a zero total size, is UNHEALTHY. */
  function CheckFilesystem(probe: Outcome<DiskUsage>, fmt: real -> string): (r: Outcome<ComponentHealth>)
    ensures r.Ok? ==> r.value.name == "filesystem"
    ensures probe.Ok? && probe.value.total > 0 ==>
      r.Ok? && r.value.status == ClassifyDisk(probe.value.free as real / probe.value.total as real * 100.0)
    ensures probe.Ok? && probe.value.total == 0 ==> r.Ok? && r.value.status == Unhealthy
    ensures probe.Raised? ==> (r.Raised? <==> !IsSubclass(probe.exc.kind, Exception))
    ensures probe.Raised? && r.Ok? ==> r.value.status == Unhealthy
  {
    match probe
    case Raised(e) =>
      if IsSubclass(e.kind, Exception) then Ok(ComponentHealth("filesystem", Unhealthy, "Filesystem error: " + e.message))
      else Raised(e)
    case Ok(usage) =>
      if usage.total == 0 then Ok(ComponentHealth("filesystem", Unhealthy, "Filesystem error: division by zero"))
      else
        var percentFree := usage.free as real / usage.total as real * 100.0;
        var status := ClassifyDisk(percentFree);
        var message :=
          match status
          case Unhealthy => "Critical: Only " + fmt(percentFree) + "% disk space free"
          case Degraded => "Warning: " + fmt(percentFree) + "% disk space free"
          case Healthy => "Filesystem healthy (" + fmt(percentFree) + "% free)";
        Ok(ComponentHealth("filesystem", status, message))
  }

  /** `_check_memory`. */
  function CheckMemory(probe: Outcome<real>, fmt: real -> string): (r: Outcome<ComponentHealth>)
    ensures r.Ok? ==> r.value.name == "memory"
    ensures probe.Ok? ==> r.Ok? && r.value.status == ClassifyMemory(probe.value)
    ensures probe.Raised? ==> (r.Raised? <==> !IsSubclass(probe.exc.kind, Exception))
    ensures probe.Raised? && r.Ok? ==> r.value.status == Unhealthy
  {
    match probe
    case Raised(e) =>
      if IsSubclass(e.kind, Exception) then Ok(ComponentHealth("memory", Unhealthy, "Memory check error: " + e.message))
      else Raised(e)
    case Ok(percentUsed) =>
      var status := ClassifyMemory(percentUsed);
      var message :=
        match status
        case Unhealthy => "Critical: " + fmt(percentUsed) + "% memory used"
        case Degraded => "Warning: " + fmt(percentUsed) + "% memory used"
        case Healthy => "Memory healthy (" + fmt(percentUsed) + "% used)";
      Ok(ComponentHealth("memory", status, message))
  }

  /** The two optional cloud dependencies. */
  datatype Cloud = Gcs | BigQuery {
    function Name(): string {
      match this
      case Gcs => "gcs"
      case BigQuery => "bigquery"
    }

    /** The variable naming the bucket or project. */
    function EnvKey(): string {
      match this
      case Gcs => "GCS_BUCKET"
      case BigQuery => "BQ_PROJECT"
    }

    function Label(): string {
      match this
      case Gcs => "GCS"
      case BigQuery => "BigQuery"
    }

    function MissingMessage(): string {
      match this
      case Gcs => "GCS bucket not configured"
      case BigQuery => "BigQuery project not configured"
    }
  }

  /**
   * `_check_gcs_connectivity` / `_check_bigquery_connectivity`: the import comes
   * first, then the configured name, then the client calls; every `Exception`
   * on the way is DEGRADED.
   */
  function CheckCloud(c: Cloud, env: Environment, probe: CloudProbe): (r: Outcome<ComponentHealth>)
    ensures r.Ok? ==> r.value.name == c.Name() && r.value.status != Unhealthy
    ensures r.Ok? ==> (r.value.status == Healthy <==>
      probe.importError.None? && GetEnvOr(env, c.EnvKey(), "") != "" && probe.accessError.None?)
    ensures r.Raised? ==> !IsSubclass(r.exc.kind, Exception)
  {
    var unavailable := (e: Exc) =>
      if IsSubclass(e.kind, Exception) then Ok(ComponentHealth(c.Name(), Degraded, c.Label() + " unavailable: " + e.message))
      else Raised(e);
    if probe.importError.Some? then unavailable(probe.importError.value)
    else if GetEnvOr(env, c.EnvKey(), "") == "" then Ok(ComponentHealth(c.Name(), Degraded, c.MissingMessage()))
    else if probe.accessError.Some? then unavailable(probe.accessError.value)
    else Ok(ComponentHealth(c.Name(), Healthy, c.Label() + " accessible"))
  }

  /** `os.getenv(key, "false").lower() == "true"`. */
  predicate Flag(env: Environment, key: string) {
    Lower(GetEnvOr(env, key, "false")) == "true"
  }

  /** The names of the components `check_health` reports, in order. */
  function ComponentOrder(checkGcs: bool, checkBq: bool): seq<string> {
    ["python_modules", "filesystem", "memory"] + (if checkGcs then ["gcs"] else []) + (if checkBq then ["bigquery"] else [])
  }

  function Names(cs: seq<ComponentHealth>): (r: seq<string>)
    ensures |r| == |cs| && forall i :: 0 <= i < |cs| ==> r[i] == cs[i].name
  {
    if cs == [] then [] else [cs[0].name] + Names(cs[1..])
  }

  /** Some component check lets an exception escape, so `check_health` raises. */
  predicate SomeCheckRaises(checkGcs: bool, checkBq: bool, env: Environment, probes: Probes, fmt: real -> string) {
    || CheckModules(probes.modules).Raised?
    || CheckFilesystem(probes.disk, fmt).Raised?
    || CheckMemory(probes.memory, fmt).Raised?
    || (checkGcs && CheckCloud(Gcs, env, probes.gcs).Raised?)
    || (checkBq && CheckCloud(BigQuery, env, probes.bigquery).Raised?)
  }

  /** The components `check_health` collects when none of the checks raises. */
  function Components(checkGcs: bool, checkBq: bool, env: Environment, probes: Probes, fmt: real -> string): seq<ComponentHealth>
    requires !SomeCheckRaises(checkGcs, checkBq, env, probes, fmt)
  {
    [CheckModules(probes.modules).value, CheckFilesystem(probes.disk, fmt).value, CheckMemory(probes.memory, fmt).value]
    + (if checkGcs then [CheckCloud(Gcs, env, probes.gcs).value] else [])
    + (if checkBq then [CheckCloud(BigQuery, env, probes.bigquery).value] else [])
  }

  /** The components come in the fixed order, each named after its check. */
  lemma ComponentsInOrder(checkGcs: bool, checkBq: bool, env: Environment, probes: Probes, fmt: real -> string)
    requires !SomeCheckRaises(checkGcs, checkBq, env, probes, fmt)
    ensures Names(Components(checkGcs, checkBq, env, probes, fmt)) == ComponentOrder(checkGcs, checkBq)
  {
    var cs := Components(checkGcs, checkBq, env, probes, fmt);
    var names := ComponentOrder(checkGcs, checkBq);
    assert |cs| == |names|;
    forall i | 0 <= i < |cs|
      ensures Names(cs)[i] == names[i]
    {
      if i == 3 && !checkGcs {
        assert cs[3] == CheckCloud(BigQuery, env, probes.bigquery).value;
      }
    }
  }

  /** `HealthChecker`: its start time and the two feature flags. */
  class HealthChecker {
    const startTime: real
    const checkGcs: bool
    const checkBq: bool

    /** `HealthChecker()` at time `now`, reading its flags from `env`. */
    constructor (env: Environment, now: real)
      ensures startTime == now
      ensures checkGcs == Flag(env, "HEALTH_CHECK_GCS")
      ensures checkBq == Flag(env, "HEALTH_CHECK_BQ")
    {
      startTime := now;
      checkGcs := Flag(env, "HEALTH_CHECK_GCS");
      checkBq := Flag(env, "HEALTH_CHECK_BQ");
    }

    /**
     * `check_health` at time `now`: modules, filesystem, memory, then GCS and
     * BigQuery when enabled; the overall status is the worst of theirs.
     */
    method CheckHealth(env: Environment, probes: Probes, now: real, fmt: real -> string)
      returns (r: Outcome<SystemHealth>)
      ensures r.Raised? <==> SomeCheckRaises(checkGcs, checkBq, env, probes, fmt)
      ensures r.Ok? ==> r.value.components == Components(checkGcs, checkBq, env, probes, fmt)
      ensures r.Ok? ==> r.value.status == AggregateStatus(r.value.components)
      ensures r.Ok? ==> r.value.uptimeSeconds == now - startTime && r.value.timestamp == now
      ensures r.Ok? ==> r.value.version == "0.1.0"
    {
      var components: seq<ComponentHealth> := [];
      var m := CheckModules(probes.modules);
      if m.Raised? {
        return Raised(m.exc);
      }
      components := components + [m.value];
      var f := CheckFilesystem(probes.disk, fmt);
      if f.Raised? {
        return Raised(f.exc);
      }
      components := components + [f.value];
      var mem := CheckMemory(probes.memory, fmt);
      if mem.Raised? {
        return Raised(mem.exc);
      }
      components := components + [mem.value];
      assert components == [m.value, f.value, mem.value];
      ghost var gcs: seq<ComponentHealth> := [];
      if checkGcs {
        var g := CheckCloud(Gcs, env, probes.gcs);
        if g.Raised? {
          return Raised(g.exc);
        }
        components := components + [g.value];
        gcs := [g.value];
      }
      assert components == [m.value, f.value, mem.value] + gcs;
      ghost var bq: seq<ComponentHealth> := [];
      if checkBq {
        var b := CheckCloud(BigQuery, env, probes.bigquery);
        if b.Raised? {
          return Raised(b.exc);
        }
        components := components + [b.value];
        bq := [b.value];
      }
      assert components == [m.value, f.value, mem.value] + gcs + bq;
      assert !SomeCheckRaises(checkGcs, checkBq, env, probes, fmt);
      assert components == Components(checkGcs, checkBq, env, probes, fmt);
      var overall := AggregateStatus(components);
      r := Ok(SystemHealth(overall, now, components, "0.1.0", now - startTime));
    }
  }

  /** The cloud checks never make the system UNHEALTHY: only modules, disk and memory can. */
  lemma CloudNeverUnhealthy(env: Environment, c: Cloud, probe: CloudProbe)
    ensures CheckCloud(c, env, probe).Ok? ==> CheckCloud(c, env, probe).value.status != Unhealthy
    ensures probe.importError.None? && GetEnvOr(env, c.EnvKey(), "") == "" ==>
      CheckCloud(c, env, probe) == Ok(ComponentHealth(c.Name(), Degraded, c.MissingMessage()))
  {
  }

  /**
   * `HealthHandler.do_GET`: the status code for `path`, given the status
   * `check_health` reports and that of a fresh modules check.
   */
  function ResponseCode(path: string, overall: HealthStatus, modules: HealthStatus): (code: int)
    ensures code in {200, 503, 404}
    ensures code == 404 <==> path !in ["/health", "/ready", "/readiness", "/live", "/liveness"]
  {
    if path == "/health" then (if overall == Healthy then 200 else 503)
    else if path in ["/ready", "/readiness"] then (if overall != Unhealthy then 200 else 503)
    else if path in ["/live", "/liveness"] then (if modules == Healthy then 200 else 503)
    else 404
  }

  /** The probe endpoints, by how much they demand of the system. */
  lemma EndpointCodes(overall: HealthStatus, modules: HealthStatus)
    ensures ResponseCode("/health", overall, modules) == 200 <==> overall == Healthy
    ensures ResponseCode("/ready", overall, modules) == ResponseCode("/readiness", overall, modules)
    ensures ResponseCode("/ready", overall, modules) == 200 <==> overall != Unhealthy
    ensures ResponseCode("/live", overall, modules) == ResponseCode("/liveness", overall, modules)
    ensures ResponseCode("/live", overall, modules) == 200 <==> modules == Healthy
  {
  }

  /** A system that passes `/health` passes `/ready`. */
  lemma HealthyIsReady(overall: HealthStatus, modules: HealthStatus)
    ensures ResponseCode("/health", overall, modules) == 200 ==> ResponseCode("/ready", overall, modules) == 200
  {
  }

  /**
   * With modules, disk and memory HEALTHY, readiness answers 200 whatever the
   * cloud checks found.
   */
  lemma CloudNeverBlocksReadiness(checkGcs: bool, checkBq: bool, env: Environment, probes: Probes,
                                  fmt: real -> string, modules: HealthStatus)
    requires !SomeCheckRaises(checkGcs, checkBq, env, probes, fmt)
    requires CheckModules(probes.modules).value.status == Healthy
    requires CheckFilesystem(probes.disk, fmt).value.status == Healthy
    requires CheckMemory(probes.memory, fmt).value.status == Healthy
    ensures ResponseCode("/ready", AggregateStatus(Components(checkGcs, checkBq, env, probes, fmt)), modules) == 200
  {
    var cs := Components(checkGcs, checkBq, env, probes, fmt);
    forall i | 0 <= i < |cs|
      ensures cs[i].status != Unhealthy
    {
      if i >= 3 && checkGcs && i == 3 {
        assert cs[i] == CheckCloud(Gcs, env, probes.gcs).value;
      } else if i >= 3 {
        assert cs[i] == CheckCloud(BigQuery, env, probes.bigquery).value;
      }
    }
  }
}
