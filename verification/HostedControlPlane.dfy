/** controllers/hostedcontrolplane/hostedcontrolplane.go: one reconcile of a
    hosted control plane, as a step of the world it acts on. */
module HostedControlPlane {
  import opened Base
  import opened Finalizers
  import opened KubeStore
  import opened HealthCheck
  import opened Rhobs
  import opened MonitorApi
  import opened Synthetics

  const FINALIZER := "hostedcontrolplane.routemonitoroperator.monitoring.openshift.io/finalizer"

  /** All times are in seconds. */
  const HEALTHCHECK_INTERVAL := 30
  const RETRY_TIMEOUT := 300
  const DELETION_TIMEOUT := 900
  const PERIODIC_INTERVAL := 600

  const WATCH_LABEL := "hostedcontrolplane.routemonitoroperator.monitoring.openshift.io/managed"

  datatype HcpSpec = HcpSpec(cid: string, createdAt: int)

  datatype RouteSpec = RouteSpec(host: string, service: string)

  type Hcp = Object<HcpSpec, ()>

  /** Why a control plane was let go although its probe was not known to be gone. */
  datatype Release = FailOpen(elapsed: int, count: nat) | ApiUnset

  /** The world of the controller. `timeouts` is the probe-deletion timeout counter;
      `released` records, by cluster ID, each finalizer that left without the
      probe's deletion having succeeded and was not stored again since. */
  datatype World = World(now: int, hcps: Objects<HcpSpec, ()>, routes: Objects<RouteSpec, ()>, mon: Store,
                         checks: map<Name, CheckMap>, probes: Probes, timeouts: nat, released: map<string, Release>)

  datatype Sim = Sim(w: World, log: seq<Call>)

  /** What one reconcile reads besides the store: configuration, the control
      plane's mutable fields, the readiness sources, the Dynatrace results, the
      formatted time and the fate of its calls. */
  datatype Input = Input(cfg: Config, facts: Facts, available: bool, livez: bool, vpc: Option<string>,
                         port: Option<int>, tls: bool, dynatraceClient: bool, dynatraceFails: bool,
                         stamp: string, f: Oracle)

  datatype Outcome = Stop | After(seconds: int) | Requeue(error: Error)

  function Remoted(s: Sim, r: Remote): Sim { Sim(s.w.(probes := r.probes), r.log) }

  /** The name of the Route and of the RouteMonitor of a control plane. */
  function MonitoringName(name: Name): Name {
    Name(name.name + "-kube-apiserver-monitoring", name.namespace)
  }

  function OwnedMeta(name: Name): Meta { Meta([], None, map[WATCH_LABEL := "true"], [name.name]) }

  function BuiltRoute(name: Name): Object<RouteSpec, ()> {
    Object(OwnedMeta(name), RouteSpec("kube-apiserver." + name.namespace + ".svc.cluster.local", "kube-apiserver"), ())
  }

  function BuiltRouteMonitor(name: Name, port: int): RouteMonitor {
    Object(OwnedMeta(name), RouteMonitorSpec(MonitoringName(name), port, "/livez", "99.5", false, true, true), EMPTY_STATUS)
  }

  /** buildMetadataForUpdate: the actual metadata with the expected labels and owners. */
  function MetaForUpdate(expected: Meta, actual: Meta): Meta {
    actual.(labels := expected.labels, owners := expected.owners)
  }

  /** Create the Route, or bring an existing one in line. */
  function DeployRoute(s: Sim, f: Oracle, name: Name): (r: (Sim, bool))
    ensures r.0.w == s.w.(routes := r.0.w.routes, mon := r.0.w.mon)
    ensures s.log <= r.0.log
  {
    var key, built := MonitoringName(name), BuiltRoute(name);
    var (m1, res) := Create(s.w.routes, key, built, f(|s.log|).fault);
    var s1 := Sim(s.w.(routes := m1), s.log + [CreateRoute]);
    match res
    case Created => (s1, true)
    case CreateFailed => (s1, false)
    case AlreadyExists =>
      var s2 := s1.(log := s1.log + [GetRoute]);
      if !f(|s1.log|).fault.NoFault? then (s2, false)
      else
        var (m2, ok) := Update(m1, key, built.(meta := MetaForUpdate(built.meta, m1[key].meta)), f(|s2.log|).fault);
        (Sim(s2.w.(routes := m2), s2.log + [PutRoute]), ok)
  }

  /** Create the RouteMonitor, or bring an existing one in line. */
  function DeployRouteMonitor(s: Sim, f: Oracle, name: Name, port: int): (r: (Sim, bool))
    ensures r.0.w == s.w.(routes := r.0.w.routes, mon := r.0.w.mon)
    ensures s.log <= r.0.log
  {
    var key, built := MonitoringName(name), BuiltRouteMonitor(name, port);
    var (m1, res) := Create(s.w.mon.rms, key, built, f(|s.log|).fault);
    var s1 := Sim(s.w.(mon := s.w.mon.(rms := m1)), s.log + [CreateRouteMonitor]);
    match res
    case Created => (s1, true)
    case CreateFailed => (s1, false)
    case AlreadyExists =>
      var s2 := s1.(log := s1.log + [GetRouteMonitor]);
      if !f(|s1.log|).fault.NoFault? then (s2, false)
      else
        var (m2, ok) := Update(m1, key, built.(meta := MetaForUpdate(built.meta, m1[key].meta)), f(|s2.log|).fault);
        (Sim(s2.w.(mon := s2.w.mon.(rms := m2)), s2.log + [PutRouteMonitor]), ok)
  }

  /** deployInternalMonitoringObjects. */
  function DeployMonitoring(s: Sim, in_: Input, name: Name): (r: (Sim, Option<Error>))
    ensures r.0.w == s.w.(routes := r.0.w.routes, mon := r.0.w.mon)
    ensures s.log <= r.0.log
  {
    if in_.cfg.skipInfra then (s, None)
    else
      var (s1, ok) := DeployRoute(s, in_.f, name);
      if !ok then (s1, Some(Root("route")))
      else if in_.port.None? then (s1, Some(Root("couldn't query API server service resource")))
      else
        var (s2, ok2) := DeployRouteMonitor(s1, in_.f, name, in_.port.value);
        (s2, if ok2 then None else Some(Root("routemonitor")))
  }

  /** deleteInternalMonitoringObjects. */
  function DeleteMonitoring(s: Sim, f: Oracle, name: Name): (r: (Sim, Option<Error>))
    ensures r.0.w == s.w.(routes := r.0.w.routes, mon := r.0.w.mon)
    ensures s.log <= r.0.log
  {
    var key := MonitoringName(name);
    var (m1, res) := Delete(s.w.routes, key, s.w.now, f(|s.log|).fault);
    var s1 := Sim(s.w.(routes := m1), s.log + [DeleteRoute]);
    if res.DeleteFailed? then (s1, Some(Root("route")))
    else
      var (m2, res2) := Delete(s1.w.mon.rms, key, s1.w.now, f(|s1.log|).fault);
      var s2 := Sim(s1.w.(mon := s1.w.mon.(rms := m2)), s1.log + [DeleteRouteMonitor]);
      (s2, if res2.DeleteFailed? then Some(Root("routemonitor")) else None)
  }

  /** The last write of a deletion. When it takes the operator's finalizer away without
      the probe's deletion having succeeded, the reason is recorded. */
  function DropFinalizer(s: Sim, f: Oracle, name: Name, release: Option<Release>): (Sim, bool)
    requires name in s.w.hcps
  {
    var hcp := s.w.hcps[name];
    var fault := f(|s.log|).fault;
    var (m, ok) := Update(s.w.hcps, name, hcp.(meta := hcp.meta.(finalizers := Removed(hcp.meta.finalizers, FINALIZER))), fault);
    var leaves := FINALIZER in hcp.meta.finalizers && !fault.Lost?;
    var released := if release.Some? && leaves then s.w.released[hcp.spec.cid := release.value] else s.w.released;
    (Sim(s.w.(hcps := m, released := released), s.log + [PutHcp]), ok)
  }

  function FinishDeletion(s: Sim, f: Oracle, name: Name, release: Option<Release>): (Sim, Outcome)
    requires name in s.w.hcps
  {
    var (s1, err) := DeleteMonitoring(s, f, name);
    if err.Some? then (s1, Requeue(Wrap("failed to cleanup internal monitoring resources", err.value)))
    else
      var (s2, ok) := DropFinalizer(s1, f, name, release);
      (s2, if ok then Stop else Requeue(Root("update")))
  }

  /** How a deletion goes on after the probe deletion: closed on failure for fifteen minutes, then open. */
  function AfterProbe(s: Sim, f: Oracle, name: Name, elapsed: int, err: Option<Error>): (Sim, Outcome)
    requires name in s.w.hcps && s.w.hcps[name].meta.deleted.Some?
  {
    if err.None? then FinishDeletion(s, f, name, None)
    else if elapsed < DELETION_TIMEOUT then
      (s, if IsNon200(err.value) then After(RETRY_TIMEOUT) else Requeue(err.value))
    else
      var s1 := s.(w := s.w.(timeouts := s.w.timeouts + 1));
      FinishDeletion(s1, f, name, Some(FailOpen(elapsed, s1.w.timeouts)))
  }

  /** Deletion with the probe endpoint set. */
  function DeleteProbeFirst(s: Sim, in_: Input, name: Name): (Sim, Outcome)
    requires name in s.w.hcps && s.w.hcps[name].meta.deleted.Some?
  {
    var hcp := s.w.hcps[name];
    var (r, err) := DeleteClusterProbe(Remote(s.w.probes, s.log), in_.f, hcp.spec.cid);
    AfterProbe(Remoted(s, r), in_.f, name, s.w.now - hcp.meta.deleted.value, err)
  }

  /** The branch for a control plane whose deletion was requested. */
  function ReconcileDeletion(s: Sim, in_: Input, name: Name): (Sim, Outcome)
    requires name in s.w.hcps && s.w.hcps[name].meta.deleted.Some?
  {
    if in_.cfg.dynatrace && in_.dynatraceClient && in_.dynatraceFails && !in_.cfg.apiUrl then (s, Requeue(Root("dynatrace")))
    else if !in_.cfg.apiUrl then FinishDeletion(s, in_.f, name, Some(ApiUnset))
    else DeleteProbeFirst(s, in_, name)
  }

  /** isVpcEndpointReady; no answer stands for an error. */
  function VpcReady(cfg: Config, vpc: Option<string>): Option<bool> {
    if cfg.skipInfra then Some(true)
    else
      match vpc
      case None => None
      case Some(status) =>
        if status == "available" then Some(true)
        else if status in {"pendingAcceptance", "pending", "deleting"} then Some(false)
        else None
  }

  /** The finalizer is stored before anything else is done for a live control plane;
      an earlier record of its leaving is then void. */
  function EnsureFinalizer(s: Sim, f: Oracle, name: Name): (r: (Sim, bool))
    requires name in s.w.hcps
    ensures r.0.w == s.w.(hcps := r.0.w.hcps, released := r.0.w.released)
  {
    var hcp := s.w.hcps[name];
    if FINALIZER in hcp.meta.finalizers then (s, true)
    else
      var fault := f(|s.log|).fault;
      var (m, ok) := Update(s.w.hcps, name, hcp.(meta := hcp.meta.(finalizers := Added(hcp.meta.finalizers, FINALIZER))), fault);
      var released := if fault.Lost? then s.w.released else s.w.released - {hcp.spec.cid};
      (Sim(s.w.(hcps := m, released := released), s.log + [PutHcp]), ok)
  }

  function Checked(s: Sim, name: Name): CheckMap { if name in s.w.checks then s.w.checks[name] else NO_CHECKS }

  function Readiness(s: Sim, in_: Input, createdAt: int): CheckInput {
    CheckInput(in_.cfg.skipInfra, createdAt, s.w.now, in_.livez,
               in_.f(|s.log|).fault, in_.f(|s.log| + 1).fault, in_.f(|s.log| + 2).fault)
  }

  /** hcpReady. Its up to three calls to the ConfigMap have a place each in the log. */
  function EnsureReady(s: Sim, in_: Input, name: Name): (r: (Sim, Option<bool>))
    requires name in s.w.hcps
    ensures r.0.w == s.w.(checks := r.0.w.checks)
  {
    var (c, ready) := Ready(Checked(s, name), Readiness(s, in_, s.w.hcps[name].spec.createdAt));
    (Sim(s.w.(checks := s.w.checks[name := c]), s.log + [CheckReadiness, CheckReadiness, CheckReadiness]), ready)
  }

  /** Everything behind the gates. */
  function Deploy(s: Sim, in_: Input, name: Name): (r: (Sim, Outcome))
    requires name in s.w.hcps
    ensures s.log <= r.0.log
    ensures r.0.w == s.w.(routes := r.0.w.routes, mon := r.0.w.mon, checks := r.0.w.checks, probes := r.0.w.probes)
  {
    var cid := s.w.hcps[name].spec.cid;
    var (s1, err) := DeployMonitoring(s, in_, name);
    if err.Some? then (s1, Requeue(err.value))
    else if in_.cfg.dynatrace && in_.dynatraceClient && in_.dynatraceFails && !in_.cfg.apiUrl then (s1, Requeue(Root("dynatrace")))
    else if !in_.cfg.apiUrl then (s1, After(if in_.cfg.interval > 0 then in_.cfg.interval else PERIODIC_INTERVAL))
    else
      var (r, err2) := EnsureProbe(Remote(s1.w.probes, s1.log), in_.f, in_.cfg, cid, in_.facts, in_.stamp);
      var s2 := Remoted(s1, r);
      if err2.Some? then (s2, if IsNon200(err2.value) then After(RETRY_TIMEOUT) else Requeue(err2.value))
      else (s2, After(if in_.cfg.interval > 0 then in_.cfg.interval else PERIODIC_INTERVAL))
  }

  /** The last gate: the API server's port and its TLS endpoint. Without TLS the
      monitoring objects are removed. */
  function TlsGate(s: Sim, in_: Input, name: Name): (r: (Sim, Outcome))
    requires name in s.w.hcps
    ensures s.log <= r.0.log
    ensures r.0.w == s.w.(routes := r.0.w.routes, mon := r.0.w.mon, checks := r.0.w.checks, probes := r.0.w.probes)
  {
    if !in_.cfg.skipInfra && in_.port.None? then (s, After(HEALTHCHECK_INTERVAL))
    else if !in_.cfg.skipInfra && !in_.tls then
      var (s1, err) := DeleteMonitoring(s, in_.f, name);
      (s1, if err.Some? then Requeue(Wrap("failed to remove internal monitoring objects while kube-apiserver TLS is unavailable", err.value))
           else After(HEALTHCHECK_INTERVAL))
    else Deploy(s, in_, name)
  }

  /** The gates in front of deployment, in order. */
  function Gate(s: Sim, in_: Input, name: Name): (r: (Sim, Outcome))
    requires name in s.w.hcps
    ensures s.log <= r.0.log
    ensures r.0.w == s.w.(routes := r.0.w.routes, mon := r.0.w.mon, checks := r.0.w.checks, probes := r.0.w.probes)
  {
    if !in_.cfg.skipInfra && !in_.available then (s, After(HEALTHCHECK_INTERVAL))
    else
      var (s1, ready) := EnsureReady(s, in_, name);
      if ready.None? then (s1, Requeue(Root("HCP readiness check failed")))
      else if !ready.value then (s1, After(HEALTHCHECK_INTERVAL))
      else
        match VpcReady(in_.cfg, in_.vpc)
        case None => (s1, Requeue(Root("VPC Endpoint")))
        case Some(false) => (s1, After(RETRY_TIMEOUT))
        case Some(true) => TlsGate(s1, in_, name)
  }

  /** HostedControlPlaneReconciler.Reconcile. */
  function Reconcile(w: World, in_: Input, name: Name): (Sim, Outcome) {
    var s := Sim(w, [GetHcp]);
    if !in_.f(0).fault.NoFault? then (s, Requeue(Root("unable to fetch HostedControlPlane")))
    else if name !in w.hcps then (s, Stop)
    else if in_.cfg.dynatrace && !in_.dynatraceClient && !in_.cfg.apiUrl then (s, Requeue(Root("failed to create dynatrace client")))
    else if w.hcps[name].meta.deleted.Some? then ReconcileDeletion(s, in_, name)
    else
      var (s1, ok) := EnsureFinalizer(s, in_.f, name);
      if !ok then (s1, Requeue(Root("update"))) else Gate(s1, in_, name)
  }
}
