/** The hosted control plane controller in the form it runs in: one object that
    changes the store, the probes and its call log step by step. Every method is
    proved against the step function of the same part. */
module HcpController {
  import opened Base
  import opened Finalizers
  import opened KubeStore
  import opened HealthCheck
  import opened Rhobs
  import opened MonitorApi
  import opened Synthetics
  import opened HostedControlPlane

  class Controller {
    var now: int
    var hcps: Objects<HcpSpec, ()>
    var routes: Objects<RouteSpec, ()>
    var mon: Store
    var checks: map<Name, CheckMap>
    var timeouts: nat
    ghost var released: map<string, Release>
    const client: Client

    ghost function State(): Sim
      reads this, client
    {
      Sim(World(now, hcps, routes, mon, checks, client.probes, timeouts, released), client.log)
    }

    constructor (w: World, client: Client)
      requires client.probes == w.probes && client.log == []
      ensures State() == Sim(w, []) && this.client == client
    {
      now, hcps, routes, mon := w.now, w.hcps, w.routes, w.mon;
      checks, timeouts, released := w.checks, w.timeouts, w.released;
      this.client := client;
    }

    method NewProbe(f: Oracle, cid: string, facts: Facts, host: string, stamp: string) returns (err: Option<Error>)
      modifies client
      ensures (client.State(), err) == Synthetics.NewProbe(old(client.State()), f, cid, facts, host, stamp)
    {
      if facts.region == "" { return Some(Wrap("failed to get cluster region", Root("aws region is not set"))); }
      var res := client.Create(f, "https://" + host + "/livez", ClusterLabels(cid, facts, stamp));
      if res.Err? { return Some(Wrap("failed to create RHOBS probe", res.error)); }
      err := None;
    }

    method EnsureProbe(f: Oracle, cfg: Config, cid: string, facts: Facts, stamp: string) returns (err: Option<Error>)
      modifies client
      ensures (client.State(), err) == Synthetics.EnsureProbe(old(client.State()), f, cfg, cid, facts, stamp)
    {
      if cid == "" { return Some(Root("cluster ID is empty")); }
      var limited := false;
      if facts.limitedSupport {
        var readable := f(|client.log|).fault.NoFault? && facts.hostedCluster.Some?;
        client.log := client.log + [GetHostedCluster];
        limited := !readable || facts.hostedCluster.value;
      }
      if limited {
        var there := client.Get(f, cid);
        if there.Err? { return Some(Wrap("failed to check existing probe", there.error)); }
        if there.value.Some? {
          var deleteErr := client.Delete(f, cid);
          if deleteErr.Some? { return Some(Wrap("failed to delete probe for limited support cluster", deleteErr.value)); }
        }
        return None;
      }
      if cfg.onlyPublic && facts.private { return None; }
      if facts.hostname.None? {
        return Some(Wrap("failed to get API server hostname", Root("APIServer route hostname not found")));
      }
      err := Maintain(f, cid, facts, facts.hostname.value, stamp);
    }

    method Maintain(f: Oracle, cid: string, facts: Facts, host: string, stamp: string) returns (err: Option<Error>)
      modifies client
      ensures (client.State(), err) == Synthetics.Maintain(old(client.State()), f, cid, facts, host, stamp)
    {
      var found := client.Get(f, cid);
      if found.Err? { return Some(Wrap("failed to check existing probe", found.error)); }
      if found.value.Some? {
        var existing := found.value.value;
        if existing.status.Failed? {
          var failedErr := client.Delete(f, cid);
          if failedErr.Some? { return Some(Wrap("failed to delete failed probe", failedErr.value)); }
        } else {
          var beat := client.UpdateLabels(f, existing.id, map[LastReconciled := stamp]);
          if facts.region == "" { return Some(Wrap("failed to get cluster region", Root("aws region is not set"))); }
          var privateMatches := Private in existing.labels && SaysPrivate(existing.labels) == facts.private;
          if privateMatches && SaysRegion(existing.labels, facts.region) {
            return if beat.Some? then Some(Wrap("probe labels match but heartbeat update failed", beat.value)) else None;
          }
          if privateMatches {
            var regionErr := client.UpdateLabels(f, existing.id, map[ClusterId := cid, Region := facts.region, LastReconciled := stamp]);
            return if regionErr.Some? then Some(Wrap("failed to update RHOBS probe labels", regionErr.value)) else None;
          }
          var privateErr := client.Delete(f, cid);
          if privateErr.Some? { return Some(Wrap("failed to delete probe for private label correction", privateErr.value)); }
        }
      }
      err := NewProbe(f, cid, facts, host, stamp);
    }

    method DeleteClusterProbe(f: Oracle, cid: string) returns (err: Option<Error>)
      modifies client
      ensures (client.State(), err) == Synthetics.DeleteClusterProbe(old(client.State()), f, cid)
    {
      if cid == "" { return Some(Root("cluster ID is empty")); }
      var deleteErr := client.Delete(f, cid);
      if deleteErr.Some? { return Some(Wrap("failed to delete RHOBS probe for cluster " + cid, deleteErr.value)); }
      err := None;
    }

    method DeployRoute(f: Oracle, name: Name) returns (ok: bool)
      modifies this, client`log
      ensures (State(), ok) == HostedControlPlane.DeployRoute(old(State()), f, name)
    {
      var key, built := MonitoringName(name), BuiltRoute(name);
      var (created, res) := Create(routes, key, built, f(|client.log|).fault);
      routes := created;
      client.log := client.log + [CreateRoute];
      if !res.AlreadyExists? { return res.Created?; }
      var readable := f(|client.log|).fault.NoFault?;
      client.log := client.log + [GetRoute];
      if !readable { return false; }
      var (updated, done) := Update(routes, key, built.(meta := MetaForUpdate(built.meta, routes[key].meta)), f(|client.log|).fault);
      routes := updated;
      client.log := client.log + [PutRoute];
      ok := done;
    }

    method DeployRouteMonitor(f: Oracle, name: Name, port: int) returns (ok: bool)
      modifies this, client`log
      ensures (State(), ok) == HostedControlPlane.DeployRouteMonitor(old(State()), f, name, port)
    {
      var key, built := MonitoringName(name), BuiltRouteMonitor(name, port);
      var (created, res) := Create(mon.rms, key, built, f(|client.log|).fault);
      mon := mon.(rms := created);
      client.log := client.log + [CreateRouteMonitor];
      if !res.AlreadyExists? { return res.Created?; }
      var readable := f(|client.log|).fault.NoFault?;
      client.log := client.log + [GetRouteMonitor];
      if !readable { return false; }
      var (updated, done) := Update(mon.rms, key, built.(meta := MetaForUpdate(built.meta, mon.rms[key].meta)), f(|client.log|).fault);
      mon := mon.(rms := updated);
      client.log := client.log + [PutRouteMonitor];
      ok := done;
    }

    method DeployMonitoring(in_: Input, name: Name) returns (err: Option<Error>)
      modifies this, client`log
      ensures (State(), err) == HostedControlPlane.DeployMonitoring(old(State()), in_, name)
    {
      if in_.cfg.skipInfra { return None; }
      var ok := DeployRoute(in_.f, name);
      if !ok { return Some(Root("route")); }
      if in_.port.None? { return Some(Root("couldn't query API server service resource")); }
      ok := DeployRouteMonitor(in_.f, name, in_.port.value);
      err := if ok then None else Some(Root("routemonitor"));
    }

    method DeleteMonitoring(f: Oracle, name: Name) returns (err: Option<Error>)
      modifies this, client`log
      ensures (State(), err) == HostedControlPlane.DeleteMonitoring(old(State()), f, name)
    {
      var key := MonitoringName(name);
      var (m1, res1) := Delete(routes, key, now, f(|client.log|).fault);
      routes := m1;
      client.log := client.log + [DeleteRoute];
      if res1.DeleteFailed? { return Some(Root("route")); }
      var (m2, res2) := Delete(mon.rms, key, now, f(|client.log|).fault);
      mon := mon.(rms := m2);
      client.log := client.log + [DeleteRouteMonitor];
      if res2.DeleteFailed? { return Some(Root("routemonitor")); }
      err := None;
    }

    method FinishDeletion(f: Oracle, name: Name, ghost release: Option<Release>) returns (out: Outcome)
      requires name in hcps
      modifies this, client`log
      ensures (State(), out) == HostedControlPlane.FinishDeletion(old(State()), f, name, release)
    {
      var err := DeleteMonitoring(f, name);
      if err.Some? { return Requeue(Wrap("failed to cleanup internal monitoring resources", err.value)); }
      var hcp := hcps[name];
      var fault := f(|client.log|).fault;
      var (m, ok) := Update(hcps, name, hcp.(meta := hcp.meta.(finalizers := Removed(hcp.meta.finalizers, FINALIZER))), fault);
      hcps := m;
      client.log := client.log + [PutHcp];
      if release.Some? && FINALIZER in hcp.meta.finalizers && !fault.Lost? { released := released[hcp.spec.cid := release.value]; }
      out := if ok then Stop else Requeue(Root("update"));
    }

    method AfterProbe(f: Oracle, name: Name, elapsed: int, err: Option<Error>) returns (out: Outcome)
      requires name in hcps && hcps[name].meta.deleted.Some?
      modifies this, client`log
      ensures (State(), out) == HostedControlPlane.AfterProbe(old(State()), f, name, elapsed, err)
    {
      ghost var release: Option<Release> := None;
      if err.Some? {
        if elapsed < DELETION_TIMEOUT {
          return if IsNon200(err.value) then After(RETRY_TIMEOUT) else Requeue(err.value);
        }
        timeouts := timeouts + 1;
        release := Some(FailOpen(elapsed, timeouts));
      }
      out := FinishDeletion(f, name, release);
    }

    method DeleteProbeFirst(in_: Input, name: Name) returns (out: Outcome)
      requires name in hcps && hcps[name].meta.deleted.Some?
      modifies this, client
      ensures (State(), out) == HostedControlPlane.DeleteProbeFirst(old(State()), in_, name)
    {
      var hcp := hcps[name];
      var elapsed := now - hcp.meta.deleted.value;
      var err := DeleteClusterProbe(in_.f, hcp.spec.cid);
      out := AfterProbe(in_.f, name, elapsed, err);
    }

    method ReconcileDeletion(in_: Input, name: Name) returns (out: Outcome)
      requires name in hcps && hcps[name].meta.deleted.Some?
      modifies this, client
      ensures (State(), out) == HostedControlPlane.ReconcileDeletion(old(State()), in_, name)
    {
      if in_.cfg.dynatrace && in_.dynatraceClient && in_.dynatraceFails && !in_.cfg.apiUrl { return Requeue(Root("dynatrace")); }
      if in_.cfg.apiUrl {
        out := DeleteProbeFirst(in_, name);
      } else {
        out := FinishDeletion(in_.f, name, Some(ApiUnset));
      }
    }

    method Deploy(in_: Input, name: Name) returns (out: Outcome)
      requires name in hcps
      modifies this, client
      ensures (State(), out) == HostedControlPlane.Deploy(old(State()), in_, name)
    {
      var cid := hcps[name].spec.cid;
      var err := DeployMonitoring(in_, name);
      if err.Some? { return Requeue(err.value); }
      if in_.cfg.dynatrace && in_.dynatraceClient && in_.dynatraceFails && !in_.cfg.apiUrl { return Requeue(Root("dynatrace")); }
      if in_.cfg.apiUrl {
        err := EnsureProbe(in_.f, in_.cfg, cid, in_.facts, in_.stamp);
        if err.Some? { return if IsNon200(err.value) then After(RETRY_TIMEOUT) else Requeue(err.value); }
      }
      out := After(if in_.cfg.interval > 0 then in_.cfg.interval else PERIODIC_INTERVAL);
    }

    method TlsGate(in_: Input, name: Name) returns (out: Outcome)
      requires name in hcps
      modifies this, client
      ensures (State(), out) == HostedControlPlane.TlsGate(old(State()), in_, name)
    {
      if !in_.cfg.skipInfra {
        if in_.port.None? { return After(HEALTHCHECK_INTERVAL); }
        if !in_.tls {
          var err := DeleteMonitoring(in_.f, name);
          if err.Some? {
            return Requeue(Wrap("failed to remove internal monitoring objects while kube-apiserver TLS is unavailable", err.value));
          }
          return After(HEALTHCHECK_INTERVAL);
        }
      }
      out := Deploy(in_, name);
    }

    method Gate(in_: Input, name: Name) returns (out: Outcome)
      requires name in hcps
      modifies this, client
      ensures (State(), out) == HostedControlPlane.Gate(old(State()), in_, name)
    {
      if !in_.cfg.skipInfra && !in_.available { return After(HEALTHCHECK_INTERVAL); }
      var ready := EnsureReady(in_, name);
      if ready.None? { return Requeue(Root("HCP readiness check failed")); }
      if !ready.value { return After(HEALTHCHECK_INTERVAL); }
      var vpc := VpcReady(in_.cfg, in_.vpc);
      if vpc.None? { return Requeue(Root("VPC Endpoint")); }
      if !vpc.value { return After(RETRY_TIMEOUT); }
      out := TlsGate(in_, name);
    }

    method EnsureReady(in_: Input, name: Name) returns (ready: Option<bool>)
      requires name in hcps
      modifies this, client`log
      ensures (State(), ready) == HostedControlPlane.EnsureReady(old(State()), in_, name)
    {
      var c := if name in checks then checks[name] else NO_CHECKS;
      var n := |client.log|;
      var (c1, answer) := Ready(c, CheckInput(in_.cfg.skipInfra, hcps[name].spec.createdAt, now, in_.livez,
                                              in_.f(n).fault, in_.f(n + 1).fault, in_.f(n + 2).fault));
      checks := checks[name := c1];
      client.log := client.log + [CheckReadiness, CheckReadiness, CheckReadiness];
      ready := answer;
    }

    /** One reconcile, from an empty call log. */
    method Reconcile(in_: Input, name: Name) returns (out: Outcome)
      modifies this, client
      ensures (State(), out) == HostedControlPlane.Reconcile(old(State()).w, in_, name)
    {
      client.log := [GetHcp];
      if !in_.f(0).fault.NoFault? { return Requeue(Root("unable to fetch HostedControlPlane")); }
      if name !in hcps { return Stop; }
      if in_.cfg.dynatrace && !in_.dynatraceClient && !in_.cfg.apiUrl { return Requeue(Root("failed to create dynatrace client")); }
      if hcps[name].meta.deleted.Some? {
        out := ReconcileDeletion(in_, name);
        return;
      }
      var hcp := hcps[name];
      if FINALIZER !in hcp.meta.finalizers {
        var (m, ok) := Update(hcps, name, hcp.(meta := hcp.meta.(finalizers := Added(hcp.meta.finalizers, FINALIZER))), in_.f(|client.log|).fault);
        if !in_.f(|client.log|).fault.Lost? { released := released - {hcp.spec.cid}; }
        hcps := m;
        client.log := client.log + [PutHcp];
        if !ok { return Requeue(Root("update")); }
      }
      out := Gate(in_, name);
    }
  }
}
