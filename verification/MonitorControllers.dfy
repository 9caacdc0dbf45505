/** The monitor controllers in the form they run in: a client whose store changes
    call by call, helpers that write through status pointers, and reconcilers that
    sequence them with early returns. Every method is proved against the step
    function of the same part. */
module MonitorControllers {
  import opened Base
  import opened Slo
  import opened Finalizers
  import opened KubeStore
  import opened MonitorApi
  import opened Monitors

  ghost predicate HasMeta<S(!new)>(m: Objects<S, Status>, x: Meta) { exists n :: n in m && m[n].meta == x }

  /** The items are the metadata of the stored monitors, each once. */
  ghost predicate Lists<S(!new)>(m: Objects<S, Status>, items: seq<Meta>) {
    |items| == |m|
    && (forall i :: 0 <= i < |items| ==> HasMeta(m, items[i]))
    && (forall n :: n in m ==> m[n].meta in items)
  }

  /** A listing of a kind of monitor, in any order. */
  method Listing<S(!new)>(m: Objects<S, Status>) returns (items: seq<Meta>)
    ensures Lists(m, items)
  {
    items := [];
    var rest := m.Keys;
    while rest != {}
      invariant rest <= m.Keys && |items| + |rest| == |m|
      invariant forall i :: 0 <= i < |items| ==> HasMeta(m, items[i])
      invariant forall n :: n in m && n !in rest ==> m[n].meta in items
      decreases |rest|
    {
      var n :| n in rest;
      rest := rest - {n};
      items := items + [m[n].meta];
    }
  }

  /** The Kubernetes client. */
  class Client {
    var store: Store
    var log: seq<Call>

    ghost function State(): Sim
      reads this
    {
      Sim(store, log)
    }

    constructor (store: Store)
      ensures State() == Sim(store, [])
    {
      this.store, log := store, [];
    }

    method Get(f: Oracle, dep: Dep) returns (got: Got)
      modifies this
      ensures (State(), got) == Monitors.Get(old(State()), f, dep)
    {
      var fault := f(|log|);
      log := log + [GetDep(dep)];
      if !fault.NoFault? { return GetFailed; }
      got := if dep in store.deps then Found(store.deps[dep]) else Missing;
    }

    method Write(f: Oracle, call: Call, deps: Deps) returns (ok: bool)
      modifies this
      ensures (State(), ok) == Monitors.Write(old(State()), f, call, deps)
    {
      var fault := f(|log|);
      log := log + [call];
      if !fault.Lost? { store := store.(deps := deps); }
      ok := fault.NoFault?;
    }

    method RouteMonitors(f: Oracle) returns (items: Option<seq<Meta>>)
      modifies this
      ensures State() == old(State()).(log := old(log) + [ListRouteMonitors])
      ensures items.Some? <==> f(old(|log|)).NoFault?
      ensures items.Some? ==> Lists(store.rms, items.value)
    {
      var fault := f(|log|);
      log := log + [ListRouteMonitors];
      if !fault.NoFault? { return None; }
      var all := Listing(store.rms);
      items := Some(all);
    }

    method UrlMonitors(f: Oracle) returns (items: Option<seq<Meta>>)
      modifies this
      ensures State() == old(State()).(log := old(log) + [ListUrlMonitors])
      ensures items.Some? <==> f(old(|log|)).NoFault?
      ensures items.Some? ==> Lists(store.cums, items.value)
    {
      var fault := f(|log|);
      log := log + [ListUrlMonitors];
      if !fault.NoFault? { return None; }
      var all := Listing(store.cums);
      items := Some(all);
    }

    method UpdateRouteMonitor(f: Oracle, name: Name, rm: RouteMonitor) returns (res: Res)
      modifies this
      ensures (State(), res) == WriteRm(old(State()), f, name, rm)
    {
      var (m, ok) := Update(store.rms, name, rm, f(|log|));
      store := store.(rms := m);
      log := log + [PutRouteMonitor(name)];
      res := if ok then Halt else Fail;
    }

    method UpdateRouteMonitorStatus(f: Oracle, name: Name, status: Status) returns (res: Res)
      modifies this
      ensures (State(), res) == WriteRmStatus(old(State()), f, name, status)
    {
      var (m, ok) := UpdateStatus(store.rms, name, status, f(|log|));
      store := store.(rms := m);
      log := log + [PutRouteMonitorStatus(name)];
      res := if ok then Halt else Fail;
    }

    method UpdateUrlMonitor(f: Oracle, name: Name, cum: UrlMonitor) returns (res: Res)
      modifies this
      ensures (State(), res) == WriteCum(old(State()), f, name, cum)
    {
      var (m, ok) := Update(store.cums, name, cum, f(|log|));
      store := store.(cums := m);
      log := log + [PutUrlMonitor(name)];
      res := if ok then Halt else Fail;
    }

    method UpdateUrlMonitorStatus(f: Oracle, name: Name, status: Status) returns (res: Res)
      modifies this
      ensures (State(), res) == WriteCumStatus(old(State()), f, name, status)
    {
      var (m, ok) := UpdateStatus(store.cums, name, status, f(|log|));
      store := store.(cums := m);
      log := log + [PutUrlMonitorStatus(name)];
      res := if ok then Halt else Fail;
    }
  }

  /** The status of a fetched copy of a monitor, assigned through pointers. */
  class Copy {
    var routeURL: string
    var serviceMonitorRef: Name
    var prometheusRuleRef: Name
    var errorStatus: string

    function Contents(): Status
      reads this
    {
      Status(routeURL, serviceMonitorRef, prometheusRuleRef, errorStatus)
    }

    constructor (status: Status)
      ensures Contents() == status
    {
      routeURL, serviceMonitorRef := status.routeURL, status.serviceMonitorRef;
      prometheusRuleRef, errorStatus := status.prometheusRuleRef, status.errorStatus;
    }

    method SetErrorStatus(err: Option<string>) returns (changed: bool)
      modifies this`errorStatus
      ensures var next := NewErrorStatus(old(errorStatus), err);
        changed == next.Some? && errorStatus == (if changed then next.value else old(errorStatus))
    {
      if errorStatus != "" && err.Some? { return false; }
      if errorStatus != "" && err.None? {
        errorStatus := "";
        return true;
      }
      if errorStatus == "" && err.Some? {
        errorStatus := err.value;
        return true;
      }
      changed := false;
    }

    method SetServiceMonitorRef(desired: Name) returns (updated: bool, invalid: bool)
      modifies this`serviceMonitorRef
      ensures var next := NewReference(old(serviceMonitorRef), desired);
        updated == next.RefSet? && invalid == next.RefInvalid? && serviceMonitorRef == (if updated then desired else old(serviceMonitorRef))
    {
      if serviceMonitorRef == NO_NAME || desired == NO_NAME {
        serviceMonitorRef := desired;
        return true, false;
      }
      updated, invalid := false, serviceMonitorRef != desired;
    }

    method SetPrometheusRuleRef(desired: Name) returns (updated: bool, invalid: bool)
      modifies this`prometheusRuleRef
      ensures var next := NewReference(old(prometheusRuleRef), desired);
        updated == next.RefSet? && invalid == next.RefInvalid? && prometheusRuleRef == (if updated then desired else old(prometheusRuleRef))
    {
      if prometheusRuleRef == NO_NAME || desired == NO_NAME {
        prometheusRuleRef := desired;
        return true, false;
      }
      updated, invalid := false, prometheusRuleRef != desired;
    }
  }

  /** SetFinalizer and DeleteFinalizer, as both EnsureFinalizerSet steps use them. */
  method SetKeys(finalizers: seq<string>, key: string, previous: string) returns (set_: bool, result: seq<string>)
    ensures set_ == (key !in finalizers)
    ensures result == if set_ then WithKey(finalizers, key, previous) else finalizers
  {
    var o := new Finalized(finalizers);
    var has := o.HasFinalizer(key);
    if !has {
      o.Add(key);
      has := o.HasFinalizer(previous);
      if has { o.Remove(previous); }
      return true, o.finalizers;
    }
    set_, result := false, finalizers;
  }

  /** The same for the deletion steps. */
  method DropKeys(finalizers: seq<string>, key: string, previous: string) returns (dropped: bool, result: seq<string>)
    ensures dropped == (key in finalizers)
    ensures result == if dropped then WithoutKeys(finalizers, key, previous) else finalizers
  {
    var o := new Finalized(finalizers);
    var has := o.HasFinalizer(key);
    if has {
      o.Remove(key);
      has := o.HasFinalizer(previous);
      if has { o.Remove(previous); }
      return true, o.finalizers;
    }
    dropped, result := false, finalizers;
  }

  /** Whether the listed monitors are one, on its way out. */
  lemma ListedLast(rms: Objects<RouteMonitorSpec, Status>, cums: Objects<UrlMonitorSpec, Status>, a: seq<Meta>, b: seq<Meta>)
    requires Lists(rms, a) && Lists(cums, b)
    ensures |a + b| == 1 && (a + b)[0].deleted.Some? <==> LastOneLeaving(rms, cums)
  {
  }

  /** pkg/blackboxexporter and the create-or-update and delete methods of
      pkg/servicemonitor and pkg/alert. */
  class Deployer {
    const client: Client

    constructor (client: Client)
      ensures this.client == client
    {
      this.client := client;
    }

    method CreateOrUpdate(f: Oracle, dep: Dep, t: Template) returns (ok: bool)
      modifies client
      ensures (client.State(), ok) == Monitors.CreateOrUpdate(old(client.State()), f, dep, t)
    {
      var got := client.Get(f, dep);
      match got
      case GetFailed => ok := false;
      case Missing => ok := client.Write(f, CreateDep(dep), client.store.deps[dep := t]);
      case Found(deployed) =>
        if deployed == t { return true; }
        ok := client.Write(f, PutDep(dep), client.store.deps[dep := t]);
    }

    method CreateIfMissing(f: Oracle, dep: Dep, t: Template) returns (ok: bool)
      modifies client
      ensures (client.State(), ok) == Monitors.CreateIfMissing(old(client.State()), f, dep, t)
    {
      var got := client.Get(f, dep);
      match got
      case GetFailed => ok := false;
      case Missing => ok := client.Write(f, CreateDep(dep), client.store.deps[dep := t]);
      case Found(_) => ok := true;
    }

    method DeleteIfFound(f: Oracle, dep: Dep) returns (ok: bool)
      modifies client
      ensures (client.State(), ok) == Monitors.DeleteIfFound(old(client.State()), f, dep)
    {
      var got := client.Get(f, dep);
      match got
      case GetFailed => ok := false;
      case Missing => ok := true;
      case Found(_) => ok := client.Write(f, DeleteDep(dep), client.store.deps - {dep});
    }

    method DeleteReferenced(f: Oracle, kind: Kind, reference: Name) returns (ok: bool)
      modifies client
      ensures (client.State(), ok) == Monitors.DeleteReferenced(old(client.State()), f, kind, reference)
    {
      if reference == NO_NAME { return true; }
      ok := DeleteIfFound(f, Dep(kind, reference));
    }

    method ExporterExists(f: Oracle, deployment: Option<Template>) returns (ok: bool)
      modifies client
      ensures (client.State(), ok) == Monitors.ExporterExists(old(client.State()), f, deployment)
    {
      ok := CreateIfMissing(f, CONFIG_MAP, ConfigMapData);
      if !ok { return; }
      if deployment.None? { return false; }
      ok := CreateOrUpdate(f, DEPLOYMENT, deployment.value);
      if !ok { return; }
      ok := CreateIfMissing(f, SERVICE, ServiceSpec);
    }

    method ExporterAbsent(f: Oracle) returns (ok: bool)
      modifies client
      ensures (client.State(), ok) == Monitors.ExporterAbsent(old(client.State()), f)
    {
      ok := DeleteIfFound(f, SERVICE);
      if !ok { return; }
      ok := DeleteIfFound(f, DEPLOYMENT);
      if !ok { return; }
      ok := DeleteIfFound(f, CONFIG_MAP);
    }

    /** Both listings are appended to one slice, whose length and first element decide. */
    method ShouldDeleteExporter(f: Oracle) returns (should: Option<bool>)
      modifies client
      ensures (client.State(), should) == Monitors.ShouldDeleteExporter(old(client.State()), f)
    {
      var depending: seq<Meta> := [];
      var rms := client.RouteMonitors(f);
      if rms.None? { return None; }
      for i := 0 to |rms.value|
        invariant depending == rms.value[..i]
      {
        depending := depending + [rms.value[i]];
      }
      var cums := client.UrlMonitors(f);
      if cums.None? { return None; }
      for i := 0 to |cums.value|
        invariant depending == rms.value + cums.value[..i]
      {
        depending := depending + [cums.value[i]];
      }
      ListedLast(client.store.rms, client.store.cums, rms.value, cums.value);
      should := Some(|depending| == 1 && depending[0].deleted.Some?);
    }

    method ReleaseExporter(f: Oracle) returns (ok: bool)
      modifies client
      ensures (client.State(), ok) == Monitors.ReleaseExporter(old(client.State()), f)
    {
      var should := ShouldDeleteExporter(f);
      if should.None? { return false; }
      if !should.value { return true; }
      ok := ExporterAbsent(f);
    }

    /** The shared end of both rule steps without a rule to keep. */
    method DropRule(f: Oracle, copy: Copy) returns (ok: bool)
      modifies client, copy
      ensures var (s, next) := Monitors.DropRule(old(client.State()), f, old(copy.Contents()));
        client.State() == s && ok == next.WriteStatus? && (ok ==> copy.Contents() == next.status)
        && (!ok ==> next == Done(Fail))
    {
      ok := DeleteReferenced(f, PrometheusRule, copy.prometheusRuleRef);
      if !ok { return; }
      var updated, _ := copy.SetPrometheusRuleRef(NO_NAME);
      ok := updated;
    }

    /** The rest of both rule steps, on a copy of the status. */
    method RuleStep(f: Oracle, name: Name, copy: Copy, url: string, slo: string) returns (write: bool, res: Res)
      modifies client, copy
      ensures var (s, next) := Monitors.RuleStep(old(client.State()), f, name, old(copy.Contents()), url, slo);
        client.State() == s && write == next.WriteStatus? && (write ==> copy.Contents() == next.status)
        && (!write ==> next == Done(res))
    {
      var parsed := ParsedSlo(url, slo);
      var changed := copy.SetErrorStatus(if parsed.Err? then Some(parsed.error) else None);
      if changed { return true, Continue; }
      if parsed.Err? || parsed.value == "" {
        write := DropRule(f, copy);
        return write, Fail;
      }
      var ok := CreateOrUpdate(f, Dep(PrometheusRule, name), Alerting(url, parsed.value, name));
      if !ok { return false, Fail; }
      var updated, _ := copy.SetPrometheusRuleRef(name);
      write, res := updated, Continue;
    }
  }

  class RouteMonitorReconciler {
    const client: Client
    const deployer: Deployer

    constructor (client: Client, deployer: Deployer)
      requires deployer.client == client
      ensures this.client == client && this.deployer == deployer
    {
      this.client, this.deployer := client, deployer;
    }

    method EnsureAbsent(f: Oracle, name: Name, rm: RouteMonitor) returns (res: Res)
      requires deployer.client == client
      modifies client
      ensures (client.State(), res) == RmAbsent(old(client.State()), f, name, rm)
    {
      var ok := deployer.ReleaseExporter(f);
      if !ok { return Fail; }
      ok := deployer.DeleteReferenced(f, ServiceMonitor, rm.status.serviceMonitorRef);
      if !ok { return Fail; }
      ok := deployer.DeleteReferenced(f, PrometheusRule, rm.status.prometheusRuleRef);
      if !ok { return Fail; }
      var dropped, finalizers := DropKeys(rm.meta.finalizers, RM_KEY, RM_PREV_KEY);
      if !dropped { return Halt; }
      res := client.UpdateRouteMonitor(f, name, rm.(meta := rm.meta.(finalizers := finalizers)));
    }

    method EnsureServiceMonitorExists(f: Oracle, name: Name, rm: RouteMonitor, look: RmLook) returns (res: Res)
      requires deployer.client == client
      modifies client
      ensures (client.State(), res) == RmServiceMonitorExists(old(client.State()), f, name, rm, look)
    {
      if rm.status.routeURL == "" { return Fail; }
      if look.clusterId.None? { return Fail; }
      var ok := deployer.CreateOrUpdate(f, RmServiceMonitor(rm.spec, name), RmProbing(rm.spec, rm.status.routeURL, look.clusterId.value));
      if !ok { return Fail; }
      var copy := new Copy(rm.status);
      var updated, invalid := copy.SetServiceMonitorRef(name);
      if invalid { return Fail; }
      if !updated { return Continue; }
      res := client.UpdateRouteMonitorStatus(f, name, copy.Contents());
    }

    method EnsurePrometheusRuleExists(f: Oracle, name: Name, rm: RouteMonitor) returns (res: Res)
      requires deployer.client == client
      modifies client
      ensures (client.State(), res) == RmRuleExists(old(client.State()), f, name, rm)
    {
      var copy := new Copy(rm.status);
      var write;
      if rm.spec.skipRule {
        write := deployer.DropRule(f, copy);
        res := Fail;
      } else {
        write, res := deployer.RuleStep(f, name, copy, rm.status.routeURL, rm.spec.slo);
      }
      if write { res := client.UpdateRouteMonitorStatus(f, name, copy.Contents()); }
    }

    /** One reconcile, from an empty call log. */
    method Reconcile(f: Oracle, name: Name, look: RmLook) returns (res: Res)
      requires deployer.client == client
      modifies client
      ensures (client.State(), res) == ReconcileRm(old(client.store), f, name, look)
    {
      client.log := [FetchMonitor];
      if !f(0).NoFault? { return Fail; }
      if name !in client.store.rms { return Halt; }
      var rm := client.store.rms[name];
      if rm.meta.deleted.Some? {
        res := EnsureAbsent(f, name, rm);
        return;
      }
      var added, finalizers := SetKeys(rm.meta.finalizers, RM_KEY, RM_PREV_KEY);
      if added {
        res := client.UpdateRouteMonitor(f, name, rm.(meta := rm.meta.(finalizers := finalizers)));
        return;
      }
      res := Deploy(f, name, rm, look);
    }

    method Deploy(f: Oracle, name: Name, rm: RouteMonitor, look: RmLook) returns (res: Res)
      requires deployer.client == client
      modifies client
      ensures (client.State(), res) == RmSteps(old(client.State()), f, name, rm, look)
    {
      var ok := deployer.ExporterExists(f, look.deployment);
      if !ok { return Fail; }
      var url := LookedUpUrl(look, rm.spec);
      if url.None? { return Fail; }
      if rm.status.routeURL != url.value {
        var copy := new Copy(rm.status);
        copy.routeURL := url.value;
        res := client.UpdateRouteMonitorStatus(f, name, copy.Contents());
        return;
      }
      res := EnsureServiceMonitorExists(f, name, rm, look);
      if !res.Continue? { return; }
      res := EnsurePrometheusRuleExists(f, name, rm);
    }
  }

  class ClusterUrlMonitorReconciler {
    const client: Client
    const deployer: Deployer

    constructor (client: Client, deployer: Deployer)
      requires deployer.client == client
      ensures this.client == client && this.deployer == deployer
    {
      this.client, this.deployer := client, deployer;
    }

    method EnsureAbsent(f: Oracle, name: Name, cum: UrlMonitor) returns (res: Res)
      requires deployer.client == client
      modifies client
      ensures (client.State(), res) == CumAbsent(old(client.State()), f, name, cum)
    {
      if cum.meta.deleted.None? { return Continue; }
      var ok := deployer.DeleteReferenced(f, CumServiceMonitor(cum.spec, name).kind, cum.status.serviceMonitorRef);
      if !ok { return Fail; }
      ok := deployer.ReleaseExporter(f);
      if !ok { return Fail; }
      ok := deployer.DeleteReferenced(f, PrometheusRule, cum.status.prometheusRuleRef);
      if !ok { return Fail; }
      var dropped, finalizers := DropKeys(cum.meta.finalizers, CUM_KEY, CUM_PREV_KEY);
      if !dropped { return Continue; }
      res := client.UpdateUrlMonitor(f, name, cum.(meta := cum.meta.(finalizers := finalizers)));
    }

    method EnsureServiceMonitorExists(f: Oracle, name: Name, cum: UrlMonitor, look: CumLook) returns (res: Res)
      requires deployer.client == client
      modifies client
      ensures (client.State(), res) == CumServiceMonitorExists(old(client.State()), f, name, cum, look)
    {
      if look.domain.None? || look.clusterId.None? { return Fail; }
      if cum.spec.hcp && !look.versionAvailable { return Fail; }
      var ok := deployer.CreateOrUpdate(f, CumServiceMonitor(cum.spec, name),
        Probing(CumUrl(cum.spec, look.domain.value), EXPORTER.namespace, "http_2xx", look.clusterId.value));
      if !ok { return Fail; }
      var copy := new Copy(cum.status);
      var updated, invalid := copy.SetServiceMonitorRef(name);
      if invalid { return Fail; }
      if !updated { return Continue; }
      res := client.UpdateUrlMonitorStatus(f, name, copy.Contents());
    }

    method EnsurePrometheusRuleExists(f: Oracle, name: Name, cum: UrlMonitor, look: CumLook) returns (res: Res)
      requires deployer.client == client
      modifies client
      ensures (client.State(), res) == CumRuleExists(old(client.State()), f, name, cum, look)
    {
      var copy := new Copy(cum.status);
      var write;
      if cum.spec.skipRule {
        write := deployer.DropRule(f, copy);
        res := Fail;
      } else {
        if cum.spec.hcp { return Continue; }
        if look.domain.None? { return Fail; }
        write, res := deployer.RuleStep(f, name, copy, CumUrl(cum.spec, look.domain.value), cum.spec.slo);
      }
      if write { res := client.UpdateUrlMonitorStatus(f, name, copy.Contents()); }
    }

    /** One reconcile, from an empty call log. The deletion step may go on to the others. */
    method Reconcile(f: Oracle, name: Name, look: CumLook) returns (res: Res)
      requires deployer.client == client
      modifies client
      ensures (client.State(), res) == ReconcileCum(old(client.store), f, name, look)
    {
      client.log := [FetchMonitor];
      if !f(0).NoFault? { return Fail; }
      if name !in client.store.cums { return Halt; }
      var cum := client.store.cums[name];
      res := EnsureAbsent(f, name, cum);
      if !res.Continue? { return; }
      res := Deploy(f, name, cum, look);
    }

    method Deploy(f: Oracle, name: Name, cum: UrlMonitor, look: CumLook) returns (res: Res)
      requires deployer.client == client
      modifies client
      ensures (client.State(), res) == CumSteps(old(client.State()), f, name, cum, look)
    {
      var added, finalizers := SetKeys(cum.meta.finalizers, CUM_KEY, CUM_PREV_KEY);
      if added {
        res := client.UpdateUrlMonitor(f, name, cum.(meta := cum.meta.(finalizers := finalizers)));
        return;
      }
      var ok := deployer.ExporterExists(f, look.deployment);
      if !ok { return Fail; }
      res := EnsureServiceMonitorExists(f, name, cum, look);
      if !res.Continue? { return; }
      res := EnsurePrometheusRuleExists(f, name, cum, look);
    }
  }
}
