/** The RouteMonitor and ClusterUrlMonitor reconcilers and what they deploy:
    controllers/routemonitor, controllers/clusterurlmonitor, pkg/reconcile,
    pkg/servicemonitor, pkg/blackboxexporter and the store side of pkg/alert. */
module Monitors {
  import opened Base
  import opened Digits
  import opened Slo
  import opened Finalizers
  import opened KubeStore
  import opened MonitorApi

  const RM_KEY := "routemonitor.routemonitoroperator.monitoring.openshift.io/finalizer"
  const RM_PREV_KEY := "finalizer.routemonitor.openshift.io"
  const CUM_KEY := "clusterurlmonitor.routemonitoroperator.monitoring.openshift.io/finalizer"
  const CUM_PREV_KEY := "clusterurlmonitor.monitoring.openshift.io/clusterurlmonitorcontroller"

  /** The one exporter, in the namespace the operator is configured with. */
  const EXPORTER := Name("blackbox-exporter", "openshift-route-monitor-operator")

  const CONFIG_MAP := Dep(ExporterConfigMap, EXPORTER)
  const DEPLOYMENT := Dep(ExporterDeployment, EXPORTER)
  const SERVICE := Dep(ExporterService, EXPORTER)

  const ERR_NO_HOST := "no Host: extracted RouteURL is empty"
  const ERR_INVALID_SLO := "invalid RawSlo: string cannot be parsed or is not in correct range, or type is not supported"

  datatype Call =
    | FetchMonitor
    | ListRouteMonitors | ListUrlMonitors
    | GetDep(dep: Dep) | CreateDep(dep: Dep) | PutDep(dep: Dep) | DeleteDep(dep: Dep)
    | PutRouteMonitor(name: Name) | PutRouteMonitorStatus(name: Name)
    | PutUrlMonitor(name: Name) | PutUrlMonitorStatus(name: Name)

  /** A store under one reconcile and the calls made so far; the oracle tells the
      fate of each call by its place in the log. */
  datatype Sim = Sim(store: Store, log: seq<Call>)

  type Oracle = nat -> Fault

  /** utilreconcile.Result with its error. */
  datatype Res = Continue | Halt | Fail

  /** A write of a monitor resource. */
  predicate WritesMonitor(c: Call) {
    c.PutRouteMonitor? || c.PutRouteMonitorStatus? || c.PutUrlMonitor? || c.PutUrlMonitorStatus?
  }

  /** A call that puts something in place for a monitor. */
  predicate Deploys(c: Call) { c.CreateDep? || c.PutDep? }

  predicate Extends(s: Sim, t: Sim) { s.log <= t.log }

  /** From `s` to `t` no monitor resource was written. */
  predicate Quiet(s: Sim, t: Sim) {
    s.log <= t.log && forall i :: |s.log| <= i < |t.log| ==> !WritesMonitor(t.log[i])
  }

  /** At most the status of one monitor differs. */
  predicate SameButStatus<S(==)>(a: Objects<S, Status>, b: Objects<S, Status>, name: Name) {
    b == a || (name in a && name in b && b == a[name := a[name].(status := b[name].status)])
  }

  /** From `s` to `t` nothing was deployed and no monitor resource written. */
  predicate Clears(s: Sim, t: Sim) {
    s.log <= t.log && forall i :: |s.log| <= i < |t.log| ==> !WritesMonitor(t.log[i]) && !Deploys(t.log[i])
  }

  // ----- objects the operator deploys -----

  datatype Got = Found(template: Template) | Missing | GetFailed

  function Get(s: Sim, f: Oracle, dep: Dep): (r: (Sim, Got))
    ensures r.0.store == s.store && r.0.log == s.log + [GetDep(dep)]
    ensures r.1.Found? ==> dep in s.store.deps && s.store.deps[dep] == r.1.template
    ensures r.1.Missing? ==> dep !in s.store.deps
  {
    (s.(log := s.log + [GetDep(dep)]),
     if !f(|s.log|).NoFault? then GetFailed
     else if dep in s.store.deps then Found(s.store.deps[dep]) else Missing)
  }

  function Write(s: Sim, f: Oracle, call: Call, deps: Deps): (r: (Sim, bool))
    ensures r.0.log == s.log + [call]
    ensures r.0.store == s.store.(deps := deps) || (r.0.store == s.store && !r.1)
  {
    (Sim(if f(|s.log|).Lost? then s.store else s.store.(deps := deps), s.log + [call]), f(|s.log|).NoFault?)
  }

  /** Create the object, or update it when it differs from the template. */
  function CreateOrUpdate(s: Sim, f: Oracle, dep: Dep, t: Template): (r: (Sim, bool))
    ensures Quiet(s, r.0)
    ensures r.0.store == s.store || r.0.store == s.store.(deps := s.store.deps[dep := t])
    ensures r.1 ==> dep in r.0.store.deps && r.0.store.deps[dep] == t
  {
    var (s1, got) := Get(s, f, dep);
    match got
    case GetFailed => (s1, false)
    case Missing => Write(s1, f, CreateDep(dep), s1.store.deps[dep := t])
    case Found(old_) => if old_ == t then (s1, true) else Write(s1, f, PutDep(dep), s1.store.deps[dep := t])
  }

  /** Create the object unless one is there already. */
  function CreateIfMissing(s: Sim, f: Oracle, dep: Dep, t: Template): (r: (Sim, bool))
    ensures Quiet(s, r.0)
    ensures r.0.store == s.store || r.0.store == s.store.(deps := s.store.deps[dep := t])
    ensures r.1 ==> dep in r.0.store.deps
  {
    var (s1, got) := Get(s, f, dep);
    match got
    case GetFailed => (s1, false)
    case Missing => Write(s1, f, CreateDep(dep), s1.store.deps[dep := t])
    case Found(_) => (s1, true)
  }

  /** Delete the object if it is there. */
  function DeleteIfFound(s: Sim, f: Oracle, dep: Dep): (r: (Sim, bool))
    ensures Clears(s, r.0)
    ensures r.0.store == s.store || r.0.store == s.store.(deps := s.store.deps - {dep})
    ensures r.1 ==> dep !in r.0.store.deps
  {
    var (s1, got) := Get(s, f, dep);
    match got
    case GetFailed => (s1, false)
    case Missing => (s1, true)
    case Found(_) => Write(s1, f, DeleteDep(dep), s1.store.deps - {dep})
  }

  predicate IsExporter(dep: Dep) { dep == CONFIG_MAP || dep == DEPLOYMENT || dep == SERVICE }

  predicate ExporterUp(deps: Deps) { CONFIG_MAP in deps && DEPLOYMENT in deps && SERVICE in deps }

  predicate ExporterDown(deps: Deps) { CONFIG_MAP !in deps && DEPLOYMENT !in deps && SERVICE !in deps }

  /** EnsureBlackBoxExporterResourcesExist. The Deployment's template depends on lookups that may fail. */
  function ExporterExists(s: Sim, f: Oracle, deployment: Option<Template>): (r: (Sim, bool))
    ensures Quiet(s, r.0)
    ensures r.0.store == s.store.(deps := r.0.store.deps)
    ensures forall d :: d in s.store.deps ==> d in r.0.store.deps
    ensures r.1 ==> ExporterUp(r.0.store.deps)
    ensures forall d :: d in r.0.store.deps && d !in s.store.deps ==> IsExporter(d)
    ensures forall d :: !IsExporter(d) && d in s.store.deps ==> r.0.store.deps[d] == s.store.deps[d]
  {
    var (s1, ok1) := CreateIfMissing(s, f, CONFIG_MAP, ConfigMapData);
    if !ok1 || deployment.None? then (s1, false)
    else
      var (s2, ok2) := CreateOrUpdate(s1, f, DEPLOYMENT, deployment.value);
      if !ok2 then (s2, false) else CreateIfMissing(s2, f, SERVICE, ServiceSpec)
  }

  /** EnsureBlackBoxExporterResourcesAbsent. */
  function ExporterAbsent(s: Sim, f: Oracle): (r: (Sim, bool))
    ensures Clears(s, r.0)
    ensures r.0.store == s.store.(deps := r.0.store.deps)
    ensures forall d :: d in r.0.store.deps ==> d in s.store.deps && r.0.store.deps[d] == s.store.deps[d]
    ensures forall d :: d in s.store.deps && d !in r.0.store.deps ==> IsExporter(d)
    ensures r.1 ==> ExporterDown(r.0.store.deps)
  {
    var (s1, ok1) := DeleteIfFound(s, f, SERVICE);
    if !ok1 then (s1, false)
    else
      var (s2, ok2) := DeleteIfFound(s1, f, DEPLOYMENT);
      if !ok2 then (s2, false) else DeleteIfFound(s2, f, CONFIG_MAP)
  }

  /** One monitor is left, and it is being deleted. */
  predicate LastOneLeaving(rms: Objects<RouteMonitorSpec, Status>, cums: Objects<UrlMonitorSpec, Status>) {
    |rms| + |cums| == 1
    && (forall n :: n in rms ==> rms[n].meta.deleted.Some?)
    && (forall n :: n in cums ==> cums[n].meta.deleted.Some?)
  }

  /** ShouldDeleteBlackBoxExporterResources; no answer stands for an error. */
  function ShouldDeleteExporter(s: Sim, f: Oracle): (r: (Sim, Option<bool>))
    ensures Clears(s, r.0) && r.0.store == s.store
    ensures r.1.Some? ==> r.1.value == LastOneLeaving(s.store.rms, s.store.cums)
  {
    var s1 := s.(log := s.log + [ListRouteMonitors]);
    if !f(|s.log|).NoFault? then (s1, None)
    else
      var s2 := s1.(log := s1.log + [ListUrlMonitors]);
      if !f(|s1.log|).NoFault? then (s2, None) else (s2, Some(LastOneLeaving(s.store.rms, s.store.cums)))
  }

  /** The exporter goes when the last monitor leaves. */
  function ReleaseExporter(s: Sim, f: Oracle): (r: (Sim, bool))
    ensures Clears(s, r.0)
    ensures r.0.store == s.store.(deps := r.0.store.deps)
    ensures forall d :: d in r.0.store.deps ==> d in s.store.deps && r.0.store.deps[d] == s.store.deps[d]
    ensures forall d :: d in s.store.deps && d !in r.0.store.deps ==> IsExporter(d) && LastOneLeaving(s.store.rms, s.store.cums)
    ensures r.1 && LastOneLeaving(s.store.rms, s.store.cums) ==> ExporterDown(r.0.store.deps)
  {
    var (s1, should) := ShouldDeleteExporter(s, f);
    if should.None? then (s1, false)
    else if !should.value then (s1, true)
    else ExporterAbsent(s1, f)
  }

  /** DeleteServiceMonitorDeployment and DeletePrometheusRuleDeployment: what a status reference names. */
  function DeleteReferenced(s: Sim, f: Oracle, kind: Kind, reference: Name): (r: (Sim, bool))
    ensures Clears(s, r.0) && r.0.store.rms == s.store.rms && r.0.store.cums == s.store.cums
    ensures r.0.store == s.store || (reference != NO_NAME && r.0.store == s.store.(deps := s.store.deps - {Dep(kind, reference)}))
    ensures r.1 && reference != NO_NAME ==> Dep(kind, reference) !in r.0.store.deps
  {
    if reference == NO_NAME then (s, true) else DeleteIfFound(s, f, Dep(kind, reference))
  }

  // ----- the pieces of a monitor's status -----

  /** SetErrorStatus: the new error status, when it changes. */
  function NewErrorStatus(current: string, err: Option<string>): Option<string> {
    if current != "" && err.Some? then None
    else if current != "" && err.None? then Some("")
    else if current == "" && err.Some? then err
    else None
  }

  datatype RefUpdate = RefSet(reference: Name) | RefSame | RefInvalid

  /** SetResourceReference: it also reports an update when both sides are empty. */
  function NewReference(current: Name, desired: Name): RefUpdate {
    if current == NO_NAME || desired == NO_NAME then RefSet(desired)
    else if current != desired then RefInvalid
    else RefSame
  }

  /** ParseMonitorSLOSpecs: the scaled target, or the error. */
  function ParsedSlo(url: string, slo: string): Result<string, string> {
    if url == "" then Err(ERR_NO_HOST)
    else if slo == "" then Ok("")
    else
      match IsValid(slo)
      case None => Err(ERR_INVALID_SLO)
      case Some(percent) => Ok(percent)
  }

  function SloError(p: Result<string, string>): Option<string> { if p.Err? then Some(p.error) else None }

  /** The alerting rule a monitor asks for, if any. */
  function WantedRule(name: Name, skip: bool, url: string, slo: string): Option<Template> {
    var p := ParsedSlo(url, slo);
    if skip || p.Err? || p.value == "" then None else Some(Alerting(url, p.value, name))
  }

  /** How the rule step goes on: with a status write, or with a result. */
  datatype Next = WriteStatus(status: Status) | Done(res: Res)

  /** Without a rule to keep, the referenced one is deleted and the reference cleared. */
  function DropRule(s: Sim, f: Oracle, status: Status): (r: (Sim, Next))
    ensures Clears(s, r.0)
    ensures r.0.store == s.store || r.0.store == s.store.(deps := s.store.deps - {Dep(PrometheusRule, status.prometheusRuleRef)})
  {
    var (s1, ok) := DeleteReferenced(s, f, PrometheusRule, status.prometheusRuleRef);
    if !ok then (s1, Done(Fail))
    else (s1, WriteStatus(status.(prometheusRuleRef := NewReference(status.prometheusRuleRef, NO_NAME).reference)))
  }

  /** The rule step both controllers share once the URL is known. */
  function RuleStep(s: Sim, f: Oracle, name: Name, status: Status, url: string, slo: string): (r: (Sim, Next))
    ensures Quiet(s, r.0)
    ensures r.0.store == s.store.(deps := r.0.store.deps)
    ensures forall d: Dep :: d.kind != PrometheusRule ==>
      (d in s.store.deps <==> d in r.0.store.deps) && (d in s.store.deps ==> r.0.store.deps[d] == s.store.deps[d])
  {
    var p := ParsedSlo(url, slo);
    var errorStatus := NewErrorStatus(status.errorStatus, SloError(p));
    if errorStatus.Some? then (s, WriteStatus(status.(errorStatus := errorStatus.value)))
    else if p.Err? || p.value == "" then DropRule(s, f, status)
    else
      var (s1, ok) := CreateOrUpdate(s, f, Dep(PrometheusRule, name), Alerting(url, p.value, name));
      if !ok then (s1, Done(Fail))
      else
        match NewReference(status.prometheusRuleRef, name)
        case RefSet(reference) => (s1, WriteStatus(status.(prometheusRuleRef := reference)))
        case _ => (s1, Done(Continue))
  }

  /** The finalizers after SetFinalizer and, when that changed something, DeleteFinalizer of the old key. */
  function WithKey(fs: seq<string>, key: string, previous: string): seq<string> {
    var added := Added(fs, key);
    if previous in added then Removed(added, previous) else added
  }

  /** The finalizers after both keys are deleted. */
  function WithoutKeys(fs: seq<string>, key: string, previous: string): seq<string> {
    var removed := Removed(fs, key);
    if previous in removed then Removed(removed, previous) else removed
  }

  // ----- RouteMonitor -----

  datatype RouteInfo = RouteInfo(ingress: seq<string>, tls: bool)

  /** What a RouteMonitor reconcile looks up elsewhere; no answer stands for an error. */
  datatype RmLook = RmLook(route: Option<RouteInfo>, clusterId: Option<string>, deployment: Option<Template>)

  function WriteRmStatus(s: Sim, f: Oracle, name: Name, status: Status): (r: (Sim, Res))
    ensures r.0.log == s.log + [PutRouteMonitorStatus(name)]
    ensures r.0.store == s.store.(rms := r.0.store.rms) && SameButStatus(s.store.rms, r.0.store.rms, name)
    ensures r.1 == Halt || r.1 == Fail
  {
    var (m, ok) := UpdateStatus(s.store.rms, name, status, f(|s.log|));
    (Sim(s.store.(rms := m), s.log + [PutRouteMonitorStatus(name)]), if ok then Halt else Fail)
  }

  function WriteRm(s: Sim, f: Oracle, name: Name, rm: RouteMonitor): (r: (Sim, Res))
    ensures r.0.log == s.log + [PutRouteMonitor(name)]
    ensures r.0.store == s.store.(rms := r.0.store.rms)
    ensures r.1 == Halt || r.1 == Fail
  {
    var (m, ok) := Update(s.store.rms, name, rm, f(|s.log|));
    (Sim(s.store.(rms := m), s.log + [PutRouteMonitor(name)]), if ok then Halt else Fail)
  }

  /** The dependencies of a RouteMonitor being deleted. The ServiceMonitor delete is
      asked for the core kind whatever kind the monitor uses. */
  function RmDependenciesAbsent(s: Sim, f: Oracle, status: Status): (r: (Sim, bool))
    ensures Clears(s, r.0) && r.0.store == s.store.(deps := r.0.store.deps)
  {
    var (s1, ok1) := ReleaseExporter(s, f);
    if !ok1 then (s1, false)
    else
      var (s2, ok2) := DeleteReferenced(s1, f, ServiceMonitor, status.serviceMonitorRef);
      if !ok2 then (s2, false)
      else DeleteReferenced(s2, f, PrometheusRule, status.prometheusRuleRef)
  }

  /** EnsureMonitorAndDependenciesAbsent. */
  function RmAbsent(s: Sim, f: Oracle, name: Name, rm: RouteMonitor): (r: (Sim, Res))
    ensures Extends(s, r.0)
  {
    var (s1, ok) := RmDependenciesAbsent(s, f, rm.status);
    if !ok then (s1, Fail)
    else if RM_KEY in rm.meta.finalizers then
      WriteRm(s1, f, name, rm.(meta := rm.meta.(finalizers := WithoutKeys(rm.meta.finalizers, RM_KEY, RM_PREV_KEY))))
    else (s1, Halt)
  }

  /** EnsureRouteURLExists: the URL a Route gives a monitor. */
  function RouteUrl(info: RouteInfo, spec: RouteMonitorSpec): Option<string> {
    if info.ingress == [] || info.ingress[0] == "" then None
    else
      Some((if info.tls then "https://" else "") + info.ingress[0]
           + (if spec.port != 0 then ":" + Itoa(spec.port) else "") + spec.suffix)
  }

  /** GetRoute and what EnsureRouteURLExists extracts from it. */
  function LookedUpUrl(look: RmLook, spec: RouteMonitorSpec): Option<string> {
    if spec.route.name == "" || spec.route.namespace == "" || look.route.None? then None
    else RouteUrl(look.route.value, spec)
  }

  function RmServiceMonitor(spec: RouteMonitorSpec, name: Name): Dep {
    Dep(if spec.rhobs then RhobsServiceMonitor else ServiceMonitor, name)
  }

  function RmProbing(spec: RouteMonitorSpec, url: string, clusterId: string): Template {
    Probing(url, EXPORTER.namespace, if spec.insecure then "insecure_http_2xx" else "http_2xx", clusterId)
  }

  /** EnsureServiceMonitorExists. */
  function RmServiceMonitorExists(s: Sim, f: Oracle, name: Name, rm: RouteMonitor, look: RmLook): (r: (Sim, Res))
    ensures Extends(s, r.0)
    ensures r.0.store.cums == s.store.cums && SameButStatus(s.store.rms, r.0.store.rms, name)
  {
    if rm.status.routeURL == "" || look.clusterId.None? then (s, Fail)
    else
      var (s1, ok) := CreateOrUpdate(s, f, RmServiceMonitor(rm.spec, name), RmProbing(rm.spec, rm.status.routeURL, look.clusterId.value));
      if !ok then (s1, Fail)
      else
        match NewReference(rm.status.serviceMonitorRef, name)
        case RefSet(reference) => WriteRmStatus(s1, f, name, rm.status.(serviceMonitorRef := reference))
        case RefSame => (s1, Continue)
        case RefInvalid => (s1, Fail)
  }

  /** EnsurePrometheusRuleExists. */
  function RmRuleExists(s: Sim, f: Oracle, name: Name, rm: RouteMonitor): (r: (Sim, Res))
    ensures Extends(s, r.0)
    ensures r.0.store.cums == s.store.cums && SameButStatus(s.store.rms, r.0.store.rms, name)
  {
    var (s1, next) :=
      if rm.spec.skipRule then DropRule(s, f, rm.status)
      else RuleStep(s, f, name, rm.status, rm.status.routeURL, rm.spec.slo);
    match next
    case WriteStatus(status) => WriteRmStatus(s1, f, name, status)
    case Done(res) => (s1, res)
  }

  /** The ServiceMonitor step and then the rule step. */
  function RmProbes(s: Sim, f: Oracle, name: Name, rm: RouteMonitor, look: RmLook): (r: (Sim, Res))
    ensures Extends(s, r.0)
    ensures r.0.store.cums == s.store.cums && SameButStatus(s.store.rms, r.0.store.rms, name)
  {
    var (s1, res) := RmServiceMonitorExists(s, f, name, rm, look);
    if !res.Continue? then (s1, res)
    else RmRuleExists(s1, f, name, rm)
  }

  /** The steps that follow once the finalizer is there. */
  function RmSteps(s: Sim, f: Oracle, name: Name, rm: RouteMonitor, look: RmLook): (r: (Sim, Res))
    ensures Extends(s, r.0)
    ensures r.0.store.cums == s.store.cums && SameButStatus(s.store.rms, r.0.store.rms, name)
  {
    var (s1, ok) := ExporterExists(s, f, look.deployment);
    var url := LookedUpUrl(look, rm.spec);
    if !ok || url.None? then (s1, Fail)
    else if rm.status.routeURL != url.value then WriteRmStatus(s1, f, name, rm.status.(routeURL := url.value))
    else RmProbes(s1, f, name, rm, look)
  }

  /** RouteMonitorReconciler.Reconcile. */
  function ReconcileRm(store: Store, f: Oracle, name: Name, look: RmLook): (Sim, Res) {
    var s := Sim(store, [FetchMonitor]);
    if !f(0).NoFault? then (s, Fail)
    else if name !in store.rms then (s, Halt)
    else
      var rm := store.rms[name];
      if rm.meta.deleted.Some? then RmAbsent(s, f, name, rm)
      else if RM_KEY !in rm.meta.finalizers then
        WriteRm(s, f, name, rm.(meta := rm.meta.(finalizers := WithKey(rm.meta.finalizers, RM_KEY, RM_PREV_KEY))))
      else RmSteps(s, f, name, rm, look)
  }

  // ----- ClusterUrlMonitor -----

  /** What a ClusterUrlMonitor reconcile looks up elsewhere. */
  datatype CumLook = CumLook(domain: Option<string>, clusterId: Option<string>, versionAvailable: bool, deployment: Option<Template>)

  function WriteCumStatus(s: Sim, f: Oracle, name: Name, status: Status): (r: (Sim, Res))
    ensures r.0.log == s.log + [PutUrlMonitorStatus(name)]
    ensures r.0.store == s.store.(cums := r.0.store.cums) && SameButStatus(s.store.cums, r.0.store.cums, name)
    ensures r.1 == Halt || r.1 == Fail
  {
    var (m, ok) := UpdateStatus(s.store.cums, name, status, f(|s.log|));
    (Sim(s.store.(cums := m), s.log + [PutUrlMonitorStatus(name)]), if ok then Halt else Fail)
  }

  function WriteCum(s: Sim, f: Oracle, name: Name, cum: UrlMonitor): (r: (Sim, Res))
    ensures r.0.log == s.log + [PutUrlMonitor(name)]
    ensures r.0.store == s.store.(cums := r.0.store.cums)
    ensures r.1 == Halt || r.1 == Fail
  {
    var (m, ok) := Update(s.store.cums, name, cum, f(|s.log|));
    (Sim(s.store.(cums := m), s.log + [PutUrlMonitor(name)]), if ok then Halt else Fail)
  }

  function CumServiceMonitor(spec: UrlMonitorSpec, name: Name): Dep {
    Dep(if spec.hcp then RhobsServiceMonitor else ServiceMonitor, name)
  }

  /** The dependencies of a ClusterUrlMonitor being deleted. */
  function CumDependenciesAbsent(s: Sim, f: Oracle, kind: Kind, status: Status): (r: (Sim, bool))
    requires kind.ServiceMonitor? || kind.RhobsServiceMonitor?
    ensures Clears(s, r.0) && r.0.store == s.store.(deps := r.0.store.deps)
  {
    var (s1, ok1) := DeleteReferenced(s, f, kind, status.serviceMonitorRef);
    if !ok1 then (s1, false)
    else
      var (s2, ok2) := ReleaseExporter(s1, f);
      if !ok2 then (s2, false)
      else DeleteReferenced(s2, f, PrometheusRule, status.prometheusRuleRef)
  }

  /** EnsureMonitorAndDependenciesAbsent; it also runs, and goes on, when nothing is to be deleted. */
  function CumAbsent(s: Sim, f: Oracle, name: Name, cum: UrlMonitor): (r: (Sim, Res))
    ensures Extends(s, r.0)
  {
    if cum.meta.deleted.None? then (s, Continue)
    else
      var (s1, ok) := CumDependenciesAbsent(s, f, CumServiceMonitor(cum.spec, name).kind, cum.status);
      if !ok then (s1, Fail)
      else if CUM_KEY in cum.meta.finalizers then
        WriteCum(s1, f, name, cum.(meta := cum.meta.(finalizers := WithoutKeys(cum.meta.finalizers, CUM_KEY, CUM_PREV_KEY))))
      else (s1, Continue)
  }

  /** Nothing is added, and only the exporter of a last monitor and what the status names is removed. */
  ghost predicate RemovesOnly(before: Sim, after: Deps, kind: Kind, status: Status) {
    forall d :: (d in after ==> d in before.store.deps && after[d] == before.store.deps[d])
      && (d in before.store.deps && d !in after ==>
            (IsExporter(d) && LastOneLeaving(before.store.rms, before.store.cums))
            || d == Dep(kind, status.serviceMonitorRef)
            || (d == Dep(PrometheusRule, status.prometheusRuleRef) && status.prometheusRuleRef != NO_NAME))
  }

  /** Success means everything that had to go is gone. */
  predicate AllGone(before: Sim, after: Deps, kind: Kind, status: Status) {
    && (LastOneLeaving(before.store.rms, before.store.cums) ==> ExporterDown(after))
    && (status.serviceMonitorRef != NO_NAME ==> Dep(kind, status.serviceMonitorRef) !in after)
    && (status.prometheusRuleRef != NO_NAME ==> Dep(PrometheusRule, status.prometheusRuleRef) !in after)
  }

  /** Removing one more object that may go. */
  lemma RemovesOneMore(s: Sim, a: Deps, b: Deps, kind: Kind, status: Status, dep: Dep)
    requires RemovesOnly(s, a, kind, status) && (b == a || b == a - {dep})
    requires dep == Dep(kind, status.serviceMonitorRef) || (dep == Dep(PrometheusRule, status.prometheusRuleRef) && status.prometheusRuleRef != NO_NAME)
    ensures RemovesOnly(s, b, kind, status)
  {
  }

  /** DeleteReferenced removes at most what the reference names, and with success that is gone. */
  lemma ReferencedGoes(s: Sim, f: Oracle, kind: Kind, reference: Name)
    ensures var (t, ok) := DeleteReferenced(s, f, kind, reference);
      t.store == s.store.(deps := t.store.deps)
      && (t.store.deps == s.store.deps || (reference != NO_NAME && t.store.deps == s.store.deps - {Dep(kind, reference)}))
      && (ok && reference != NO_NAME ==> Dep(kind, reference) !in t.store.deps)
  {
  }

  lemma RmDependencies(s: Sim, f: Oracle, status: Status)
    ensures var (t, ok) := RmDependenciesAbsent(s, f, status);
      RemovesOnly(s, t.store.deps, ServiceMonitor, status) && (ok ==> AllGone(s, t.store.deps, ServiceMonitor, status))
  {
    var s1 := ReleaseExporter(s, f).0;
    var s2 := DeleteReferenced(s1, f, ServiceMonitor, status.serviceMonitorRef).0;
    var s3 := DeleteReferenced(s2, f, PrometheusRule, status.prometheusRuleRef).0;
    ReferencedGoes(s1, f, ServiceMonitor, status.serviceMonitorRef);
    ReferencedGoes(s2, f, PrometheusRule, status.prometheusRuleRef);
    RemovesOneMore(s, s1.store.deps, s2.store.deps, ServiceMonitor, status, Dep(ServiceMonitor, status.serviceMonitorRef));
    if s3.store.deps != s2.store.deps {
      RemovesOneMore(s, s2.store.deps, s3.store.deps, ServiceMonitor, status, Dep(PrometheusRule, status.prometheusRuleRef));
    }
  }

  lemma CumDependencies(s: Sim, f: Oracle, kind: Kind, status: Status)
    requires kind.ServiceMonitor? || kind.RhobsServiceMonitor?
    ensures var (t, ok) := CumDependenciesAbsent(s, f, kind, status);
      RemovesOnly(s, t.store.deps, kind, status) && (ok ==> AllGone(s, t.store.deps, kind, status))
  {
    var s1 := DeleteReferenced(s, f, kind, status.serviceMonitorRef).0;
    var s2 := ReleaseExporter(s1, f).0;
    var s3 := DeleteReferenced(s2, f, PrometheusRule, status.prometheusRuleRef).0;
    ReferencedGoes(s, f, kind, status.serviceMonitorRef);
    ReferencedGoes(s2, f, PrometheusRule, status.prometheusRuleRef);
    assert RemovesOnly(s, s2.store.deps, kind, status);
    if s3.store.deps != s2.store.deps {
      RemovesOneMore(s, s2.store.deps, s3.store.deps, kind, status, Dep(PrometheusRule, status.prometheusRuleRef));
    }
  }

  function CumUrl(spec: UrlMonitorSpec, domain: string): string {
    spec.prefix + domain + ":" + spec.port + spec.suffix
  }

  /** EnsureServiceMonitorExists. */
  function CumServiceMonitorExists(s: Sim, f: Oracle, name: Name, cum: UrlMonitor, look: CumLook): (r: (Sim, Res))
    ensures Extends(s, r.0)
    ensures r.0.store.rms == s.store.rms && SameButStatus(s.store.cums, r.0.store.cums, name)
  {
    if look.domain.None? || look.clusterId.None? || (cum.spec.hcp && !look.versionAvailable) then (s, Fail)
    else
      var (s1, ok) := CreateOrUpdate(s, f, CumServiceMonitor(cum.spec, name),
                                     Probing(CumUrl(cum.spec, look.domain.value), EXPORTER.namespace, "http_2xx", look.clusterId.value));
      if !ok then (s1, Fail)
      else
        match NewReference(cum.status.serviceMonitorRef, name)
        case RefSet(reference) => WriteCumStatus(s1, f, name, cum.status.(serviceMonitorRef := reference))
        case RefSame => (s1, Continue)
        case RefInvalid => (s1, Fail)
  }

  /** EnsurePrometheusRuleExists: hosted control planes are alerted on elsewhere. */
  function CumRuleExists(s: Sim, f: Oracle, name: Name, cum: UrlMonitor, look: CumLook): (r: (Sim, Res))
    ensures Extends(s, r.0)
    ensures r.0.store.rms == s.store.rms && SameButStatus(s.store.cums, r.0.store.cums, name)
  {
    var (s1, next) :=
      if cum.spec.skipRule then DropRule(s, f, cum.status)
      else if cum.spec.hcp then (s, Done(Continue))
      else if look.domain.None? then (s, Done(Fail))
      else RuleStep(s, f, name, cum.status, CumUrl(cum.spec, look.domain.value), cum.spec.slo);
    match next
    case WriteStatus(status) => WriteCumStatus(s1, f, name, status)
    case Done(res) => (s1, res)
  }

  /** The ServiceMonitor step and then the rule step. */
  function CumProbes(s: Sim, f: Oracle, name: Name, cum: UrlMonitor, look: CumLook): (r: (Sim, Res))
    ensures Extends(s, r.0)
    ensures r.0.store.rms == s.store.rms && SameButStatus(s.store.cums, r.0.store.cums, name)
  {
    var (s1, res) := CumServiceMonitorExists(s, f, name, cum, look);
    if !res.Continue? then (s1, res)
    else CumRuleExists(s1, f, name, cum, look)
  }

  function CumSteps(s: Sim, f: Oracle, name: Name, cum: UrlMonitor, look: CumLook): (r: (Sim, Res))
    ensures Extends(s, r.0)
    ensures r.0.store.rms == s.store.rms
    ensures CUM_KEY in cum.meta.finalizers ==> SameButStatus(s.store.cums, r.0.store.cums, name)
  {
    if CUM_KEY !in cum.meta.finalizers then
      WriteCum(s, f, name, cum.(meta := cum.meta.(finalizers := WithKey(cum.meta.finalizers, CUM_KEY, CUM_PREV_KEY))))
    else
      var (s1, ok) := ExporterExists(s, f, look.deployment);
      if !ok then (s1, Fail) else CumProbes(s1, f, name, cum, look)
  }

  /** ClusterUrlMonitorReconciler.Reconcile. */
  function ReconcileCum(store: Store, f: Oracle, name: Name, look: CumLook): (Sim, Res) {
    var s := Sim(store, [FetchMonitor]);
    if !f(0).NoFault? then (s, Fail)
    else if name !in store.cums then (s, Halt)
    else
      var (s1, res) := CumAbsent(s, f, name, store.cums[name]);
      if !res.Continue? then (s1, res) else CumSteps(s1, f, name, store.cums[name], look)
  }
}
