/** RouteMonitor convergence: reconciled again and again with nothing else
    changing, a monitor reaches a fixed point after one write per unmet goal. */
module MonitorConvergence {
  import opened Base
  import opened Slo
  import opened Finalizers
  import opened KubeStore
  import opened MonitorApi
  import opened Monitors
  import opened MonitorSteps

  /** What the resource has to say once its Route gives `url`. */
  function RuleReference(name: Name, rm: RouteMonitor, url: string): Name {
    if WantedRule(name, rm.spec.skipRule, url, rm.spec.slo).Some? then name else NO_NAME
  }

  predicate ErrorSettled(rm: RouteMonitor, url: string) {
    rm.spec.skipRule || (rm.status.errorStatus != "" <==> SloError(ParsedSlo(url, rm.spec.slo)).Some?)
  }

  function One(met: bool): nat { if met then 0 else 1 }

  /** The number of unmet goals: finalizer, URL, ServiceMonitor reference, error status, rule reference. */
  function Unmet(name: Name, rm: RouteMonitor, url: string): nat {
    One(RM_KEY in rm.meta.finalizers)
    + One(rm.status.routeURL == url)
    + One(rm.status.serviceMonitorRef == name)
    + One(ErrorSettled(rm, url))
    + One(rm.status.prometheusRuleRef == RuleReference(name, rm, url))
  }

  /** The lookups work, and give this URL. */
  predicate Resolves(look: RmLook, spec: RouteMonitorSpec, url: string) {
    LookedUpUrl(look, spec) == Some(url) && look.clusterId.Some? && look.deployment.Some?
  }

  /** The monitor is alive, its references are its own, and its rule exists only if referenced. */
  predicate Own(s: Store, name: Name) {
    name != NO_NAME && name in s.rms && s.rms[name].meta.deleted.None?
    && s.rms[name].status.serviceMonitorRef in {NO_NAME, name}
    && s.rms[name].status.prometheusRuleRef in {NO_NAME, name}
    && (Dep(PrometheusRule, name) in s.deps ==> s.rms[name].status.prometheusRuleRef == name)
  }

  /** Everything deployed for the monitor equals its template, and the rule exists exactly when it is wanted. */
  predicate Settled(deps: Deps, name: Name, rm: RouteMonitor, url: string, look: RmLook)
    requires Resolves(look, rm.spec, url)
  {
    var rule := Dep(PrometheusRule, name);
    var wanted := WantedRule(name, rm.spec.skipRule, url, rm.spec.slo);
    && ExporterUp(deps) && deps[DEPLOYMENT] == look.deployment.value
    && RmServiceMonitor(rm.spec, name) in deps
    && deps[RmServiceMonitor(rm.spec, name)] == RmProbing(rm.spec, url, look.clusterId.value)
    && (rule in deps <==> wanted.Some?) && (rule in deps ==> deps[rule] == wanted.value)
  }

  // ----- fault-free steps -----

  lemma CreateOrUpdateSucceeds(s: Sim, f: Oracle, dep: Dep, t: Template)
    requires FaultFree(f)
    ensures CreateOrUpdate(s, f, dep, t).1
    ensures CreateOrUpdate(s, f, dep, t).0.store == s.store.(deps := s.store.deps[dep := t])
  {
    assert f(|s.log|).NoFault? && f(|s.log| + 1).NoFault?;
    if dep in s.store.deps && s.store.deps[dep] == t { assert s.store.deps[dep := t] == s.store.deps; }
  }

  lemma CreateIfMissingSucceeds(s: Sim, f: Oracle, dep: Dep, t: Template)
    requires FaultFree(f)
    ensures CreateIfMissing(s, f, dep, t).1
    ensures dep in s.store.deps ==> CreateIfMissing(s, f, dep, t).0.store == s.store
  {
    assert f(|s.log|).NoFault? && f(|s.log| + 1).NoFault?;
  }

  ghost predicate SameOutsideExporter(a: Deps, b: Deps) {
    forall d :: !IsExporter(d) ==> (d in a <==> d in b) && (d in a ==> a[d] == b[d])
  }

  lemma ExporterSucceeds(s: Sim, f: Oracle, t: Template)
    requires FaultFree(f)
    ensures var (r, ok) := ExporterExists(s, f, Some(t));
      ok && r.store == s.store.(deps := r.store.deps) && SameOutsideExporter(s.store.deps, r.store.deps)
      && ExporterUp(r.store.deps) && r.store.deps[DEPLOYMENT] == t
      && (ExporterUp(s.store.deps) && s.store.deps[DEPLOYMENT] == t ==> r.store == s.store)
  {
    CreateIfMissingSucceeds(s, f, CONFIG_MAP, ConfigMapData);
    var s1 := CreateIfMissing(s, f, CONFIG_MAP, ConfigMapData).0;
    CreateOrUpdateSucceeds(s1, f, DEPLOYMENT, t);
    var s2 := CreateOrUpdate(s1, f, DEPLOYMENT, t).0;
    CreateIfMissingSucceeds(s2, f, SERVICE, ServiceSpec);
    if ExporterUp(s.store.deps) && s.store.deps[DEPLOYMENT] == t {
      assert s.store.deps[DEPLOYMENT := t] == s.store.deps;
    }
  }

  lemma StatusWritten(s: Sim, f: Oracle, name: Name, status: Status)
    requires FaultFree(f) && name in s.store.rms
    ensures var (r, res) := WriteRmStatus(s, f, name, status);
      res == Halt && r.store == s.store.(rms := s.store.rms[name := s.store.rms[name].(status := status)])
  {
    assert f(|s.log|).NoFault?;
  }

  lemma ServiceMonitorStep(s: Sim, f: Oracle, name: Name, rm: RouteMonitor, look: RmLook)
    requires FaultFree(f) && Own(s.store, name) && s.store.rms[name] == rm
    requires rm.status.routeURL != "" && look.clusterId.Some?
    ensures var (r, res) := RmServiceMonitorExists(s, f, name, rm, look);
      r.store.deps == s.store.deps[RmServiceMonitor(rm.spec, name) := RmProbing(rm.spec, rm.status.routeURL, look.clusterId.value)]
      && r.store.cums == s.store.cums
      && (if rm.status.serviceMonitorRef == name then res == Continue && r.store.rms == s.store.rms
          else res == Halt && r.store.rms == s.store.rms[name := rm.(status := rm.status.(serviceMonitorRef := name))])
  {
    var dep, t := RmServiceMonitor(rm.spec, name), RmProbing(rm.spec, rm.status.routeURL, look.clusterId.value);
    CreateOrUpdateSucceeds(s, f, dep, t);
    var s1 := CreateOrUpdate(s, f, dep, t).0;
    StatusWritten(s1, f, name, rm.status.(serviceMonitorRef := name));
  }

  /** What the rule step leaves of a status. */
  function RuleStatus(name: Name, rm: RouteMonitor): Status {
    var url := rm.status.routeURL;
    var err := SloError(ParsedSlo(url, rm.spec.slo));
    if !ErrorSettled(rm, url) then rm.status.(errorStatus := if err.Some? then err.value else "")
    else rm.status.(prometheusRuleRef := RuleReference(name, rm, url))
  }

  function RuleDeps(deps: Deps, name: Name, rm: RouteMonitor): Deps {
    var wanted := WantedRule(name, rm.spec.skipRule, rm.status.routeURL, rm.spec.slo);
    if !ErrorSettled(rm, rm.status.routeURL) then deps
    else if wanted.Some? then deps[Dep(PrometheusRule, name) := wanted.value]
    else deps - {Dep(PrometheusRule, name)}
  }

  lemma ErrorsSpeak(p: Result<string, string>, url: string, slo: string)
    requires p == ParsedSlo(url, slo)
    ensures p.Err? ==> p.error != ""
  {
    assert |ERR_NO_HOST| > 0 && |ERR_INVALID_SLO| > 0;
  }

  lemma DropStep(s: Sim, f: Oracle, name: Name, rm: RouteMonitor)
    requires FaultFree(f) && Own(s.store, name) && s.store.rms[name] == rm
    ensures var (r, next) := DropRule(s, f, rm.status);
      next == WriteStatus(rm.status.(prometheusRuleRef := NO_NAME))
      && r.store == s.store.(deps := s.store.deps - {Dep(PrometheusRule, name)})
  {
    DeleteSucceeds(s, f, PrometheusRule, rm.status.prometheusRuleRef);
    if rm.status.prometheusRuleRef == NO_NAME {
      assert s.store.deps - {Dep(PrometheusRule, name)} == s.store.deps;
    }
  }

  lemma RuleStage(s: Sim, f: Oracle, name: Name, rm: RouteMonitor)
    requires FaultFree(f) && Own(s.store, name) && s.store.rms[name] == rm
    ensures var (r, res) := RmRuleExists(s, f, name, rm);
      res != Fail && r.store == Store(s.store.rms[name := rm.(status := RuleStatus(name, rm))], s.store.cums, RuleDeps(s.store.deps, name, rm))
  {
    var url := rm.status.routeURL;
    var p := ParsedSlo(url, rm.spec.slo);
    ErrorsSpeak(p, url, rm.spec.slo);
    DropStep(s, f, name, rm);
    var d := DropRule(s, f, rm.status).0;
    StatusWritten(d, f, name, rm.status.(prometheusRuleRef := NO_NAME));
    if !rm.spec.skipRule {
      if NewErrorStatus(rm.status.errorStatus, SloError(p)).Some? {
        StatusWritten(s, f, name, RuleStatus(name, rm));
      } else if p.Ok? && p.value != "" {
        WantedStage(s, f, name, rm, p.value);
      }
    }
  }

  lemma WantedStage(s: Sim, f: Oracle, name: Name, rm: RouteMonitor, percent: string)
    requires FaultFree(f) && Own(s.store, name) && s.store.rms[name] == rm && !rm.spec.skipRule
    requires ParsedSlo(rm.status.routeURL, rm.spec.slo) == Ok(percent) && percent != "" && rm.status.errorStatus == ""
    ensures var (r, res) := RmRuleExists(s, f, name, rm);
      res != Fail && r.store == Store(s.store.rms[name := rm.(status := RuleStatus(name, rm))], s.store.cums, RuleDeps(s.store.deps, name, rm))
  {
    var dep, t := Dep(PrometheusRule, name), Alerting(rm.status.routeURL, percent, name);
    CreateOrUpdateSucceeds(s, f, dep, t);
    var s1 := CreateOrUpdate(s, f, dep, t).0;
    StatusWritten(s1, f, name, rm.status.(prometheusRuleRef := name));
    if rm.status.prometheusRuleRef == name { assert s.store.rms[name := rm] == s.store.rms; }
  }

  // ----- one reconcile -----

  /** The resource after one reconcile: the first unmet goal is met. */
  function Improved(name: Name, rm: RouteMonitor, url: string): RouteMonitor {
    if RM_KEY !in rm.meta.finalizers then rm.(meta := rm.meta.(finalizers := WithKey(rm.meta.finalizers, RM_KEY, RM_PREV_KEY)))
    else if rm.status.routeURL != url then rm.(status := rm.status.(routeURL := url))
    else if rm.status.serviceMonitorRef != name then rm.(status := rm.status.(serviceMonitorRef := name))
    else rm.(status := RuleStatus(name, rm))
  }

  lemma ImprovedByOne(name: Name, rm: RouteMonitor, url: string)
    ensures Unmet(name, Improved(name, rm, url), url) == if Unmet(name, rm, url) == 0 then 0 else Unmet(name, rm, url) - 1
    ensures Unmet(name, rm, url) == 0 <==> Improved(name, rm, url) == rm
    ensures Improved(name, rm, url).spec == rm.spec
  {
    assert |RM_KEY| != |RM_PREV_KEY|;
    ErrorsSpeak(ParsedSlo(url, rm.spec.slo), url, rm.spec.slo);
  }

  /** One reconcile writes the improved resource and, with every goal met, deploys every template. */
  lemma ReconcileImproves(s: Store, f: Oracle, name: Name, look: RmLook, url: string)
    requires FaultFree(f) && Own(s, name) && Resolves(look, s.rms[name].spec, url)
    ensures var t := ReconcileRm(s, f, name, look).0.store;
      t == Store(s.rms[name := Improved(name, s.rms[name], url)], s.cums, t.deps) && Own(t, name)
      && (Unmet(name, s.rms[name], url) == 0 ==> Settled(t.deps, name, s.rms[name], url, look))
      && (Unmet(name, s.rms[name], url) == 0 && Settled(s.deps, name, s.rms[name], url, look) ==> t == s)
  {
    assert f(0).NoFault?;
    var sim, rm := Sim(s, [FetchMonitor]), s.rms[name];
    if RM_KEY !in rm.meta.finalizers {
      assert f(1).NoFault?;
    } else {
      StepsImprove(sim, f, name, rm, look, url);
    }
  }

  lemma StepsImprove(s: Sim, f: Oracle, name: Name, rm: RouteMonitor, look: RmLook, url: string)
    requires FaultFree(f) && Own(s.store, name) && s.store.rms[name] == rm && Resolves(look, rm.spec, url)
    requires RM_KEY in rm.meta.finalizers
    ensures var t := RmSteps(s, f, name, rm, look).0.store;
      t == Store(s.store.rms[name := Improved(name, rm, url)], s.store.cums, t.deps) && Own(t, name)
      && (Unmet(name, rm, url) == 0 ==> Settled(t.deps, name, rm, url, look))
      && (Unmet(name, rm, url) == 0 && Settled(s.store.deps, name, rm, url, look) ==> t == s.store)
  {
    ExporterSucceeds(s, f, look.deployment.value);
    var s1 := ExporterExists(s, f, look.deployment).0;
    if rm.status.routeURL != url {
      StatusWritten(s1, f, name, rm.status.(routeURL := url));
    } else {
      ProbesImprove(s1, f, name, rm, look);
    }
  }

  lemma ProbesImprove(s: Sim, f: Oracle, name: Name, rm: RouteMonitor, look: RmLook)
    requires FaultFree(f) && Own(s.store, name) && s.store.rms[name] == rm && Resolves(look, rm.spec, rm.status.routeURL)
    requires RM_KEY in rm.meta.finalizers && ExporterUp(s.store.deps) && s.store.deps[DEPLOYMENT] == look.deployment.value
    ensures var t := RmProbes(s, f, name, rm, look).0.store;
      t == Store(s.store.rms[name := Improved(name, rm, rm.status.routeURL)], s.store.cums, t.deps) && Own(t, name)
      && (Unmet(name, rm, rm.status.routeURL) == 0 ==> Settled(t.deps, name, rm, rm.status.routeURL, look))
      && (Unmet(name, rm, rm.status.routeURL) == 0 && Settled(s.store.deps, name, rm, rm.status.routeURL, look) ==> t == s.store)
  {
    ServiceMonitorStep(s, f, name, rm, look);
    var (s1, res) := RmServiceMonitorExists(s, f, name, rm, look);
    if res.Continue? {
      RuleStage(s1, f, name, rm);
      ImprovedByOne(name, rm, rm.status.routeURL);
      if Unmet(name, rm, rm.status.routeURL) == 0 { MetIsSettled(s.store, name, rm, look); }
    }
  }

  /** With every goal met, what the two steps deploy settles the monitor, and settled it stays as it is. */
  lemma MetIsSettled(s: Store, name: Name, rm: RouteMonitor, look: RmLook)
    requires Own(s, name) && s.rms[name] == rm && Resolves(look, rm.spec, rm.status.routeURL)
    requires ExporterUp(s.deps) && s.deps[DEPLOYMENT] == look.deployment.value && Unmet(name, rm, rm.status.routeURL) == 0
    ensures var probed := s.deps[RmServiceMonitor(rm.spec, name) := RmProbing(rm.spec, rm.status.routeURL, look.clusterId.value)];
      var deps := RuleDeps(probed, name, rm);
      Settled(deps, name, rm, rm.status.routeURL, look)
      && (Settled(s.deps, name, rm, rm.status.routeURL, look) ==> deps == s.deps && s.rms[name := rm] == s.rms)
  {
    var probed := s.deps[RmServiceMonitor(rm.spec, name) := RmProbing(rm.spec, rm.status.routeURL, look.clusterId.value)];
    if Settled(s.deps, name, rm, rm.status.routeURL, look) {
      assert probed == s.deps;
      assert RuleDeps(probed, name, rm) == s.deps;
    }
  }

  // ----- any number of reconciles -----

  function Reconciled(s: Store, fs: seq<Oracle>, name: Name, look: RmLook): Store {
    if fs == [] then s else ReconcileRm(Reconciled(s, fs[..|fs| - 1], name, look), fs[|fs| - 1], name, look).0.store
  }

  ghost predicate AllFaultFree(fs: seq<Oracle>) { forall i :: 0 <= i < |fs| ==> FaultFree(fs[i]) }

  /** Convergence with a measure. With spec, Route and lookups fixed and no API errors,
      every reconcile that still changes the resource meets exactly one more of the five
      goals; from the sixth on, whatever was deployed, the resource meets them all,
      everything deployed equals its template and the rule exists exactly when it is
      wanted; and reconciling again changes nothing at all. */
  lemma {:induction false} RouteMonitorConverges(s: Store, fs: seq<Oracle>, name: Name, look: RmLook, url: string)
    requires Own(s, name) && Resolves(look, s.rms[name].spec, url) && AllFaultFree(fs)
    ensures var t := Reconciled(s, fs, name, look);
      Own(t, name) && t.rms[name].spec == s.rms[name].spec
      && Unmet(name, t.rms[name], url) == (if |fs| < Unmet(name, s.rms[name], url) then Unmet(name, s.rms[name], url) - |fs| else 0)
      && (|fs| > Unmet(name, s.rms[name], url) ==> Settled(t.deps, name, t.rms[name], url, look))
      && (|fs| > Unmet(name, s.rms[name], url) + 1 ==> t == Reconciled(s, fs[..|fs| - 1], name, look))
    ensures Unmet(name, s.rms[name], url) + 1 <= 6
  {
    if fs != [] {
      var before := fs[..|fs| - 1];
      RouteMonitorConverges(s, before, name, look, url);
      var b := Reconciled(s, before, name, look);
      ReconcileImproves(b, fs[|fs| - 1], name, look, url);
      ImprovedByOne(name, b.rms[name], url);
    }
  }

  /** A foreign ServiceMonitor reference is why references must be the monitor's own:
      every reconcile then fails, and the resource never changes again. */
  lemma ForeignReferenceBlocks(s: Store, f: Oracle, name: Name, look: RmLook, url: string)
    requires name in s.rms && s.rms[name].meta.deleted.None? && Resolves(look, s.rms[name].spec, url)
    requires RM_KEY in s.rms[name].meta.finalizers && s.rms[name].status.routeURL == url
    requires s.rms[name].status.serviceMonitorRef !in {NO_NAME, name} && name != NO_NAME
    ensures ReconcileRm(s, f, name, look).1 == Fail && ReconcileRm(s, f, name, look).0.store.rms == s.rms
  {
    var sim, rm := Sim(s, [FetchMonitor]), s.rms[name];
    var s1 := ExporterExists(sim, f, look.deployment).0;
    var res := RmServiceMonitorExists(s1, f, name, rm, look).1;
    assert res == Fail;
  }

  /** The rule step cannot fail without faults, whatever the status references. */
  lemma RuleNeverFails(s: Sim, f: Oracle, name: Name, rm: RouteMonitor)
    requires FaultFree(f) && name in s.store.rms
    ensures RmRuleExists(s, f, name, rm).1 != Fail
  {
    DeleteSucceeds(s, f, PrometheusRule, rm.status.prometheusRuleRef);
    var d := DropRule(s, f, rm.status).0;
    StatusWritten(d, f, name, rm.status.(prometheusRuleRef := NO_NAME));
    if !rm.spec.skipRule { RuleStepNeverFails(s, f, name, rm); }
  }

  lemma RuleStepNeverFails(s: Sim, f: Oracle, name: Name, rm: RouteMonitor)
    requires FaultFree(f) && name in s.store.rms && !rm.spec.skipRule
    ensures RmRuleExists(s, f, name, rm).1 != Fail
  {
    var p := ParsedSlo(rm.status.routeURL, rm.spec.slo);
    var errorStatus := NewErrorStatus(rm.status.errorStatus, SloError(p));
    DeleteSucceeds(s, f, PrometheusRule, rm.status.prometheusRuleRef);
    if errorStatus.Some? {
      StatusWritten(s, f, name, rm.status.(errorStatus := errorStatus.value));
    } else if p.Err? || p.value == "" {
      StatusWritten(DropRule(s, f, rm.status).0, f, name, rm.status.(prometheusRuleRef := NO_NAME));
    } else {
      var dep, t := Dep(PrometheusRule, name), Alerting(rm.status.routeURL, p.value, name);
      CreateOrUpdateSucceeds(s, f, dep, t);
      StatusWritten(CreateOrUpdate(s, f, dep, t).0, f, name, rm.status.(prometheusRuleRef := name));
    }
  }

  /** Without faults a reconcile past the URL goal fails exactly when the ServiceMonitor reference is foreign. */
  lemma FailsIffReferenceForeign(s: Store, f: Oracle, name: Name, look: RmLook, url: string)
    requires FaultFree(f) && name in s.rms && s.rms[name].meta.deleted.None? && Resolves(look, s.rms[name].spec, url)
    requires RM_KEY in s.rms[name].meta.finalizers && s.rms[name].status.routeURL == url && name != NO_NAME
    ensures ReconcileRm(s, f, name, look).1 == Fail <==> s.rms[name].status.serviceMonitorRef !in {NO_NAME, name}
  {
    assert f(0).NoFault?;
    var sim, rm := Sim(s, [FetchMonitor]), s.rms[name];
    if rm.status.serviceMonitorRef !in {NO_NAME, name} {
      ForeignReferenceBlocks(s, f, name, look, url);
    } else {
      ExporterSucceeds(sim, f, look.deployment.value);
      OwnReferencePasses(ExporterExists(sim, f, look.deployment).0, f, name, rm, look);
    }
  }

  lemma OwnReferencePasses(s: Sim, f: Oracle, name: Name, rm: RouteMonitor, look: RmLook)
    requires FaultFree(f) && name in s.store.rms && rm.status.routeURL != "" && look.clusterId.Some?
    requires rm.status.serviceMonitorRef in {NO_NAME, name} && name != NO_NAME
    ensures RmProbes(s, f, name, rm, look).1 != Fail
  {
    var dep, t := RmServiceMonitor(rm.spec, name), RmProbing(rm.spec, rm.status.routeURL, look.clusterId.value);
    CreateOrUpdateSucceeds(s, f, dep, t);
    StatusWritten(CreateOrUpdate(s, f, dep, t).0, f, name, rm.status.(serviceMonitorRef := name));
    var (s1, res) := RmServiceMonitorExists(s, f, name, rm, look);
    if res.Continue? { RuleNeverFails(s1, f, name, rm); }
  }

  /** A foreign rule reference is kept silently: the rule step deploys the monitor's own
      rule, reports success, and leaves the reference, and with it the foreign rule, as it is. */
  lemma ForeignRuleReferenceStays(s: Sim, f: Oracle, name: Name, rm: RouteMonitor)
    requires FaultFree(f) && rm.status.prometheusRuleRef !in {NO_NAME, name} && name != NO_NAME
    requires WantedRule(name, rm.spec.skipRule, rm.status.routeURL, rm.spec.slo).Some? && rm.status.errorStatus == ""
    ensures var (t, res) := RmRuleExists(s, f, name, rm);
      res == Continue && t.store.rms == s.store.rms
      && t.store.deps == s.store.deps[Dep(PrometheusRule, name) := WantedRule(name, rm.spec.skipRule, rm.status.routeURL, rm.spec.slo).value]
  {
    var p := ParsedSlo(rm.status.routeURL, rm.spec.slo);
    CreateOrUpdateSucceeds(s, f, Dep(PrometheusRule, name), Alerting(rm.status.routeURL, p.value, name));
  }
}
