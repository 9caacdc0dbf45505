/** ClusterUrlMonitor convergence: as for RouteMonitors, with the domain in place of
    the Route and without rules of their own for hosted control planes. */
module UrlMonitorConvergence {
  import opened Base
  import opened Slo
  import opened Finalizers
  import opened KubeStore
  import opened MonitorApi
  import opened Monitors
  import opened MonitorSteps
  import opened MonitorConvergence

  /** The rule step looks after a rule: it drops it, or brings it in line. */
  predicate HasRuleStep(cum: UrlMonitor) { cum.spec.skipRule || !cum.spec.hcp }

  function WantedUrlRule(name: Name, cum: UrlMonitor, url: string): Option<Template> {
    WantedRule(name, cum.spec.skipRule, url, cum.spec.slo)
  }

  predicate UrlErrorSettled(cum: UrlMonitor, url: string) {
    cum.spec.skipRule || cum.spec.hcp || (cum.status.errorStatus != "" <==> SloError(ParsedSlo(url, cum.spec.slo)).Some?)
  }

  predicate UrlRuleSettled(name: Name, cum: UrlMonitor, url: string) {
    HasRuleStep(cum) ==> cum.status.prometheusRuleRef == if WantedUrlRule(name, cum, url).Some? then name else NO_NAME
  }

  /** The number of unmet goals: finalizer, ServiceMonitor reference, error status, rule reference. */
  function UnmetUrl(name: Name, cum: UrlMonitor, url: string): nat {
    One(CUM_KEY in cum.meta.finalizers)
    + One(cum.status.serviceMonitorRef == name)
    + One(UrlErrorSettled(cum, url))
    + One(UrlRuleSettled(name, cum, url))
  }

  /** The lookups work, and give this URL. */
  predicate ResolvesUrl(look: CumLook, spec: UrlMonitorSpec, url: string) {
    look.domain.Some? && CumUrl(spec, look.domain.value) == url && look.clusterId.Some? && look.deployment.Some?
    && (spec.hcp ==> look.versionAvailable)
  }

  /** The monitor is alive, its references are its own, and its rule exists only if referenced. */
  predicate OwnUrl(s: Store, name: Name) {
    name != NO_NAME && name in s.cums && s.cums[name].meta.deleted.None?
    && s.cums[name].status.serviceMonitorRef in {NO_NAME, name}
    && s.cums[name].status.prometheusRuleRef in {NO_NAME, name}
    && (Dep(PrometheusRule, name) in s.deps ==> s.cums[name].status.prometheusRuleRef == name)
  }

  function UrlProbing(url: string, look: CumLook): Template
    requires look.clusterId.Some?
  {
    Probing(url, EXPORTER.namespace, "http_2xx", look.clusterId.value)
  }

  /** Everything deployed for the monitor equals its template, and the rule it looks after exists exactly when it is wanted. */
  predicate SettledUrl(deps: Deps, name: Name, cum: UrlMonitor, url: string, look: CumLook)
    requires ResolvesUrl(look, cum.spec, url)
  {
    var rule, wanted := Dep(PrometheusRule, name), WantedUrlRule(name, cum, url);
    && ExporterUp(deps) && deps[DEPLOYMENT] == look.deployment.value
    && CumServiceMonitor(cum.spec, name) in deps && deps[CumServiceMonitor(cum.spec, name)] == UrlProbing(url, look)
    && (HasRuleStep(cum) ==> (rule in deps <==> wanted.Some?) && (rule in deps ==> deps[rule] == wanted.value))
  }

  lemma UrlStatusWritten(s: Sim, f: Oracle, name: Name, status: Status)
    requires FaultFree(f) && name in s.store.cums
    ensures var (r, res) := WriteCumStatus(s, f, name, status);
      res == Halt && r.store == s.store.(cums := s.store.cums[name := s.store.cums[name].(status := status)])
  {
    assert f(|s.log|).NoFault?;
  }

  lemma UrlServiceMonitorStep(s: Sim, f: Oracle, name: Name, cum: UrlMonitor, look: CumLook, url: string)
    requires FaultFree(f) && OwnUrl(s.store, name) && s.store.cums[name] == cum && ResolvesUrl(look, cum.spec, url)
    ensures var (r, res) := CumServiceMonitorExists(s, f, name, cum, look);
      r.store.deps == s.store.deps[CumServiceMonitor(cum.spec, name) := UrlProbing(url, look)]
      && r.store.rms == s.store.rms
      && (if cum.status.serviceMonitorRef == name then res == Continue && r.store.cums == s.store.cums
          else res == Halt && r.store.cums == s.store.cums[name := cum.(status := cum.status.(serviceMonitorRef := name))])
  {
    var dep := CumServiceMonitor(cum.spec, name);
    CreateOrUpdateSucceeds(s, f, dep, UrlProbing(url, look));
    UrlStatusWritten(CreateOrUpdate(s, f, dep, UrlProbing(url, look)).0, f, name, cum.status.(serviceMonitorRef := name));
  }

  /** What the rule step leaves of a status. */
  function UrlRuleStatus(name: Name, cum: UrlMonitor, url: string): Status {
    var err := SloError(ParsedSlo(url, cum.spec.slo));
    if !HasRuleStep(cum) then cum.status
    else if !UrlErrorSettled(cum, url) then cum.status.(errorStatus := if err.Some? then err.value else "")
    else cum.status.(prometheusRuleRef := if WantedUrlRule(name, cum, url).Some? then name else NO_NAME)
  }

  function UrlRuleDeps(deps: Deps, name: Name, cum: UrlMonitor, url: string): Deps {
    var wanted := WantedUrlRule(name, cum, url);
    if !HasRuleStep(cum) || !UrlErrorSettled(cum, url) then deps
    else if wanted.Some? then deps[Dep(PrometheusRule, name) := wanted.value]
    else deps - {Dep(PrometheusRule, name)}
  }

  lemma UrlDropStep(s: Sim, f: Oracle, name: Name, cum: UrlMonitor)
    requires FaultFree(f) && OwnUrl(s.store, name) && s.store.cums[name] == cum
    ensures var (r, next) := DropRule(s, f, cum.status);
      next == WriteStatus(cum.status.(prometheusRuleRef := NO_NAME))
      && r.store == s.store.(deps := s.store.deps - {Dep(PrometheusRule, name)})
  {
    DeleteSucceeds(s, f, PrometheusRule, cum.status.prometheusRuleRef);
    if cum.status.prometheusRuleRef == NO_NAME {
      assert s.store.deps - {Dep(PrometheusRule, name)} == s.store.deps;
    }
  }

  lemma UrlRuleStage(s: Sim, f: Oracle, name: Name, cum: UrlMonitor, look: CumLook, url: string)
    requires FaultFree(f) && OwnUrl(s.store, name) && s.store.cums[name] == cum && ResolvesUrl(look, cum.spec, url)
    ensures var (r, res) := CumRuleExists(s, f, name, cum, look);
      res != Fail
      && r.store == Store(s.store.rms, s.store.cums[name := cum.(status := UrlRuleStatus(name, cum, url))], UrlRuleDeps(s.store.deps, name, cum, url))
  {
    var p := ParsedSlo(url, cum.spec.slo);
    UrlDropStep(s, f, name, cum);
    UrlStatusWritten(DropRule(s, f, cum.status).0, f, name, cum.status.(prometheusRuleRef := NO_NAME));
    if !cum.spec.skipRule {
      if cum.spec.hcp {
        assert s.store.cums[name := cum] == s.store.cums;
      } else if NewErrorStatus(cum.status.errorStatus, SloError(p)).Some? {
        ErrorsSpeak(p, url, cum.spec.slo);
        UrlStatusWritten(s, f, name, UrlRuleStatus(name, cum, url));
      } else if p.Ok? && p.value != "" {
        WantedUrlStage(s, f, name, cum, look, url, p.value);
      } else {
        ErrorsSpeak(p, url, cum.spec.slo);
      }
    }
  }

  lemma WantedUrlStage(s: Sim, f: Oracle, name: Name, cum: UrlMonitor, look: CumLook, url: string, percent: string)
    requires FaultFree(f) && OwnUrl(s.store, name) && s.store.cums[name] == cum && ResolvesUrl(look, cum.spec, url)
    requires !cum.spec.skipRule && !cum.spec.hcp
    requires ParsedSlo(url, cum.spec.slo) == Ok(percent) && percent != "" && cum.status.errorStatus == ""
    ensures var (r, res) := CumRuleExists(s, f, name, cum, look);
      res != Fail
      && r.store == Store(s.store.rms, s.store.cums[name := cum.(status := UrlRuleStatus(name, cum, url))], UrlRuleDeps(s.store.deps, name, cum, url))
  {
    var dep, t := Dep(PrometheusRule, name), Alerting(url, percent, name);
    CreateOrUpdateSucceeds(s, f, dep, t);
    UrlStatusWritten(CreateOrUpdate(s, f, dep, t).0, f, name, cum.status.(prometheusRuleRef := name));
    if cum.status.prometheusRuleRef == name { assert s.store.cums[name := cum] == s.store.cums; }
  }

  /** The resource after one reconcile: the first unmet goal is met. */
  function ImprovedUrl(name: Name, cum: UrlMonitor, url: string): UrlMonitor {
    if CUM_KEY !in cum.meta.finalizers then cum.(meta := cum.meta.(finalizers := WithKey(cum.meta.finalizers, CUM_KEY, CUM_PREV_KEY)))
    else if cum.status.serviceMonitorRef != name then cum.(status := cum.status.(serviceMonitorRef := name))
    else cum.(status := UrlRuleStatus(name, cum, url))
  }

  lemma ImprovedUrlByOne(name: Name, cum: UrlMonitor, url: string)
    ensures UnmetUrl(name, ImprovedUrl(name, cum, url), url)
      == if UnmetUrl(name, cum, url) == 0 then 0 else UnmetUrl(name, cum, url) - 1
    ensures UnmetUrl(name, cum, url) == 0 <==> ImprovedUrl(name, cum, url) == cum
    ensures ImprovedUrl(name, cum, url).spec == cum.spec
  {
    assert |CUM_KEY| != |CUM_PREV_KEY|;
    ErrorsSpeak(ParsedSlo(url, cum.spec.slo), url, cum.spec.slo);
  }

  /** What one reconcile without faults leaves. */
  predicate Improves(s: Store, t: Store, name: Name, look: CumLook, url: string)
    requires name in s.cums && ResolvesUrl(look, s.cums[name].spec, url)
  {
    var cum := s.cums[name];
    t == Store(s.rms, s.cums[name := ImprovedUrl(name, cum, url)], t.deps) && OwnUrl(t, name)
    && (UnmetUrl(name, cum, url) == 0 ==> SettledUrl(t.deps, name, cum, url, look))
    && (UnmetUrl(name, cum, url) == 0 && SettledUrl(s.deps, name, cum, url, look) ==> t == s)
  }

  lemma UrlReconcileImproves(s: Store, f: Oracle, name: Name, look: CumLook, url: string)
    requires FaultFree(f) && OwnUrl(s, name) && ResolvesUrl(look, s.cums[name].spec, url)
    ensures Improves(s, ReconcileCum(s, f, name, look).0.store, name, look, url)
  {
    assert f(0).NoFault?;
    var sim, cum := Sim(s, [FetchMonitor]), s.cums[name];
    if CUM_KEY !in cum.meta.finalizers { assert f(1).NoFault?; } else { UrlStepsImprove(sim, f, name, look, url); }
  }

  lemma UrlStepsImprove(s: Sim, f: Oracle, name: Name, look: CumLook, url: string)
    requires FaultFree(f) && OwnUrl(s.store, name) && ResolvesUrl(look, s.store.cums[name].spec, url)
    requires CUM_KEY in s.store.cums[name].meta.finalizers
    ensures Improves(s.store, CumSteps(s, f, name, s.store.cums[name], look).0.store, name, look, url)
  {
    ExporterSucceeds(s, f, look.deployment.value);
    var s1 := ExporterExists(s, f, look.deployment).0;
    UrlProbesImprove(s1, f, name, s.store.cums[name], look, url);
  }

  lemma UrlProbesImprove(s: Sim, f: Oracle, name: Name, cum: UrlMonitor, look: CumLook, url: string)
    requires FaultFree(f) && OwnUrl(s.store, name) && s.store.cums[name] == cum && ResolvesUrl(look, cum.spec, url)
    requires CUM_KEY in cum.meta.finalizers && ExporterUp(s.store.deps) && s.store.deps[DEPLOYMENT] == look.deployment.value
    ensures Improves(s.store, CumProbes(s, f, name, cum, look).0.store, name, look, url)
  {
    UrlServiceMonitorStep(s, f, name, cum, look, url);
    var (s1, res) := CumServiceMonitorExists(s, f, name, cum, look);
    if res.Continue? {
      UrlRuleStage(s1, f, name, cum, look, url);
      ImprovedUrlByOne(name, cum, url);
      if UnmetUrl(name, cum, url) == 0 { MetUrlIsSettled(s.store, name, cum, look, url); }
    }
  }

  /** With every goal met, what the two steps deploy settles the monitor, and settled it stays as it is. */
  lemma MetUrlIsSettled(s: Store, name: Name, cum: UrlMonitor, look: CumLook, url: string)
    requires OwnUrl(s, name) && s.cums[name] == cum && ResolvesUrl(look, cum.spec, url)
    requires ExporterUp(s.deps) && s.deps[DEPLOYMENT] == look.deployment.value && UnmetUrl(name, cum, url) == 0
    ensures var deps := UrlRuleDeps(s.deps[CumServiceMonitor(cum.spec, name) := UrlProbing(url, look)], name, cum, url);
      SettledUrl(deps, name, cum, url, look)
      && (SettledUrl(s.deps, name, cum, url, look) ==> deps == s.deps && s.cums[name := cum] == s.cums)
  {
    var probed := s.deps[CumServiceMonitor(cum.spec, name) := UrlProbing(url, look)];
    if SettledUrl(s.deps, name, cum, url, look) {
      assert probed == s.deps;
      assert UrlRuleDeps(probed, name, cum, url) == s.deps;
    }
  }

  function ReconciledUrl(s: Store, fs: seq<Oracle>, name: Name, look: CumLook): Store {
    if fs == [] then s else ReconcileCum(ReconciledUrl(s, fs[..|fs| - 1], name, look), fs[|fs| - 1], name, look).0.store
  }

  /** Convergence with a measure. With spec, domain and lookups fixed and no API errors,
      every reconcile that still changes the resource meets exactly one more of the four
      goals; from the fifth on they are all met, everything deployed equals its template
      and the rule of an infra monitor exists exactly when it is wanted; and reconciling
      again changes nothing at all. */
  lemma {:induction false} UrlMonitorConverges(s: Store, fs: seq<Oracle>, name: Name, look: CumLook, url: string)
    requires OwnUrl(s, name) && ResolvesUrl(look, s.cums[name].spec, url) && AllFaultFree(fs)
    ensures var t := ReconciledUrl(s, fs, name, look);
      OwnUrl(t, name) && t.cums[name].spec == s.cums[name].spec
      && UnmetUrl(name, t.cums[name], url) == (if |fs| < UnmetUrl(name, s.cums[name], url) then UnmetUrl(name, s.cums[name], url) - |fs| else 0)
      && (|fs| > UnmetUrl(name, s.cums[name], url) ==> SettledUrl(t.deps, name, t.cums[name], url, look))
      && (|fs| > UnmetUrl(name, s.cums[name], url) + 1 ==> t == ReconciledUrl(s, fs[..|fs| - 1], name, look))
    ensures UnmetUrl(name, s.cums[name], url) + 1 <= 5
  {
    if fs != [] {
      var before := fs[..|fs| - 1];
      UrlMonitorConverges(s, before, name, look, url);
      var b := ReconciledUrl(s, before, name, look);
      UrlReconcileImproves(b, fs[|fs| - 1], name, look, url);
      ImprovedUrlByOne(name, b.cums[name], url);
    }
  }
}
