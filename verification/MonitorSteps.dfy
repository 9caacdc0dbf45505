/** What single reconciles of both monitor controllers guarantee: one write of the
    reconciled resource, made last, and safe deletion. */
module MonitorSteps {
  import opened Base
  import opened Finalizers
  import opened KubeStore
  import opened MonitorApi
  import opened Monitors

  /** The reconciled resource is written at most once, and that write is the last call. */
  predicate WritesOnceLast(log: seq<Call>, own: Call -> bool) {
    forall i :: 0 <= i < |log| && WritesMonitor(log[i]) ==> i == |log| - 1 && own(log[i])
  }

  predicate OwnRm(c: Call, name: Name) { c == PutRouteMonitor(name) || c == PutRouteMonitorStatus(name) }

  predicate OwnCum(c: Call, name: Name) { c == PutUrlMonitor(name) || c == PutUrlMonitorStatus(name) }

  predicate NoneWritten(log: seq<Call>) { forall i :: 0 <= i < |log| ==> !WritesMonitor(log[i]) }

  lemma QuietWritesNone(s: Sim, t: Sim)
    requires NoneWritten(s.log) && Quiet(s, t)
    ensures NoneWritten(t.log)
  {
  }

  lemma RmProbesWriteOnce(s: Sim, f: Oracle, name: Name, rm: RouteMonitor, look: RmLook)
    requires NoneWritten(s.log)
    ensures WritesOnceLast(RmProbes(s, f, name, rm, look).0.log, c => OwnRm(c, name))
  {
    var (s1, res) := RmServiceMonitorExists(s, f, name, rm, look);
    if res.Continue? {
      assert Quiet(s, s1);
      QuietWritesNone(s, s1);
      RmRuleWritesOnce(s1, f, name, rm);
    }
  }

  lemma RmStepsWriteOnce(s: Sim, f: Oracle, name: Name, rm: RouteMonitor, look: RmLook)
    requires NoneWritten(s.log)
    ensures WritesOnceLast(RmSteps(s, f, name, rm, look).0.log, c => OwnRm(c, name))
  {
    var s1 := ExporterExists(s, f, look.deployment).0;
    QuietWritesNone(s, s1);
    RmProbesWriteOnce(s1, f, name, rm, look);
  }

  lemma RmRuleWritesOnce(s: Sim, f: Oracle, name: Name, rm: RouteMonitor)
    requires NoneWritten(s.log)
    ensures WritesOnceLast(RmRuleExists(s, f, name, rm).0.log, c => OwnRm(c, name))
  {
  }

  lemma RmAbsentWritesOnce(s: Sim, f: Oracle, name: Name, rm: RouteMonitor)
    requires NoneWritten(s.log)
    ensures WritesOnceLast(RmAbsent(s, f, name, rm).0.log, c => OwnRm(c, name))
  {
  }

  /** Single write, RouteMonitor: on every path, whatever the faults, the reconciled
      resource is written at most once, as the last effect of the reconcile, and no
      other monitor is written. */
  lemma RmWritesOnceLast(store: Store, f: Oracle, name: Name, look: RmLook)
    ensures WritesOnceLast(ReconcileRm(store, f, name, look).0.log, c => OwnRm(c, name))
  {
    var s := Sim(store, [FetchMonitor]);
    if name in store.rms {
      RmAbsentWritesOnce(s, f, name, store.rms[name]);
      RmStepsWriteOnce(s, f, name, store.rms[name], look);
    }
  }

  lemma CumRuleWritesOnce(s: Sim, f: Oracle, name: Name, cum: UrlMonitor, look: CumLook)
    requires NoneWritten(s.log)
    ensures WritesOnceLast(CumRuleExists(s, f, name, cum, look).0.log, c => OwnCum(c, name))
  {
  }

  lemma CumProbesWriteOnce(s: Sim, f: Oracle, name: Name, cum: UrlMonitor, look: CumLook)
    requires NoneWritten(s.log)
    ensures WritesOnceLast(CumProbes(s, f, name, cum, look).0.log, c => OwnCum(c, name))
  {
    var (s1, res) := CumServiceMonitorExists(s, f, name, cum, look);
    if res.Continue? {
      assert Quiet(s, s1);
      QuietWritesNone(s, s1);
      CumRuleWritesOnce(s1, f, name, cum, look);
    }
  }

  lemma CumStepsWriteOnce(s: Sim, f: Oracle, name: Name, cum: UrlMonitor, look: CumLook)
    requires NoneWritten(s.log)
    ensures WritesOnceLast(CumSteps(s, f, name, cum, look).0.log, c => OwnCum(c, name))
  {
    var s1 := ExporterExists(s, f, look.deployment).0;
    QuietWritesNone(s, s1);
    CumProbesWriteOnce(s1, f, name, cum, look);
  }

  /** What the deletion step of a ClusterUrlMonitor does before its write. */
  lemma CumAbsentCalls(s: Sim, f: Oracle, name: Name, cum: UrlMonitor)
    ensures var (s1, res) := CumAbsent(s, f, name, cum);
      if res.Continue? then Clears(s, s1) && (cum.meta.deleted.Some? ==> CUM_KEY !in cum.meta.finalizers)
      else exists s2 :: Clears(s, s2) && (s1 == s2 || (s1.log == s2.log + [PutUrlMonitor(name)]))
  {
    var (s1, res) := CumAbsent(s, f, name, cum);
    if cum.meta.deleted.Some? {
      var c := CumDependenciesAbsent(s, f, CumServiceMonitor(cum.spec, name).kind, cum.status).0;
      assert Clears(s, c);
    } else {
      assert Clears(s, s);
    }
  }

  /** Single write, ClusterUrlMonitor. */
  lemma CumWritesOnceLast(store: Store, f: Oracle, name: Name, look: CumLook)
    ensures WritesOnceLast(ReconcileCum(store, f, name, look).0.log, c => OwnCum(c, name))
  {
    var s := Sim(store, [FetchMonitor]);
    if name in store.cums {
      CumAbsentCalls(s, f, name, store.cums[name]);
      var (s1, res) := CumAbsent(s, f, name, store.cums[name]);
      if res.Continue? { CumStepsWriteOnce(s1, f, name, store.cums[name], look); }
    }
  }

  /** The operator's key left a monitor with this step. */
  predicate Leaves<S>(before: Objects<S, Status>, after: Objects<S, Status>, name: Name, key: string) {
    name in before && key in before[name].meta.finalizers && (name in after ==> key !in after[name].meta.finalizers)
  }

  predicate ReferencedAbsent(deps: Deps, kind: Kind, reference: Name) { reference != NO_NAME ==> Dep(kind, reference) !in deps }

  /** Deletion safety, RouteMonitor: once deletion is requested a reconcile deploys
      nothing, and the finalizer leaves only in a step after which the referenced rule
      and the referenced core ServiceMonitor are gone. */
  lemma RmDeletionIsSafe(store: Store, f: Oracle, name: Name, look: RmLook)
    requires name in store.rms && store.rms[name].meta.deleted.Some?
    ensures var t := ReconcileRm(store, f, name, look).0;
      (forall i :: 0 <= i < |t.log| ==> !Deploys(t.log[i]))
      && (Leaves(store.rms, t.store.rms, name, RM_KEY) ==>
            ReferencedAbsent(t.store.deps, ServiceMonitor, store.rms[name].status.serviceMonitorRef)
            && ReferencedAbsent(t.store.deps, PrometheusRule, store.rms[name].status.prometheusRuleRef))
  {
    var s := Sim(store, [FetchMonitor]);
    RmDependencies(s, f, store.rms[name].status);
    assert Clears(s, RmDependenciesAbsent(s, f, store.rms[name].status).0);
  }

  /** The deletion step of a ClusterUrlMonitor deploys nothing and writes only to
      remove its key, after what the status names is gone. */
  lemma CumAbsentIsSafe(s: Sim, f: Oracle, name: Name, cum: UrlMonitor)
    requires name in s.store.cums && s.store.cums[name] == cum && cum.meta.deleted.Some?
    requires forall i :: 0 <= i < |s.log| ==> !Deploys(s.log[i])
    ensures var (t, res) := CumAbsent(s, f, name, cum);
      (forall i :: 0 <= i < |t.log| ==> !Deploys(t.log[i]))
      && (res.Continue? <==> CUM_KEY !in cum.meta.finalizers && !res.Fail?)
      && (CUM_KEY !in cum.meta.finalizers ==> t.store.cums == s.store.cums)
      && (Leaves(s.store.cums, t.store.cums, name, CUM_KEY) ==>
            ReferencedAbsent(t.store.deps, CumServiceMonitor(cum.spec, name).kind, cum.status.serviceMonitorRef)
            && ReferencedAbsent(t.store.deps, PrometheusRule, cum.status.prometheusRuleRef))
  {
    CumDependencies(s, f, CumServiceMonitor(cum.spec, name).kind, cum.status);
    assert Clears(s, CumDependenciesAbsent(s, f, CumServiceMonitor(cum.spec, name).kind, cum.status).0);
  }

  /** Deletion safety, ClusterUrlMonitor. The deletion step goes on when its key is
      absent; what follows is then always the finalizer write, which the API server
      refuses, so nothing is deployed there either and the resource does not change. */
  lemma CumDeletionIsSafe(store: Store, f: Oracle, name: Name, look: CumLook)
    requires name in store.cums && store.cums[name].meta.deleted.Some?
    ensures var (t, res) := ReconcileCum(store, f, name, look);
      (forall i :: 0 <= i < |t.log| ==> !Deploys(t.log[i]))
      && (Leaves(store.cums, t.store.cums, name, CUM_KEY) ==>
            ReferencedAbsent(t.store.deps, CumServiceMonitor(store.cums[name].spec, name).kind, store.cums[name].status.serviceMonitorRef)
            && ReferencedAbsent(t.store.deps, PrometheusRule, store.cums[name].status.prometheusRuleRef))
      && (CUM_KEY !in store.cums[name].meta.finalizers ==> res == Fail && t.store.cums == store.cums)
  {
    var s, cum := Sim(store, [FetchMonitor]), store.cums[name];
    CumAbsentIsSafe(s, f, name, cum);
    var (c, res) := CumAbsent(s, f, name, cum);
    if res.Continue? { RefusedKey(c.store.cums, name, cum, f(|c.log|)); }
  }

  /** A finalizer cannot be added to a monitor being deleted. */
  lemma RefusedKey(m: Objects<UrlMonitorSpec, Status>, name: Name, cum: UrlMonitor, fault: Fault)
    requires name in m && m[name] == cum && cum.meta.deleted.Some? && CUM_KEY !in cum.meta.finalizers
    ensures Update(m, name, cum.(meta := cum.meta.(finalizers := WithKey(cum.meta.finalizers, CUM_KEY, CUM_PREV_KEY))), fault) == (m, false)
  {
    assert |CUM_KEY| != |CUM_PREV_KEY|;
    assert CUM_KEY in WithKey(cum.meta.finalizers, CUM_KEY, CUM_PREV_KEY);
  }

  /** All calls work. */
  ghost predicate FaultFree(f: Oracle) { forall n: nat {:trigger f(n)} :: f(n).NoFault? }

  /** A fault-free deletion leaves no rule of the monitor's name exactly when the
      status names it or there is none: a rule whose reference was never written
      outlives its monitor. */
  lemma UnreferencedRuleOutlivesMonitor(store: Store, f: Oracle, name: Name, look: RmLook)
    requires name in store.rms && store.rms[name].meta.deleted.Some? && RM_KEY in store.rms[name].meta.finalizers
    requires FaultFree(f) && name != NO_NAME
    ensures var t := ReconcileRm(store, f, name, look).0;
      Leaves(store.rms, t.store.rms, name, RM_KEY)
      && (Dep(PrometheusRule, name) !in t.store.deps <==>
            store.rms[name].status.prometheusRuleRef == name || Dep(PrometheusRule, name) !in store.deps)
  {
    var s, rm := Sim(store, [FetchMonitor]), store.rms[name];
    assert f(0).NoFault?;
    RmDependenciesGo(s, f, rm.status);
    RmDependencies(s, f, rm.status);
    var c := RmDependenciesAbsent(s, f, rm.status).0;
    assert f(|c.log|).NoFault?;
    KeyDropped(c.store.rms, name, rm);
  }

  lemma KeyDropped(m: Objects<RouteMonitorSpec, Status>, name: Name, rm: RouteMonitor)
    requires name in m && m[name] == rm && rm.meta.deleted.Some?
    ensures var fs := WithoutKeys(rm.meta.finalizers, RM_KEY, RM_PREV_KEY);
      var (m1, ok) := Update(m, name, rm.(meta := rm.meta.(finalizers := fs)), NoFault);
      ok && (name in m1 ==> RM_KEY !in m1[name].meta.finalizers && RM_PREV_KEY !in m1[name].meta.finalizers) && (fs == [] ==> m1 == m - {name})
  {
  }

  lemma RmDependenciesGo(s: Sim, f: Oracle, status: Status)
    requires FaultFree(f)
    ensures RmDependenciesAbsent(s, f, status).1
  {
    ReleaseSucceeds(s, f);
    var a := ReleaseExporter(s, f).0;
    DeleteSucceeds(a, f, ServiceMonitor, status.serviceMonitorRef);
    var b := DeleteReferenced(a, f, ServiceMonitor, status.serviceMonitorRef).0;
    DeleteSucceeds(b, f, PrometheusRule, status.prometheusRuleRef);
  }

  lemma DeleteSucceeds(s: Sim, f: Oracle, kind: Kind, reference: Name)
    requires FaultFree(f)
    ensures DeleteReferenced(s, f, kind, reference).1
    ensures DeleteReferenced(s, f, kind, reference).0.store
      == if reference == NO_NAME then s.store else s.store.(deps := s.store.deps - {Dep(kind, reference)})
  {
    if reference != NO_NAME { DeleteIfFoundSucceeds(s, f, Dep(kind, reference)); }
  }

  lemma DeleteIfFoundSucceeds(s: Sim, f: Oracle, dep: Dep)
    requires FaultFree(f)
    ensures DeleteIfFound(s, f, dep).1 && DeleteIfFound(s, f, dep).0.store == s.store.(deps := s.store.deps - {dep})
  {
    assert f(|s.log|).NoFault? && f(|s.log| + 1).NoFault?;
    if dep !in s.store.deps { assert s.store.deps - {dep} == s.store.deps; }
  }

  lemma ReleaseSucceeds(s: Sim, f: Oracle)
    requires FaultFree(f)
    ensures ReleaseExporter(s, f).1
  {
    assert f(|s.log|).NoFault? && f(|s.log| + 1).NoFault?;
    var s1 := ShouldDeleteExporter(s, f).0;
    DeleteIfFoundSucceeds(s1, f, SERVICE);
    var s2 := DeleteIfFound(s1, f, SERVICE).0;
    DeleteIfFoundSucceeds(s2, f, DEPLOYMENT);
    DeleteIfFoundSucceeds(DeleteIfFound(s2, f, DEPLOYMENT).0, f, CONFIG_MAP);
  }

  /** Such a rule arises when the status write that follows the rule's creation fails. */
  lemma FailedStatusWriteLeavesRuleUnreferenced(s: Sim, f: Oracle, name: Name, rm: RouteMonitor)
    requires WantedRule(name, rm.spec.skipRule, rm.status.routeURL, rm.spec.slo).Some? && rm.status.errorStatus == ""
    requires rm.status.prometheusRuleRef == NO_NAME && name in s.store.rms && s.store.rms[name] == rm
    requires f(|s.log|).NoFault? && f(|s.log| + 1).NoFault? && f(|s.log| + 2).Lost? && Dep(PrometheusRule, name) !in s.store.deps
    ensures var (t, res) := RmRuleExists(s, f, name, rm);
      res == Fail && Dep(PrometheusRule, name) in t.store.deps && t.store.rms == s.store.rms
  {
  }

  /** The previous finalizer key is only cleaned up together with the present one: a
      monitor being deleted that holds it alone keeps it through every reconcile. */
  lemma PreviousKeyAloneStays(store: Store, f: Oracle, name: Name, look: RmLook)
    requires name in store.rms && store.rms[name].meta.deleted.Some?
    requires RM_KEY !in store.rms[name].meta.finalizers
    ensures ReconcileRm(store, f, name, look).0.store.rms == store.rms
  {
    var c := RmDependenciesAbsent(Sim(store, [FetchMonitor]), f, store.rms[name].status).0;
    assert c.store.rms == store.rms;
  }

  /** A fault-free deletion reconcile leaves none of the operator's keys exactly when the
      present key was there, or neither was. */
  lemma OperatorKeysGoExactly(store: Store, f: Oracle, name: Name, look: RmLook)
    requires name in store.rms && store.rms[name].meta.deleted.Some? && FaultFree(f)
    ensures var rms := ReconcileRm(store, f, name, look).0.store.rms;
      (name in rms ==> RM_KEY !in rms[name].meta.finalizers && RM_PREV_KEY !in rms[name].meta.finalizers)
      <==> RM_KEY in store.rms[name].meta.finalizers || RM_PREV_KEY !in store.rms[name].meta.finalizers
  {
    var s, rm := Sim(store, [FetchMonitor]), store.rms[name];
    assert f(0).NoFault?;
    if RM_KEY in rm.meta.finalizers {
      RmDependenciesGo(s, f, rm.status);
      var c := RmDependenciesAbsent(s, f, rm.status).0;
      assert f(|c.log|).NoFault?;
      KeyDropped(c.store.rms, name, rm);
    } else {
      PreviousKeyAloneStays(store, f, name, look);
    }
  }

  /** The deletion of a RouteMonitor never removes its monitoring.rhobs ServiceMonitor. */
  lemma RhobsServiceMonitorStays(store: Store, f: Oracle, name: Name, look: RmLook, dep: Dep)
    requires name in store.rms && store.rms[name].meta.deleted.Some? && dep.kind.RhobsServiceMonitor?
    ensures dep in store.deps <==> dep in ReconcileRm(store, f, name, look).0.store.deps
  {
    var s := Sim(store, [FetchMonitor]);
    RmDependencies(s, f, store.rms[name].status);
    var t := RmDependenciesAbsent(s, f, store.rms[name].status).0;
    assert dep in s.store.deps <==> dep in t.store.deps;
  }
}
