/** Whole runs of both monitor controllers over any number of monitors sharing one
    blackbox exporter. */
module MonitorRuns {
  import opened Base
  import opened Finalizers
  import opened KubeStore
  import opened MonitorApi
  import opened Monitors
  import opened MonitorSteps

  /** Everything that can happen. Other actors create, edit and delete monitors and
      change deployed objects other than the exporter's. */
  datatype Event =
    | RmReconciled(name: Name, f: Oracle, rmLook: RmLook)
    | CumReconciled(name: Name, f: Oracle, cumLook: CumLook)
    | RmCreated(name: Name, meta: Meta, rmSpec: RouteMonitorSpec)
    | CumCreated(name: Name, meta: Meta, cumSpec: UrlMonitorSpec)
    | RmEdited(name: Name, meta: Meta, rmSpec: RouteMonitorSpec)
    | CumEdited(name: Name, meta: Meta, cumSpec: UrlMonitorSpec)
    | RmDeleteRequested(name: Name, at: int)
    | CumDeleteRequested(name: Name, at: int)
    | DepChanged(dep: Dep, template: Option<Template>)

  function Next(s: Store, e: Event): Store {
    match e
    case RmReconciled(name, f, look) => ReconcileRm(s, f, name, look).0.store
    case CumReconciled(name, f, look) => ReconcileCum(s, f, name, look).0.store
    case RmCreated(name, meta, spec) => s.(rms := Create(s.rms, name, Object(meta.(deleted := None), spec, EMPTY_STATUS), NoFault).0)
    case CumCreated(name, meta, spec) => s.(cums := Create(s.cums, name, Object(meta.(deleted := None), spec, EMPTY_STATUS), NoFault).0)
    case RmEdited(name, meta, spec) => s.(rms := Update(s.rms, name, Object(meta, spec, EMPTY_STATUS), NoFault).0)
    case CumEdited(name, meta, spec) => s.(cums := Update(s.cums, name, Object(meta, spec, EMPTY_STATUS), NoFault).0)
    case RmDeleteRequested(name, at) => s.(rms := Gone(s.rms, name, at))
    case CumDeleteRequested(name, at) => s.(cums := Gone(s.cums, name, at))
    case DepChanged(dep, template) =>
      if IsExporter(dep) then s
      else s.(deps := if template.None? then s.deps - {dep} else s.deps[dep := template.value])
  }

  const INITIAL := Store(map[], map[], map[])

  function Run(events: seq<Event>): Store {
    if events == [] then INITIAL else Next(Run(events[..|events| - 1]), events[|events| - 1])
  }

  /** A monitor that is not being deleted and has its ServiceMonitor. */
  predicate Probed<S>(m: Objects<S, Status>, name: Name) {
    name in m && m[name].meta.deleted.None? && m[name].status.serviceMonitorRef != NO_NAME
  }

  /** While some such monitor exists the exporter is complete. */
  ghost predicate ExporterServes(s: Store) {
    (exists n :: Probed(s.rms, n) || Probed(s.cums, n)) ==> ExporterUp(s.deps)
  }

  /** No monitor becomes probed between two stores. */
  ghost predicate NoneProbedNewly(a: Store, b: Store) {
    (forall n :: Probed(b.rms, n) ==> Probed(a.rms, n)) && (forall n :: Probed(b.cums, n) ==> Probed(a.cums, n))
  }

  lemma StillServes(a: Store, b: Store)
    requires ExporterServes(a) && NoneProbedNewly(a, b) && (ExporterUp(a.deps) ==> ExporterUp(b.deps))
    ensures ExporterServes(b)
  {
    if n :| Probed(b.rms, n) || Probed(b.cums, n) {
      assert Probed(a.rms, n) || Probed(a.cums, n);
    }
  }

  predicate SameExporter(a: Deps, b: Deps) {
    (CONFIG_MAP in a <==> CONFIG_MAP in b) && (DEPLOYMENT in a <==> DEPLOYMENT in b) && (SERVICE in a <==> SERVICE in b)
  }

  lemma RmRuleKeepsExporter(s: Sim, f: Oracle, name: Name, rm: RouteMonitor)
    ensures SameExporter(s.store.deps, RmRuleExists(s, f, name, rm).0.store.deps)
  {
  }

  lemma CumRuleKeepsExporter(s: Sim, f: Oracle, name: Name, cum: UrlMonitor, look: CumLook)
    ensures SameExporter(s.store.deps, CumRuleExists(s, f, name, cum, look).0.store.deps)
  {
  }

  lemma RmServiceMonitorKeepsExporter(s: Sim, f: Oracle, name: Name, rm: RouteMonitor, look: RmLook)
    ensures SameExporter(s.store.deps, RmServiceMonitorExists(s, f, name, rm, look).0.store.deps)
  {
  }

  lemma CumServiceMonitorKeepsExporter(s: Sim, f: Oracle, name: Name, cum: UrlMonitor, look: CumLook)
    ensures SameExporter(s.store.deps, CumServiceMonitorExists(s, f, name, cum, look).0.store.deps)
  {
  }

  /** The steps behind the finalizer leave the exporter complete, or change no monitor and remove nothing. */
  lemma RmStepsServe(s: Sim, f: Oracle, name: Name, rm: RouteMonitor, look: RmLook)
    ensures var t := RmSteps(s, f, name, rm, look).0.store;
      ExporterUp(t.deps) || (t.rms == s.store.rms && t.cums == s.store.cums && !ExporterUp(s.store.deps))
  {
    var (s1, ok) := ExporterExists(s, f, look.deployment);
    if ok {
      RmServiceMonitorKeepsExporter(s1, f, name, rm, look);
      RmRuleKeepsExporter(RmServiceMonitorExists(s1, f, name, rm, look).0, f, name, rm);
    }
  }

  lemma CumStepsServe(s: Sim, f: Oracle, name: Name, cum: UrlMonitor, look: CumLook)
    requires CUM_KEY in cum.meta.finalizers
    ensures var t := CumSteps(s, f, name, cum, look).0.store;
      ExporterUp(t.deps) || (t.rms == s.store.rms && t.cums == s.store.cums && !ExporterUp(s.store.deps))
  {
    var (s1, ok) := ExporterExists(s, f, look.deployment);
    if ok {
      CumServiceMonitorKeepsExporter(s1, f, name, cum, look);
      CumRuleKeepsExporter(CumServiceMonitorExists(s1, f, name, cum, look).0, f, name, cum, look);
    }
  }

  /** At most one monitor lost finalizers, or left with its last one. */
  predicate FinalizersOnly<S(==)>(a: Objects<S, Status>, b: Objects<S, Status>, name: Name) {
    b == a || b == a - {name}
    || (name in a && name in b && b == a[name := a[name].(meta := a[name].meta.(finalizers := b[name].meta.finalizers))])
  }

  lemma FinalizersWritten<S>(m: Objects<S, Status>, name: Name, fs: seq<string>, fault: Fault)
    requires name in m
    ensures FinalizersOnly(m, Update(m, name, m[name].(meta := m[name].meta.(finalizers := fs)), fault).0, name)
  {
  }

  lemma RmAbsentShape(s: Sim, f: Oracle, name: Name, rm: RouteMonitor)
    requires name in s.store.rms && s.store.rms[name] == rm
    ensures var t := RmAbsent(s, f, name, rm).0.store;
      t == Store(t.rms, s.store.cums, RmDependenciesAbsent(s, f, rm.status).0.store.deps) && FinalizersOnly(s.store.rms, t.rms, name)
  {
    var c := RmDependenciesAbsent(s, f, rm.status).0;
    FinalizersWritten(s.store.rms, name, WithoutKeys(rm.meta.finalizers, RM_KEY, RM_PREV_KEY), f(|c.log|));
  }

  lemma CumAbsentShape(s: Sim, f: Oracle, name: Name, cum: UrlMonitor)
    requires name in s.store.cums && s.store.cums[name] == cum && cum.meta.deleted.Some?
    ensures var t := CumAbsent(s, f, name, cum).0.store;
      t == Store(s.store.rms, t.cums, CumDependenciesAbsent(s, f, CumServiceMonitor(cum.spec, name).kind, cum.status).0.store.deps)
      && FinalizersOnly(s.store.cums, t.cums, name)
  {
    var c := CumDependenciesAbsent(s, f, CumServiceMonitor(cum.spec, name).kind, cum.status).0;
    FinalizersWritten(s.store.cums, name, WithoutKeys(cum.meta.finalizers, CUM_KEY, CUM_PREV_KEY), f(|c.log|));
  }

  /** A deletion takes the exporter only when no monitor needs it any more. */
  lemma RemovalServes(s: Sim, t: Store, kind: Kind, status: Status)
    requires ExporterServes(s.store) && RemovesOnly(s, t.deps, kind, status) && NoneProbedNewly(s.store, t)
    requires kind.ServiceMonitor? || kind.RhobsServiceMonitor?
    ensures ExporterServes(t)
  {
    if !LastOneLeaving(s.store.rms, s.store.cums) { StillServes(s.store, t); }
  }

  lemma RmAbsentServes(s: Sim, f: Oracle, name: Name, rm: RouteMonitor)
    requires ExporterServes(s.store) && name in s.store.rms && s.store.rms[name] == rm && rm.meta.deleted.Some?
    ensures ExporterServes(RmAbsent(s, f, name, rm).0.store)
  {
    RmDependencies(s, f, rm.status);
    RmAbsentShape(s, f, name, rm);
    RemovalServes(s, RmAbsent(s, f, name, rm).0.store, ServiceMonitor, rm.status);
  }

  lemma CumAbsentServes(s: Sim, f: Oracle, name: Name, cum: UrlMonitor)
    requires ExporterServes(s.store) && name in s.store.cums && s.store.cums[name] == cum && cum.meta.deleted.Some?
    ensures ExporterServes(CumAbsent(s, f, name, cum).0.store)
  {
    var kind := CumServiceMonitor(cum.spec, name).kind;
    CumDependencies(s, f, kind, cum.status);
    CumAbsentShape(s, f, name, cum);
    RemovalServes(s, CumAbsent(s, f, name, cum).0.store, kind, cum.status);
  }

  lemma RmReconcileServes(s: Store, f: Oracle, name: Name, look: RmLook)
    requires ExporterServes(s)
    ensures ExporterServes(ReconcileRm(s, f, name, look).0.store)
  {
    var sim := Sim(s, [FetchMonitor]);
    var t := ReconcileRm(s, f, name, look).0;
    if name in s.rms {
      var rm := s.rms[name];
      if rm.meta.deleted.Some? {
        RmAbsentServes(sim, f, name, rm);
      } else if RM_KEY !in rm.meta.finalizers {
        StillServes(s, t.store);
      } else {
        RmStepsServe(sim, f, name, rm, look);
      }
    }
  }

  lemma CumDeletingServes(s: Store, f: Oracle, name: Name, look: CumLook)
    requires ExporterServes(s) && name in s.cums && s.cums[name].meta.deleted.Some?
    ensures ExporterServes(ReconcileCum(s, f, name, look).0.store)
  {
    var sim, cum := Sim(s, [FetchMonitor]), s.cums[name];
    CumAbsentServes(sim, f, name, cum);
    var (t, res) := CumAbsent(sim, f, name, cum);
    if res.Continue? {
      CumDeletionIsSafe(s, f, name, look);
      CumAbsentIsSafe(sim, f, name, cum);
      CumRefusedLeaves(t, f, name, cum, look);
    }
  }

  /** What follows a deletion step that goes on is one refused write. */
  lemma CumRefusedLeaves(s: Sim, f: Oracle, name: Name, cum: UrlMonitor, look: CumLook)
    requires name in s.store.cums && s.store.cums[name] == cum && cum.meta.deleted.Some? && CUM_KEY !in cum.meta.finalizers
    ensures CumSteps(s, f, name, cum, look).0.store == s.store
  {
    RefusedKey(s.store.cums, name, cum, f(|s.log|));
  }

  lemma CumReconcileServes(s: Store, f: Oracle, name: Name, look: CumLook)
    requires ExporterServes(s)
    ensures ExporterServes(ReconcileCum(s, f, name, look).0.store)
  {
    if name in s.cums && f(0).NoFault? {
      var cum := s.cums[name];
      if cum.meta.deleted.Some? {
        CumDeletingServes(s, f, name, look);
      } else if CUM_KEY !in cum.meta.finalizers {
        StillServes(s, ReconcileCum(s, f, name, look).0.store);
      } else {
        CumStepsServe(Sim(s, [FetchMonitor]), f, name, cum, look);
      }
    }
  }

  lemma OthersServe(s: Store, e: Event)
    requires ExporterServes(s) && !e.RmReconciled? && !e.CumReconciled?
    ensures ExporterServes(Next(s, e))
  {
    StillServes(s, Next(s, e));
  }

  lemma NextServes(s: Store, e: Event)
    requires ExporterServes(s)
    ensures ExporterServes(Next(s, e))
  {
    if e.RmReconciled? {
      RmReconcileServes(s, e.f, e.name, e.rmLook);
    } else if e.CumReconciled? {
      CumReconcileServes(s, e.f, e.name, e.cumLook);
    } else {
      OthersServe(s, e);
    }
  }

  /** Shared exporter, over every run of both controllers with any faults: while some
      monitor that is not being deleted has its ServiceMonitor reference, the
      exporter's ConfigMap, Deployment and Service all exist. */
  lemma {:induction false} ExporterServesEveryMonitor(events: seq<Event>)
    ensures forall n :: Probed(Run(events).rms, n) || Probed(Run(events).cums, n) ==> ExporterUp(Run(events).deps)
  {
    RunServes(events);
  }

  lemma {:induction false} RunServes(events: seq<Event>)
    ensures ExporterServes(Run(events))
  {
    if events != [] {
      RunServes(events[..|events| - 1]);
      NextServes(Run(events[..|events| - 1]), events[|events| - 1]);
    }
  }

  // ----- the exporter goes with the last monitor -----

  predicate OnlyKeys(fs: seq<string>, key: string, previous: string) {
    forall k :: k in fs ==> k == key || k == previous
  }

  /** A run without faults in which no one else holds or edits finalizers, and
      deletion is only requested for monitors the operator has reconciled. */
  ghost predicate Orderly(s: Store, e: Event) {
    match e
    case RmReconciled(_, f, _) => FaultFree(f)
    case CumReconciled(_, f, _) => FaultFree(f)
    case RmCreated(_, meta, _) => OnlyKeys(meta.finalizers, RM_PREV_KEY, RM_PREV_KEY)
    case CumCreated(_, meta, _) => OnlyKeys(meta.finalizers, CUM_PREV_KEY, CUM_PREV_KEY)
    case RmEdited(name, meta, _) => name in s.rms ==> meta.finalizers == s.rms[name].meta.finalizers
    case CumEdited(name, meta, _) => name in s.cums ==> meta.finalizers == s.cums[name].meta.finalizers
    case RmDeleteRequested(name, _) => name in s.rms ==> RM_KEY in s.rms[name].meta.finalizers
    case CumDeleteRequested(name, _) => name in s.cums ==> CUM_KEY in s.cums[name].meta.finalizers
    case DepChanged(_, _) => true
  }

  ghost predicate OrderlyRun(events: seq<Event>) {
    events != [] ==> OrderlyRun(events[..|events| - 1]) && Orderly(Run(events[..|events| - 1]), events[|events| - 1])
  }

  predicate KeysKept<S>(m: Objects<S, Status>, key: string, previous: string) {
    forall n :: n in m ==>
      OnlyKeys(m[n].meta.finalizers, key, previous) && (m[n].meta.deleted.Some? ==> key in m[n].meta.finalizers)
  }

  /** With the last monitor the exporter is gone; every monitor on its way out still has the operator's key. */
  predicate ExporterLeaves(s: Store) {
    (s.rms == map[] && s.cums == map[] ==> ExporterDown(s.deps))
    && KeysKept(s.rms, RM_KEY, RM_PREV_KEY) && KeysKept(s.cums, CUM_KEY, CUM_PREV_KEY)
  }

  lemma KeysDiffer()
    ensures RM_KEY != RM_PREV_KEY && CUM_KEY != CUM_PREV_KEY
  {
    assert |RM_KEY| != |RM_PREV_KEY|;
    assert |CUM_KEY| != |CUM_PREV_KEY|;
  }

  lemma NoMembers(l: seq<string>)
    ensures l != [] ==> exists k :: k in l
  {
    if l != [] { assert l[0] in l; }
  }

  lemma KeysCleared(fs: seq<string>, key: string, previous: string)
    requires OnlyKeys(fs, key, previous)
    ensures WithoutKeys(fs, key, previous) == []
  {
    NoMembers(WithoutKeys(fs, key, previous));
  }

  /** Removing one entry of a map leaves one entry less. */
  lemma OneLess<S>(m: Objects<S, Status>, name: Name)
    requires name in m
    ensures |m - {name}| == |m| - 1
  {
    assert (m - {name}).Keys == m.Keys - {name};
  }

  lemma NoMonitors<S>(m: Objects<S, Status>)
    ensures |m| == 0 <==> m == map[]
  {
  }

  lemma OnlyOne<S>(m: Objects<S, Status>, name: Name)
    requires name in m && |m| == 1
    ensures m.Keys == {name}
  {
    OneLess(m, name);
    assert m.Keys - {name} == (m - {name}).Keys == {};
  }

  lemma RmAbsentLeaves(s: Sim, f: Oracle, name: Name, rm: RouteMonitor)
    requires ExporterLeaves(s.store) && FaultFree(f)
    requires name in s.store.rms && s.store.rms[name] == rm && rm.meta.deleted.Some?
    ensures ExporterLeaves(RmAbsent(s, f, name, rm).0.store)
  {
    RmDependenciesGo(s, f, rm.status);
    RmDependencies(s, f, rm.status);
    var c := RmDependenciesAbsent(s, f, rm.status).0;
    assert f(|c.log|).NoFault?;
    KeyDropped(c.store.rms, name, rm);
    KeysCleared(rm.meta.finalizers, RM_KEY, RM_PREV_KEY);
    OneLess(s.store.rms, name);
    NoMonitors(s.store.rms - {name});
    NoMonitors(s.store.cums);
    if |s.store.rms| == 1 { OnlyOne(s.store.rms, name); }
  }

  lemma CumDependenciesGo(s: Sim, f: Oracle, kind: Kind, status: Status)
    requires FaultFree(f) && (kind.ServiceMonitor? || kind.RhobsServiceMonitor?)
    ensures CumDependenciesAbsent(s, f, kind, status).1
  {
    DeleteSucceeds(s, f, kind, status.serviceMonitorRef);
    var a := DeleteReferenced(s, f, kind, status.serviceMonitorRef).0;
    ReleaseSucceeds(a, f);
    DeleteSucceeds(ReleaseExporter(a, f).0, f, PrometheusRule, status.prometheusRuleRef);
  }

  /** A fault-free deletion of a ClusterUrlMonitor without foreign finalizers removes it. */
  lemma CumAbsentRemoves(s: Sim, f: Oracle, name: Name, cum: UrlMonitor)
    requires FaultFree(f) && OnlyKeys(cum.meta.finalizers, CUM_KEY, CUM_PREV_KEY) && CUM_KEY in cum.meta.finalizers
    requires name in s.store.cums && s.store.cums[name] == cum && cum.meta.deleted.Some?
    ensures var c := CumDependenciesAbsent(s, f, CumServiceMonitor(cum.spec, name).kind, cum.status).0;
      var (t, res) := CumAbsent(s, f, name, cum);
      t.store == Store(s.store.rms, s.store.cums - {name}, c.store.deps) && res.Halt?
  {
    var kind := CumServiceMonitor(cum.spec, name).kind;
    CumDependenciesGo(s, f, kind, cum.status);
    var c := CumDependenciesAbsent(s, f, kind, cum.status).0;
    assert f(|c.log|).NoFault?;
    KeysCleared(cum.meta.finalizers, CUM_KEY, CUM_PREV_KEY);
  }

  lemma CumAbsentLeaves(s: Sim, f: Oracle, name: Name, cum: UrlMonitor)
    requires ExporterLeaves(s.store) && FaultFree(f)
    requires name in s.store.cums && s.store.cums[name] == cum && cum.meta.deleted.Some?
    ensures ExporterLeaves(CumAbsent(s, f, name, cum).0.store) && CumAbsent(s, f, name, cum).1.Halt?
  {
    var kind := CumServiceMonitor(cum.spec, name).kind;
    CumAbsentRemoves(s, f, name, cum);
    CumDependenciesGo(s, f, kind, cum.status);
    CumDependencies(s, f, kind, cum.status);
    OneLess(s.store.cums, name);
    NoMonitors(s.store.cums - {name});
    NoMonitors(s.store.rms);
    if |s.store.cums| == 1 { OnlyOne(s.store.cums, name); }
  }

  lemma KeyGiven(fs: seq<string>, key: string, previous: string)
    requires OnlyKeys(fs, key, previous) && key != previous
    ensures OnlyKeys(WithKey(fs, key, previous), key, previous) && key in WithKey(fs, key, previous)
  {
  }

  lemma StatusWrittenKeepsKeys<S>(a: Objects<S, Status>, b: Objects<S, Status>, name: Name, key: string, previous: string)
    requires KeysKept(a, key, previous) && SameButStatus(a, b, name)
    ensures KeysKept(b, key, previous) && a.Keys == b.Keys
  {
  }

  lemma RmReconcileLeaves(s: Store, name: Name, f: Oracle, look: RmLook)
    requires ExporterLeaves(s) && FaultFree(f)
    ensures ExporterLeaves(ReconcileRm(s, f, name, look).0.store)
  {
    assert f(0).NoFault?;
    var sim, t := Sim(s, [FetchMonitor]), ReconcileRm(s, f, name, look).0.store;
    if name in s.rms {
      var rm := s.rms[name];
      if rm.meta.deleted.Some? {
        RmAbsentLeaves(sim, f, name, rm);
      } else if RM_KEY !in rm.meta.finalizers {
        KeysDiffer();
        KeyGiven(rm.meta.finalizers, RM_KEY, RM_PREV_KEY);
        assert name in t.rms && t.cums == s.cums;
      } else {
        StatusWrittenKeepsKeys(s.rms, t.rms, name, RM_KEY, RM_PREV_KEY);
        assert name in t.rms && t.cums == s.cums;
      }
    }
  }

  lemma CumReconcileLeaves(s: Store, name: Name, f: Oracle, look: CumLook)
    requires ExporterLeaves(s) && FaultFree(f)
    ensures ExporterLeaves(ReconcileCum(s, f, name, look).0.store)
  {
    assert f(0).NoFault?;
    var sim, t := Sim(s, [FetchMonitor]), ReconcileCum(s, f, name, look).0.store;
    if name in s.cums {
      var cum := s.cums[name];
      if cum.meta.deleted.Some? {
        CumAbsentLeaves(sim, f, name, cum);
      } else if CUM_KEY !in cum.meta.finalizers {
        KeysDiffer();
        KeyGiven(cum.meta.finalizers, CUM_KEY, CUM_PREV_KEY);
        assert name in t.cums && t.rms == s.rms;
      } else {
        StatusWrittenKeepsKeys(s.cums, t.cums, name, CUM_KEY, CUM_PREV_KEY);
        assert name in t.cums && t.rms == s.rms;
      }
    }
  }

  lemma RmChangeLeaves(s: Store, e: Event)
    requires ExporterLeaves(s) && Orderly(s, e) && (e.RmCreated? || e.RmEdited? || e.RmDeleteRequested?)
    ensures ExporterLeaves(Next(s, e))
  {
    KeysDiffer();
    var t := Next(s, e);
    assert t.cums == s.cums && t.deps == s.deps;
    assert e.RmCreated? || e.name in s.rms ==> e.name in t.rms;
  }

  lemma CumChangeLeaves(s: Store, e: Event)
    requires ExporterLeaves(s) && Orderly(s, e) && (e.CumCreated? || e.CumEdited? || e.CumDeleteRequested?)
    ensures ExporterLeaves(Next(s, e))
  {
    KeysDiffer();
    var t := Next(s, e);
    assert t.rms == s.rms && t.deps == s.deps;
    assert e.CumCreated? || e.name in s.cums ==> e.name in t.cums;
  }

  lemma NextLeaves(s: Store, e: Event)
    requires ExporterLeaves(s) && Orderly(s, e)
    ensures ExporterLeaves(Next(s, e))
  {
    match e
    case RmReconciled(name, f, look) => RmReconcileLeaves(s, name, f, look);
    case CumReconciled(name, f, look) => CumReconcileLeaves(s, name, f, look);
    case RmCreated(_, _, _) => RmChangeLeaves(s, e);
    case RmEdited(_, _, _) => RmChangeLeaves(s, e);
    case RmDeleteRequested(_, _) => RmChangeLeaves(s, e);
    case CumCreated(_, _, _) => CumChangeLeaves(s, e);
    case CumEdited(_, _, _) => CumChangeLeaves(s, e);
    case CumDeleteRequested(_, _) => CumChangeLeaves(s, e);
    case DepChanged(_, _) =>
  }

  lemma {:induction false} RunLeaves(events: seq<Event>)
    requires OrderlyRun(events)
    ensures ExporterLeaves(Run(events))
  {
    if events != [] {
      RunLeaves(events[..|events| - 1]);
      NextLeaves(Run(events[..|events| - 1]), events[|events| - 1]);
    }
  }

  /** In every orderly run no exporter object is left once the last monitor is gone. */
  lemma LastMonitorTakesExporter(events: seq<Event>)
    requires OrderlyRun(events) && Run(events).rms == map[] && Run(events).cums == map[]
    ensures ExporterDown(Run(events).deps)
  {
    RunLeaves(events);
  }

  // ----- exactly when the exporter goes -----

  predicate NoneLeft(s: Store) { s.rms == map[] && s.cums == map[] }

  /** A reconcile, as opposed to a request or an edit of someone else. */
  predicate ByOperator(e: Event) { e.RmReconciled? || e.CumReconciled? }

  lemma RemovedOne<S>(a: Objects<S, Status>, b: Objects<S, Status>, name: Name)
    requires b == map[] && forall n :: n in a && n != name ==> n in b
    ensures a == map[] || a.Keys == {name}
    ensures |a| <= 1
  {
    assert a.Keys <= {name};
    if name in a { assert a.Keys == {name}; } else { assert a.Keys == {}; }
  }

  /** What it takes for a reconcile to remove its monitor: the deletion step got through. */
  predicate RmRemoved(s: Store, f: Oracle, name: Name, t: Store) {
    name in s.rms && s.rms[name].meta.deleted.Some? && RM_KEY in s.rms[name].meta.finalizers
    && var (c, ok) := RmDependenciesAbsent(Sim(s, [FetchMonitor]), f, s.rms[name].status); ok && t.deps == c.store.deps
  }

  predicate CumRemoved(s: Store, f: Oracle, name: Name, t: Store) {
    name in s.cums && s.cums[name].meta.deleted.Some? && CUM_KEY in s.cums[name].meta.finalizers
    && var (c, ok) := CumDependenciesAbsent(Sim(s, [FetchMonitor]), f, CumServiceMonitor(s.cums[name].spec, name).kind, s.cums[name].status);
    ok && t.deps == c.store.deps
  }

  lemma RmReconcileRemoves(s: Store, f: Oracle, name: Name, look: RmLook)
    ensures var t := ReconcileRm(s, f, name, look).0.store;
      t.cums == s.cums && (forall n :: n in s.rms && n != name ==> n in t.rms)
      && (name in s.rms && name !in t.rms ==> RmRemoved(s, f, name, t))
  {
    if name in s.rms && s.rms[name].meta.deleted.Some? { RmAbsentShape(Sim(s, [FetchMonitor]), f, name, s.rms[name]); }
  }

  lemma CumReconcileRemoves(s: Store, f: Oracle, name: Name, look: CumLook)
    ensures var t := ReconcileCum(s, f, name, look).0.store;
      t.rms == s.rms && (forall n :: n in s.cums && n != name ==> n in t.cums)
      && (name in s.cums && name !in t.cums ==> CumRemoved(s, f, name, t))
  {
    if name in s.cums && s.cums[name].meta.deleted.Some? {
      CumAbsentShape(Sim(s, [FetchMonitor]), f, name, s.cums[name]);
      CumDeletionIsSafe(s, f, name, look);
      CumAbsentIsSafe(Sim(s, [FetchMonitor]), f, name, s.cums[name]);
    }
  }

  lemma RmRemovalTakes(s: Store, f: Oracle, name: Name, t: Store)
    requires RmRemoved(s, f, name, t) && s.rms.Keys == {name} && s.cums == map[]
    ensures ExporterDown(t.deps)
  {
    RmDependencies(Sim(s, [FetchMonitor]), f, s.rms[name].status);
    assert |s.rms| == |s.rms.Keys| == 1;
  }

  lemma CumRemovalTakes(s: Store, f: Oracle, name: Name, t: Store)
    requires CumRemoved(s, f, name, t) && s.cums.Keys == {name} && s.rms == map[]
    ensures ExporterDown(t.deps)
  {
    CumDependencies(Sim(s, [FetchMonitor]), f, CumServiceMonitor(s.cums[name].spec, name).kind, s.cums[name].status);
    assert |s.cums| == |s.cums.Keys| == 1;
  }

  /** The monitor an event is about. */
  function Subject(e: Event): Name { if e.DepChanged? then e.dep.name else e.name }

  lemma OthersRemoveOne(s: Store, e: Event)
    requires !ByOperator(e)
    ensures var t := Next(s, e);
      (t.cums == s.cums && forall n :: n in s.rms && n != Subject(e) ==> n in t.rms)
      || (t.rms == s.rms && forall n :: n in s.cums && n != Subject(e) ==> n in t.cums)
    ensures SameExporter(s.deps, Next(s, e).deps)
  {
  }

  /** An event that takes the last monitor away, whatever the faults: it was the only
      one, and no exporter object is left exactly when a reconcile removed it, which
      found the operator's key on it, or there was none before. */
  lemma DepartureTakesExporter(s: Store, e: Event)
    requires !NoneLeft(s) && NoneLeft(Next(s, e))
    ensures |s.rms| + |s.cums| == 1
    ensures ExporterDown(Next(s, e).deps) <==> ByOperator(e) || ExporterDown(s.deps)
    ensures e.RmReconciled? ==> e.name in s.rms && RM_KEY in s.rms[e.name].meta.finalizers
    ensures e.CumReconciled? ==> e.name in s.cums && CUM_KEY in s.cums[e.name].meta.finalizers
  {
    match e
    case RmReconciled(name, f, look) =>
      RmReconcileRemoves(s, f, name, look);
      RemovedOne(s.rms, Next(s, e).rms, name);
      RmRemovalTakes(s, f, name, Next(s, e));
    case CumReconciled(name, f, look) =>
      CumReconcileRemoves(s, f, name, look);
      RemovedOne(s.cums, Next(s, e).cums, name);
      CumRemovalTakes(s, f, name, Next(s, e));
    case _ =>
      OthersRemoveOne(s, e);
      if Next(s, e).cums == s.cums { RemovedOne(s.rms, map[], Subject(e)); } else { RemovedOne(s.cums, map[], Subject(e)); }
  }

  lemma StaysGone(s: Store, e: Event)
    requires NoneLeft(s)
    ensures SameExporter(s.deps, Next(s, e).deps)
  {
    if !ByOperator(e) { OthersRemoveOne(s, e); }
  }

  /** The last event of a run that took the last monitor away. */
  function Departure(events: seq<Event>): (k: Option<nat>)
    ensures k.Some? ==> k.value < |events|
  {
    if events == [] then None
    else
      var before := events[..|events| - 1];
      if !NoneLeft(Run(before)) && NoneLeft(Run(events)) then Some(|before|) else Departure(before)
  }

  /** Exactly when the exporter goes, over every run with any faults that ends without
      monitors: no exporter object is left if there never was a monitor, and otherwise
      exactly when the last one left in a reconcile or there was none before it left. */
  lemma {:induction false} ExporterGoesExactly(events: seq<Event>)
    requires NoneLeft(Run(events))
    ensures match Departure(events)
      case None => ExporterDown(Run(events).deps)
      case Some(k) => ExporterDown(Run(events).deps) <==> ByOperator(events[k]) || ExporterDown(Run(events[..k]).deps)
  {
    if events != [] {
      var before, e := events[..|events| - 1], events[|events| - 1];
      if NoneLeft(Run(before)) {
        ExporterGoesExactly(before);
        StaysGone(Run(before), e);
        assert Departure(before).Some? ==> before[..Departure(before).value] == events[..Departure(before).value];
      } else {
        DepartureTakesExporter(Run(before), e);
      }
    }
  }

  /** The order matters: when a monitor that was never reconciled outlives the last
      reconciled one and is then deleted, the exporter stays behind. */
  lemma UnreconciledMonitorLeaksExporter(s: Store, a: Name, b: Name, f: Oracle, look: RmLook, at: int)
    requires a != b && s.rms.Keys == {a, b} && s.cums == map[] && ExporterUp(s.deps) && FaultFree(f)
    requires s.rms[a].meta.deleted.Some? && RM_KEY in s.rms[a].meta.finalizers && OnlyKeys(s.rms[a].meta.finalizers, RM_KEY, RM_PREV_KEY)
    requires s.rms[b].meta.finalizers == []
    ensures var t := Next(Next(s, RmReconciled(a, f, look)), RmDeleteRequested(b, at));
      t.rms == map[] && t.cums == map[] && ExporterUp(t.deps)
  {
    assert f(0).NoFault?;
    var sim, rm := Sim(s, [FetchMonitor]), s.rms[a];
    RmDependenciesGo(sim, f, rm.status);
    RmDependencies(sim, f, rm.status);
    var c := RmDependenciesAbsent(sim, f, rm.status).0;
    assert f(|c.log|).NoFault?;
    KeyDropped(c.store.rms, a, rm);
    KeysCleared(rm.meta.finalizers, RM_KEY, RM_PREV_KEY);
    assert |s.rms| == |s.rms.Keys| == 2;
    assert (s.rms - {a}).Keys == {b};
    assert (s.rms - {a} - {b}).Keys == {};
  }
}
