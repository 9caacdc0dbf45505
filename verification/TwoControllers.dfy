/** Runs that mix the hosted control plane controller with the monitor controllers
    on one store: what each leaves alone in the RouteMonitors both write, and the
    invariants of both over mixed runs. */
module TwoControllers {
  import opened Base
  import opened KubeStore
  import opened MonitorApi
  import opened HostedControlPlane
  import Synthetics
  import HealthCheck
  import Rhobs
  import HcpSafety
  import HcpSteps
  import M = Monitors
  import Runs = MonitorRuns

  type RouteMonitors = Objects<RouteMonitorSpec, Status>

  predicate SameBuilt(a: RouteMonitor, b: RouteMonitor) {
    a.spec == b.spec && a.meta.labels == b.meta.labels && a.meta.owners == b.meta.owners
  }

  /** What the hosted control plane controller builds for this control plane, with some port. */
  predicate BuiltFor(o: RouteMonitor, name: Name) {
    SameBuilt(o, BuiltRouteMonitor(name, o.spec.port))
  }

  /** The monitor controllers' part of a RouteMonitor: finalizers, status and a set deletion timestamp. */
  predicate SameOperated(a: RouteMonitor, b: RouteMonitor) {
    b.meta.finalizers == a.meta.finalizers && b.status == a.status
    && (a.meta.deleted.Some? ==> b.meta.deleted == a.meta.deleted)
  }

  /** What a step of the hosted control plane controller may do to the RouteMonitors. */
  ghost predicate HcpFrame(a: RouteMonitors, b: RouteMonitors, name: Name) {
    var key := MonitoringName(name);
    && (forall n :: n != key ==> (n in a <==> n in b) && (n in a ==> b[n] == a[n]))
    && (key in a && key in b ==> SameOperated(a[key], b[key]) && (SameBuilt(a[key], b[key]) || BuiltFor(b[key], name)))
    && (key !in a && key in b ==>
          b[key].meta.finalizers == [] && b[key].meta.deleted.None? && b[key].status == EMPTY_STATUS && BuiltFor(b[key], name))
    && (key in a && key !in b ==> a[key].meta.finalizers == [])
  }

  lemma CreateFrame(a: RouteMonitors, name: Name, port: int, fault: Fault)
    ensures HcpFrame(a, Create(a, MonitoringName(name), BuiltRouteMonitor(name, port), fault).0, name)
  {
  }

  lemma UpdateFrame(a: RouteMonitors, name: Name, port: int, fault: Fault)
    requires MonitoringName(name) in a
    ensures var built := BuiltRouteMonitor(name, port);
      var o := built.(meta := MetaForUpdate(built.meta, a[MonitoringName(name)].meta));
      HcpFrame(a, Update(a, MonitoringName(name), o, fault).0, name)
  {
  }

  /** The monitors' store after the RouteMonitor was deployed. */
  lemma DeployWrites(s: Sim, f: Rhobs.Oracle, name: Name, port: int)
    ensures var key, built := MonitoringName(name), BuiltRouteMonitor(name, port);
      var rms, t := s.w.mon.rms, DeployRouteMonitor(s, f, name, port).0.w.mon;
      var created := Create(rms, key, built, f(|s.log|).fault).0;
      t == s.w.mon.(rms := t.rms)
      && (t.rms == created
          || (key in rms && t.rms == Update(rms, key, built.(meta := MetaForUpdate(built.meta, rms[key].meta)), f(|s.log| + 2).fault).0))
  {
  }

  lemma DeployFrame(s: Sim, f: Rhobs.Oracle, name: Name, port: int)
    ensures var t := DeployRouteMonitor(s, f, name, port).0.w.mon;
      t == s.w.mon.(rms := t.rms) && HcpFrame(s.w.mon.rms, t.rms, name)
  {
    DeployWrites(s, f, name, port);
    CreateFrame(s.w.mon.rms, name, port, f(|s.log|).fault);
    if MonitoringName(name) in s.w.mon.rms { UpdateFrame(s.w.mon.rms, name, port, f(|s.log| + 2).fault); }
  }

  lemma DeploymentFrame(s: Sim, in_: Input, name: Name)
    ensures var t := DeployMonitoring(s, in_, name).0.w.mon;
      t == s.w.mon.(rms := t.rms) && HcpFrame(s.w.mon.rms, t.rms, name)
  {
    if !in_.cfg.skipInfra {
      var s1 := DeployRoute(s, in_.f, name).0;
      assert s1.w.mon == s.w.mon;
      if in_.port.Some? { DeployFrame(s1, in_.f, name, in_.port.value); }
    }
  }

  lemma GoneFrame(a: RouteMonitors, name: Name, now: int)
    ensures HcpFrame(a, Gone(a, MonitoringName(name), now), name)
  {
  }

  lemma RemovalWrites(s: Sim, f: Rhobs.Oracle, name: Name)
    ensures var t := DeleteMonitoring(s, f, name).0.w.mon;
      t == s.w.mon || t == s.w.mon.(rms := Gone(s.w.mon.rms, MonitoringName(name), s.w.now))
  {
  }

  lemma RemovalFrame(s: Sim, f: Rhobs.Oracle, name: Name)
    ensures var t := DeleteMonitoring(s, f, name).0.w.mon;
      t == s.w.mon.(rms := t.rms) && HcpFrame(s.w.mon.rms, t.rms, name)
  {
    RemovalWrites(s, f, name);
    GoneFrame(s.w.mon.rms, name, s.w.now);
  }

  /** What lies behind the gates writes monitors only by deploying or removing them. */
  lemma TlsGateWrites(s: Sim, in_: Input, name: Name)
    requires name in s.w.hcps
    ensures var t := TlsGate(s, in_, name).0.w.mon;
      t == s.w.mon || t == DeleteMonitoring(s, in_.f, name).0.w.mon || t == DeployMonitoring(s, in_, name).0.w.mon
  {
    DeployWritesMonitors(s, in_, name);
  }

  lemma GateWrites(s: Sim, in_: Input, name: Name)
    requires name in s.w.hcps
    ensures var t, s1 := Gate(s, in_, name).0.w, EnsureReady(s, in_, name).0;
      t.mon == s.w.mon || t == TlsGate(s1, in_, name).0.w
  {
  }

  lemma DeployWritesMonitors(s: Sim, in_: Input, name: Name)
    requires name in s.w.hcps
    ensures Deploy(s, in_, name).0.w.mon == DeployMonitoring(s, in_, name).0.w.mon
  {
  }

  lemma GateFrame(s: Sim, in_: Input, name: Name)
    requires name in s.w.hcps
    ensures var t := Gate(s, in_, name).0.w.mon;
      t == s.w.mon.(rms := t.rms) && HcpFrame(s.w.mon.rms, t.rms, name)
  {
    GateWrites(s, in_, name);
    var s1 := EnsureReady(s, in_, name).0;
    assert s1.w.mon == s.w.mon;
    TlsGateWrites(s1, in_, name);
    RemovalFrame(s1, in_.f, name);
    DeploymentFrame(s1, in_, name);
  }

  lemma FinishWrites(s: Sim, f: Rhobs.Oracle, name: Name, release: Option<Release>)
    requires name in s.w.hcps
    ensures FinishDeletion(s, f, name, release).0.w.mon == DeleteMonitoring(s, f, name).0.w.mon
  {
  }

  lemma AfterProbeFrame(s: Sim, f: Rhobs.Oracle, name: Name, elapsed: int, err: Option<Rhobs.Error>)
    requires name in s.w.hcps && s.w.hcps[name].meta.deleted.Some?
    ensures var t := AfterProbe(s, f, name, elapsed, err).0.w.mon;
      t == s.w.mon.(rms := t.rms) && HcpFrame(s.w.mon.rms, t.rms, name)
  {
    if err.None? {
      FinishFrame(s, f, name, None);
    } else if elapsed >= DELETION_TIMEOUT {
      var s1 := s.(w := s.w.(timeouts := s.w.timeouts + 1));
      FinishFrame(s1, f, name, Some(FailOpen(elapsed, s1.w.timeouts)));
    }
  }

  lemma FinishFrame(s: Sim, f: Rhobs.Oracle, name: Name, release: Option<Release>)
    requires name in s.w.hcps
    ensures var t := FinishDeletion(s, f, name, release).0.w.mon;
      t == s.w.mon.(rms := t.rms) && HcpFrame(s.w.mon.rms, t.rms, name)
  {
    FinishWrites(s, f, name, release);
    RemovalFrame(s, f, name);
  }

  lemma ProbeFirstFrame(s: Sim, in_: Input, name: Name)
    requires name in s.w.hcps && s.w.hcps[name].meta.deleted.Some?
    ensures var t := DeleteProbeFirst(s, in_, name).0.w.mon;
      t == s.w.mon.(rms := t.rms) && HcpFrame(s.w.mon.rms, t.rms, name)
  {
    var (r, err) := Synthetics.DeleteClusterProbe(Rhobs.Remote(s.w.probes, s.log), in_.f, s.w.hcps[name].spec.cid);
    AfterProbeFrame(Remoted(s, r), in_.f, name, s.w.now - s.w.hcps[name].meta.deleted.value, err);
  }

  lemma DeletingFrame(s: Sim, in_: Input, name: Name)
    requires name in s.w.hcps && s.w.hcps[name].meta.deleted.Some?
    ensures var t := ReconcileDeletion(s, in_, name).0.w.mon;
      t == s.w.mon.(rms := t.rms) && HcpFrame(s.w.mon.rms, t.rms, name)
  {
    ProbeFirstFrame(s, in_, name);
    FinishFrame(s, in_.f, name, Some(ApiUnset));
  }

  /** A live control plane's reconcile writes monitors only behind its gates. */
  lemma LiveWrites(w: World, in_: Input, name: Name)
    requires name in w.hcps && w.hcps[name].meta.deleted.None?
    ensures var t, s1 := Reconcile(w, in_, name).0.w.mon, EnsureFinalizer(Sim(w, [Rhobs.GetHcp]), in_.f, name).0;
      s1.w.mon == w.mon && name in s1.w.hcps && (t == w.mon || t == Gate(s1, in_, name).0.w.mon)
  {
  }

  /** Frame of the hosted control plane controller: one reconcile touches at most the
      RouteMonitor of its own control plane, and of an existing one neither the
      finalizers nor the status, nor does it clear a deletion timestamp; it removes
      it only when no finalizer is left on it. */
  lemma HcpReconcileFrame(w: World, in_: Input, name: Name)
    ensures var t := Reconcile(w, in_, name).0.w.mon;
      t == w.mon.(rms := t.rms) && HcpFrame(w.mon.rms, t.rms, name)
  {
    if name !in w.hcps {
      AbsentWrites(w, in_, name);
    } else if w.hcps[name].meta.deleted.Some? {
      DyingFrame(w, in_, name);
    } else {
      LiveFrame(w, in_, name);
    }
  }

  lemma DyingFrame(w: World, in_: Input, name: Name)
    requires name in w.hcps && w.hcps[name].meta.deleted.Some?
    ensures var t := Reconcile(w, in_, name).0.w.mon;
      t == w.mon.(rms := t.rms) && HcpFrame(w.mon.rms, t.rms, name)
  {
    DyingWrites(w, in_, name);
    DeletingFrame(Sim(w, [Rhobs.GetHcp]), in_, name);
  }

  lemma LiveFrame(w: World, in_: Input, name: Name)
    requires name in w.hcps && w.hcps[name].meta.deleted.None?
    ensures var t := Reconcile(w, in_, name).0.w.mon;
      t == w.mon.(rms := t.rms) && HcpFrame(w.mon.rms, t.rms, name)
  {
    LiveWrites(w, in_, name);
    GateFrame(EnsureFinalizer(Sim(w, [Rhobs.GetHcp]), in_.f, name).0, in_, name);
  }

  lemma AbsentWrites(w: World, in_: Input, name: Name)
    requires name !in w.hcps
    ensures Reconcile(w, in_, name).0.w == w
  {
  }

  lemma DyingWrites(w: World, in_: Input, name: Name)
    requires name in w.hcps && w.hcps[name].meta.deleted.Some?
    ensures var t := Reconcile(w, in_, name).0.w;
      t == w || t == ReconcileDeletion(Sim(w, [Rhobs.GetHcp]), in_, name).0.w
  {
  }

  /** What a step of the RouteMonitor controller may do to the RouteMonitors. */
  ghost predicate RmFrame(a: RouteMonitors, b: RouteMonitors) {
    forall n :: n in b ==> n in a && SameBuilt(a[n], b[n]) && b[n].meta.deleted == a[n].meta.deleted
  }

  lemma StatusFrame(a: RouteMonitors, b: RouteMonitors, name: Name)
    requires M.SameButStatus(a, b, name)
    ensures RmFrame(a, b)
  {
  }

  lemma FinalizerFrame(a: RouteMonitors, name: Name, fs: seq<string>, fault: Fault)
    requires name in a
    ensures RmFrame(a, Update(a, name, a[name].(meta := a[name].meta.(finalizers := fs)), fault).0)
  {
  }

  /** Frame of the RouteMonitor controller: one reconcile changes no spec, no label,
      no owner reference and no deletion timestamp, and creates no RouteMonitor. */
  lemma RmReconcileFrame(s: Store, f: M.Oracle, name: Name, look: M.RmLook)
    ensures RmFrame(s.rms, M.ReconcileRm(s, f, name, look).0.store.rms)
  {
    var sim := M.Sim(s, [M.FetchMonitor]);
    if name in s.rms {
      var rm := s.rms[name];
      if rm.meta.deleted.Some? {
        Runs.RmAbsentShape(sim, f, name, rm);
        LeftAloneFrame(s.rms, M.RmAbsent(sim, f, name, rm).0.store.rms, name);
      } else if M.RM_KEY !in rm.meta.finalizers {
        FinalizerFrame(s.rms, name, M.WithKey(rm.meta.finalizers, M.RM_KEY, M.RM_PREV_KEY), f(1));
      } else {
        StatusFrame(s.rms, M.RmSteps(sim, f, name, rm, look).0.store.rms, name);
      }
    }
  }

  /** Only finalizers were rewritten, or the last one left. */
  lemma LeftAloneFrame(a: RouteMonitors, b: RouteMonitors, name: Name)
    requires Runs.FinalizersOnly(a, b, name)
    ensures RmFrame(a, b)
  {
  }

  lemma CumReconcileFrame(s: Store, f: M.Oracle, name: Name, look: M.CumLook)
    ensures M.ReconcileCum(s, f, name, look).0.store.rms == s.rms
  {
  }

  // ----- mixed runs -----

  /** A step of either side. What others do to routes, ConfigMaps and the monitor
      store is a separate event, so that mixed runs keep one store. */
  datatype Event = OfHcp(hcp: HcpSafety.Event) | OfMonitors(monitors: Runs.Event)

  function Next(w: World, e: Event): World {
    match e
    case OfHcp(OthersActed(routes, _, checks)) => w.(routes := routes, checks := checks)
    case OfHcp(h) => HcpSafety.Next(w, h)
    case OfMonitors(m) => w.(mon := Runs.Next(w.mon, m))
  }

  function Run(events: seq<Event>): World {
    if events == [] then HcpSafety.INITIAL else Next(Run(events[..|events| - 1]), events[|events| - 1])
  }

  /** A RouteMonitor written by the hosted control plane controller serves no exporter by itself. */
  lemma HcpFrameServes(a: Store, b: Store, name: Name)
    requires Runs.ExporterServes(a) && b == a.(rms := b.rms) && HcpFrame(a.rms, b.rms, name)
    ensures Runs.ExporterServes(b)
  {
    Runs.StillServes(a, b);
  }

  lemma HcpNextKeepsStore(w: World, h: HcpSafety.Event)
    requires !h.Reconciled? && !h.OthersActed?
    ensures HcpSafety.Next(w, h).mon == w.mon
  {
  }

  lemma NextKeeps(w: World, e: Event)
    requires HcpSafety.Safe(w) && Runs.ExporterServes(w.mon)
    ensures HcpSafety.Safe(Next(w, e)) && Runs.ExporterServes(Next(w, e).mon)
  {
    match e
    case OfHcp(h) =>
      if h.OthersActed? {
        HcpSafety.SameCoverage(w, Next(w, e));
      } else {
        HcpSafety.NextSafe(w, h);
        if h.Reconciled? {
          HcpReconcileFrame(w, h.in_, h.name);
          HcpFrameServes(w.mon, Next(w, e).mon, h.name);
        } else {
          HcpNextKeepsStore(w, h);
        }
      }
    case OfMonitors(m) =>
      HcpSafety.SameCoverage(w, Next(w, e));
      Runs.NextServes(w.mon, m);
  }

  /** Both invariants survive the other controller: over every mixed run, whatever the
      faults, no live probe is an orphan and the exporter serves every probed monitor. */
  lemma {:induction false} MixedRunsKeepBoth(events: seq<Event>)
    ensures HcpSafety.Safe(Run(events)) && Runs.ExporterServes(Run(events).mon)
  {
    if events == [] {
      assert HcpSafety.INITIAL.probes == [];
    } else {
      MixedRunsKeepBoth(events[..|events| - 1]);
      NextKeeps(Run(events[..|events| - 1]), events[|events| - 1]);
    }
  }

  /** No one but the two controllers writes RouteMonitors; anyone may ask for a deletion. */
  predicate OnlyControllers(e: Event) {
    e.OfMonitors? ==> !e.monitors.RmCreated? && !e.monitors.RmEdited?
  }

  /** The control plane a RouteMonitor was built for. */
  ghost predicate BuiltAs(key: Name, o: RouteMonitor) {
    exists name :: MonitoringName(name) == key && BuiltFor(o, name)
  }

  ghost predicate AllBuilt(rms: RouteMonitors) {
    forall key :: key in rms ==> BuiltAs(key, rms[key])
  }

  lemma HcpFrameBuilds(a: RouteMonitors, b: RouteMonitors, name: Name)
    requires AllBuilt(a) && HcpFrame(a, b, name)
    ensures AllBuilt(b)
  {
    forall key | key in b ensures BuiltAs(key, b[key]) {
      if key in a && (key != MonitoringName(name) || SameBuilt(a[key], b[key])) {
        var owner :| MonitoringName(owner) == key && BuiltFor(a[key], owner);
        assert BuiltFor(b[key], owner);
      } else {
        assert MonitoringName(name) == key && BuiltFor(b[key], name);
      }
    }
  }

  lemma RmFrameBuilds(a: RouteMonitors, b: RouteMonitors)
    requires AllBuilt(a) && RmFrame(a, b)
    ensures AllBuilt(b)
  {
    forall key | key in b ensures BuiltAs(key, b[key]) {
      var owner :| MonitoringName(owner) == key && BuiltFor(a[key], owner);
      assert BuiltFor(b[key], owner);
    }
  }

  lemma HcpNextBuilds(w: World, h: HcpSafety.Event)
    requires AllBuilt(w.mon.rms)
    ensures AllBuilt(Next(w, OfHcp(h)).mon.rms)
  {
    if h.Reconciled? {
      HcpReconcileFrame(w, h.in_, h.name);
      HcpFrameBuilds(w.mon.rms, Next(w, OfHcp(h)).mon.rms, h.name);
    } else if !h.OthersActed? {
      HcpNextKeepsStore(w, h);
    }
  }

  lemma MonitorsNextBuilds(s: Store, m: Runs.Event)
    requires AllBuilt(s.rms) && !m.RmCreated? && !m.RmEdited?
    ensures AllBuilt(Runs.Next(s, m).rms)
  {
    if m.RmReconciled? {
      RmReconcileFrame(s, m.f, m.name, m.rmLook);
      RmFrameBuilds(s.rms, Runs.Next(s, m).rms);
    } else if m.CumReconciled? {
      CumReconcileFrame(s, m.f, m.name, m.cumLook);
    } else if m.RmDeleteRequested? {
      RmFrameBuildsGone(s.rms, m.name, m.at);
    } else {
      OthersLeaveRouteMonitors(s, m);
    }
  }

  lemma OthersLeaveRouteMonitors(s: Store, m: Runs.Event)
    requires m.CumCreated? || m.CumEdited? || m.CumDeleteRequested? || m.DepChanged?
    ensures Runs.Next(s, m).rms == s.rms
  {
  }

  lemma NextBuilds(w: World, e: Event)
    requires AllBuilt(w.mon.rms) && OnlyControllers(e)
    ensures AllBuilt(Next(w, e).mon.rms)
  {
    if e.OfHcp? { HcpNextBuilds(w, e.hcp); } else { MonitorsNextBuilds(w.mon, e.monitors); }
  }

  lemma RmFrameBuildsGone(a: RouteMonitors, name: Name, at: int)
    requires AllBuilt(a)
    ensures AllBuilt(Gone(a, name, at))
  {
    var b := Gone(a, name, at);
    forall key | key in b ensures BuiltAs(key, b[key]) {
      var owner :| MonitoringName(owner) == key && BuiltFor(a[key], owner);
      assert BuiltFor(b[key], owner);
    }
  }

  /** The spec stays the built one: over every run in which only the two controllers
      write RouteMonitors, each has the spec, labels and owner built for the control
      plane its name belongs to. */
  lemma {:induction false} SpecStaysBuilt(events: seq<Event>)
    requires forall i :: 0 <= i < |events| ==> OnlyControllers(events[i])
    ensures AllBuilt(Run(events).mon.rms)
  {
    if events != [] {
      SpecStaysBuilt(events[..|events| - 1]);
      NextBuilds(Run(events[..|events| - 1]), events[|events| - 1]);
    }
  }

  /** Once the RouteMonitor is in line, a pass of the hosted control plane controller
      with TLS up changes nothing in the monitors' store, whatever its faults: it does
      not disturb the RouteMonitor controller on its way to its fixed point. */
  lemma InLinePassIsIdle(w: World, in_: Input, name: Name)
    requires name in w.hcps && w.hcps[name].meta.deleted.None? && in_.tls
    requires in_.port.Some? ==> HcpSteps.InLine(w.mon.rms, MonitoringName(name), BuiltRouteMonitor(name, in_.port.value))
    requires MonitoringName(name) in w.mon.rms && w.mon.rms[MonitoringName(name)].meta.deleted.None?
    ensures Reconcile(w, in_, name).0.w.mon == w.mon
  {
    LiveWrites(w, in_, name);
    InLineGateIsIdle(EnsureFinalizer(Sim(w, [Rhobs.GetHcp]), in_.f, name).0, in_, name);
  }

  lemma InLineGateIsIdle(s: Sim, in_: Input, name: Name)
    requires name in s.w.hcps && in_.tls
    requires in_.port.Some? ==> HcpSteps.InLine(s.w.mon.rms, MonitoringName(name), BuiltRouteMonitor(name, in_.port.value))
    requires MonitoringName(name) in s.w.mon.rms && s.w.mon.rms[MonitoringName(name)].meta.deleted.None?
    ensures Gate(s, in_, name).0.w.mon == s.w.mon
  {
    GateWrites(s, in_, name);
    var s1 := EnsureReady(s, in_, name).0;
    assert s1.w.mon == s.w.mon;
    InLineTlsGateIsIdle(s1, in_, name);
  }

  lemma InLineTlsGateIsIdle(s: Sim, in_: Input, name: Name)
    requires name in s.w.hcps && in_.tls
    requires in_.port.Some? ==> HcpSteps.InLine(s.w.mon.rms, MonitoringName(name), BuiltRouteMonitor(name, in_.port.value))
    requires MonitoringName(name) in s.w.mon.rms && s.w.mon.rms[MonitoringName(name)].meta.deleted.None?
    ensures TlsGate(s, in_, name).0.w.mon == s.w.mon
  {
    DeployWritesMonitors(s, in_, name);
    InLineDeploymentIsIdle(s, in_, name);
  }

  lemma InLineDeploymentIsIdle(s: Sim, in_: Input, name: Name)
    requires in_.port.Some? ==> HcpSteps.InLine(s.w.mon.rms, MonitoringName(name), BuiltRouteMonitor(name, in_.port.value))
    requires MonitoringName(name) in s.w.mon.rms && s.w.mon.rms[MonitoringName(name)].meta.deleted.None?
    ensures DeployMonitoring(s, in_, name).0.w.mon == s.w.mon
  {
    var s1 := DeployRoute(s, in_.f, name).0;
    assert s1.w.mon == s.w.mon;
    if in_.port.Some? { InLineUpdateIsIdle(s1, in_.f, name, in_.port.value); }
  }

  lemma InLineUpdateIsIdle(s: Sim, f: Rhobs.Oracle, name: Name, port: int)
    requires HcpSteps.InLine(s.w.mon.rms, MonitoringName(name), BuiltRouteMonitor(name, port))
    requires s.w.mon.rms[MonitoringName(name)].meta.deleted.None?
    ensures DeployRouteMonitor(s, f, name, port).0.w.mon == s.w.mon
  {
    var key := MonitoringName(name);
    var m := s.w.mon.rms;
    assert m[key := m[key]] == m;
  }
}
