/** What single reconciles of a hosted control plane guarantee: the gates, the
    deletion deadline, and a fault-free pass over a healthy cluster. */
module HcpSteps {
  import opened Base
  import opened Finalizers
  import opened KubeStore
  import opened HealthCheck
  import opened Rhobs
  import opened MonitorApi
  import opened Synthetics
  import opened HostedControlPlane

  /** Calls that deploy monitoring objects or talk to RHOBS. */
  predicate Gated(c: Call) {
    c.CreateRoute? || c.PutRoute? || c.CreateRouteMonitor? || c.PutRouteMonitor?
    || c.ProbeGet? || c.ProbePost? || c.ProbePatch? || c.ProbeTerminate?
  }

  predicate NoneGated(log: seq<Call>) { forall i :: 0 <= i < |log| ==> !Gated(log[i]) }

  /** The readiness check this reconcile makes: it follows the fetch and, if there is one, the finalizer write. */
  function ReadinessOf(w: World, in_: Input, name: Name): Option<bool>
    requires name in w.hcps
  {
    var log := if FINALIZER in w.hcps[name].meta.finalizers then [GetHcp] else [GetHcp, PutHcp];
    Ready(Checked(Sim(w, log), name), Readiness(Sim(w, log), in_, w.hcps[name].spec.createdAt)).1
  }

  predicate GatesOpen(w: World, in_: Input, name: Name) {
    name in w.hcps && in_.available && ReadinessOf(w, in_, name) == Some(true)
    && in_.vpc == Some("available") && in_.port.Some? && in_.tls
  }

  /** The state behind the finalizer step: the finalizer is there, or just stored by
      the second call, and readiness is asked next. */
  lemma FinalizerStep(w: World, in_: Input, name: Name)
    requires name in w.hcps && w.hcps[name].meta.deleted.None?
    ensures var (s1, ok) := EnsureFinalizer(Sim(w, [GetHcp]), in_.f, name);
      name in s1.w.hcps && s1.w.hcps[name].spec == w.hcps[name].spec
      && s1.log == (if FINALIZER in w.hcps[name].meta.finalizers then [GetHcp] else [GetHcp, PutHcp])
      && (ok ==> FINALIZER in s1.w.hcps[name].meta.finalizers
                 && (FINALIZER in w.hcps[name].meta.finalizers || in_.f(1).fault.NoFault?))
      && s1.w == w.(hcps := s1.w.hcps, released := s1.w.released)
  {
  }

  lemma ReadinessAsked(w: World, in_: Input, name: Name)
    requires name in w.hcps && w.hcps[name].meta.deleted.None?
    ensures var s1 := EnsureFinalizer(Sim(w, [GetHcp]), in_.f, name).0;
      name in s1.w.hcps && EnsureReady(s1, in_, name).1 == ReadinessOf(w, in_, name)
  {
    FinalizerStep(w, in_, name);
  }

  /** With the infrastructure check on and outside deletion, a Route or RouteMonitor
      is created or updated, and RHOBS is called, only in a reconcile where every gate
      is open and after the finalizer is stored. */
  lemma GatedCallsNeedGates(w: World, in_: Input, name: Name)
    requires !in_.cfg.skipInfra && (name in w.hcps ==> w.hcps[name].meta.deleted.None?)
    ensures var s := Reconcile(w, in_, name).0;
      !NoneGated(s.log) ==>
        (GatesOpen(w, in_, name) && name in s.w.hcps && FINALIZER in s.w.hcps[name].meta.finalizers
         && (FINALIZER in w.hcps[name].meta.finalizers || StoredFirst(s.log, in_.f)))
  {
    NotThere(w, in_, name);
    if name in w.hcps && !NoneGated(Reconcile(w, in_, name).0.log) { GatedFromGate(w, in_, name); }
  }

  lemma GatedFromGate(w: World, in_: Input, name: Name)
    requires !in_.cfg.skipInfra && name in w.hcps && w.hcps[name].meta.deleted.None?
    requires !NoneGated(Reconcile(w, in_, name).0.log)
    ensures var s := Reconcile(w, in_, name).0;
      GatesOpen(w, in_, name) && name in s.w.hcps && FINALIZER in s.w.hcps[name].meta.finalizers
      && (FINALIZER in w.hcps[name].meta.finalizers || StoredFirst(s.log, in_.f))
  {
    FinalizerStep(w, in_, name);
    ReadinessAsked(w, in_, name);
    LiveReconcile(w, in_, name);
    var s1 := EnsureFinalizer(Sim(w, [GetHcp]), in_.f, name).0;
    GateLog(s1, in_, name);
    LogStarts(s1.log, Gate(s1, in_, name).0.log, in_.f);
  }

  lemma LogStarts(start: seq<Call>, log: seq<Call>, f: Oracle)
    requires start <= log && (start == [GetHcp] || start == [GetHcp, PutHcp])
    ensures start == [GetHcp, PutHcp] && f(1).fault.NoFault? ==> StoredFirst(log, f)
  {
  }

  /** The finalizer was written by the second call, successfully, before anything gated. */
  predicate StoredFirst(log: seq<Call>, f: Oracle) {
    |log| > 1 && log[1] == PutHcp && f(1).fault.NoFault? && NoneGated(log[..2])
  }

  lemma NotThere(w: World, in_: Input, name: Name)
    ensures name !in w.hcps ==> NoneGated(Reconcile(w, in_, name).0.log)
  {
  }

  /** Gated calls come from Deploy, and the finalizers are left alone behind the gates. */
  lemma GateLog(s: Sim, in_: Input, name: Name)
    requires name in s.w.hcps && NoneGated(s.log) && !in_.cfg.skipInfra
    ensures var s1 := Gate(s, in_, name).0;
      s.log <= s1.log && s1.w.hcps == s.w.hcps
      && (NoneGated(s1.log) || (in_.available && EnsureReady(s, in_, name).1 == Some(true)
                                && in_.vpc == Some("available") && in_.port.Some? && in_.tls))
  {
    var (s1, ready) := EnsureReady(s, in_, name);
    assert NoneGated(s1.log);
    DeleteLog(s1, in_.f, name);
  }

  lemma DeleteLog(s: Sim, f: Oracle, name: Name)
    requires NoneGated(s.log)
    ensures NoneGated(DeleteMonitoring(s, f, name).0.log)
  {
  }

  predicate GoneOrGoing<S, T>(m: Objects<S, T>, key: Name) { key in m ==> m[key].meta.deleted.Some? }

  /** What the gates lead to when all but TLS are open. */
  lemma GateDecides(s: Sim, in_: Input, name: Name)
    requires name in s.w.hcps && !in_.cfg.skipInfra && in_.available && EnsureReady(s, in_, name).1 == Some(true)
    requires in_.vpc == Some("available") && in_.port.Some?
    ensures var s1 := EnsureReady(s, in_, name).0;
      var (s2, err) := DeleteMonitoring(s1, in_.f, name);
      (in_.tls ==> Gate(s, in_, name) == Deploy(s1, in_, name))
      && (!in_.tls ==> Gate(s, in_, name).0 == s2)
      && (!in_.tls && err.None? ==> Gate(s, in_, name).1 == After(HEALTHCHECK_INTERVAL))
      && (!in_.tls && err.Some? ==> Gate(s, in_, name).1.Requeue?)
  {
  }

  /** A reconcile of a live control plane is its gates, once the finalizer is stored,
      and sends nothing that is gated otherwise. */
  lemma LiveReconcile(w: World, in_: Input, name: Name)
    requires name in w.hcps && w.hcps[name].meta.deleted.None?
    ensures var (s1, ok) := EnsureFinalizer(Sim(w, [GetHcp]), in_.f, name);
      var (s, out) := Reconcile(w, in_, name);
      name in s1.w.hcps
      && (out.Requeue? || (ok && (s, out) == Gate(s1, in_, name)))
      && ((ok && (s, out) == Gate(s1, in_, name)) || NoneGated(s.log))
      && (in_.f(0).fault.NoFault? && in_.cfg.apiUrl && ok ==> (s, out) == Gate(s1, in_, name))
  {
    FinalizerStep(w, in_, name);
  }

  /** A reconcile that finds TLS down, and ends without an error, leaves the Route
      and the RouteMonitor absent or being deleted. */
  lemma TlsDownRemovesMonitoring(w: World, in_: Input, name: Name)
    requires !in_.cfg.skipInfra && name in w.hcps && w.hcps[name].meta.deleted.None?
    requires in_.available && ReadinessOf(w, in_, name) == Some(true) && in_.vpc == Some("available") && in_.port.Some? && !in_.tls
    ensures var (s, out) := Reconcile(w, in_, name);
      !out.Requeue? ==>
        (GoneOrGoing(s.w.routes, MonitoringName(name)) && GoneOrGoing(s.w.mon.rms, MonitoringName(name))
         && out == After(HEALTHCHECK_INTERVAL))
  {
    LiveReconcile(w, in_, name);
    FinalizerStep(w, in_, name);
    ReadinessAsked(w, in_, name);
    var s1 := EnsureFinalizer(Sim(w, [GetHcp]), in_.f, name).0;
    GateDecides(s1, in_, name);
    MonitoringDeleted(EnsureReady(s1, in_, name).0, in_.f, name);
  }

  lemma MonitoringDeleted(s: Sim, f: Oracle, name: Name)
    ensures var (s1, err) := DeleteMonitoring(s, f, name);
      err.None? ==> GoneOrGoing(s1.w.routes, MonitoringName(name)) && GoneOrGoing(s1.w.mon.rms, MonitoringName(name))
  {
  }

  /** All Kubernetes calls work. */
  ghost predicate KubeWorks(f: Oracle) { forall n: nat {:trigger f(n)} :: f(n).fault.NoFault? }

  /** RHOBS answers every call, with whatever status, in a body that parses. */
  ghost predicate Answers(f: Oracle) { forall n: nat {:trigger f(n)} :: f(n).http.Answer? && !f(n).garbled }

  predicate LetFree(w: World, name: Name) {
    name in w.hcps ==> FINALIZER !in w.hcps[name].meta.finalizers
  }

  lemma FinishFrees(s: Sim, f: Oracle, name: Name, release: Option<Release>)
    requires name in s.w.hcps && s.w.hcps[name].meta.deleted.Some? && KubeWorks(f)
    ensures var (s1, out) := FinishDeletion(s, f, name, release);
      out == Stop && LetFree(s1.w, name)
  {
    assert f(|s.log|).fault.NoFault?;
    var (s1, err) := DeleteMonitoring(s, f, name);
    assert f(|s.log| + 1).fault.NoFault? && f(|s1.log|).fault.NoFault?;
  }

  /** Once deletion is fifteen minutes old, one reconcile lets the control plane go
      whatever RHOBS and Dynatrace answer. */
  lemma DeadlineFreesHcp(w: World, in_: Input, name: Name)
    requires name in w.hcps && w.hcps[name].meta.deleted.Some? && in_.cfg.apiUrl && KubeWorks(in_.f)
    requires w.now - w.hcps[name].meta.deleted.value >= DELETION_TIMEOUT
    ensures var (s, out) := Reconcile(w, in_, name);
      out == Stop && LetFree(s.w, name)
  {
    assert in_.f(0).fault.NoFault?;
    var s := Sim(w, [GetHcp]);
    var (r, err) := DeleteClusterProbe(Remote(w.probes, s.log), in_.f, w.hcps[name].spec.cid);
    var s1 := Remoted(s, r);
    FinishFrees(s1, in_.f, name, None);
    var s2 := s1.(w := s1.w.(timeouts := s1.w.timeouts + 1));
    FinishFrees(s2, in_.f, name, Some(FailOpen(w.now - w.hcps[name].meta.deleted.value, s2.w.timeouts)));
  }

  /** An answered probe deletion fails only with a status error, whose prefix
      survives the wrapping. */
  lemma AnsweredFailureIsNon200(r: Remote, f: Oracle, cid: string)
    requires cid != "" && Answers(f)
    ensures var err := DeleteClusterProbe(r, f, cid).1;
      err.Some? ==> IsNon200(err.value)
  {
    var err := DeleteClusterProbe(r, f, cid).1;
    if err.Some? {
      assert f(|r.log|).http.Answer?;
      var (r1, found) := GetProbe(r, f, cid);
      assert f(|r1.log|).http.Answer?;
      var http := if found.Err? then Lookup(r.probes, cid, f(|r.log|).http)
                  else PatchAnswer(r1.probes, found.value.value.id, f(|r1.log|).http);
      assert Cause(err.value.cause) == ApiError(http.status, http.body);
      ApiErrorIsNon200(http.status, http.body);
      WrappingKeepsPrefix(err.value);
    }
  }

  /** Inside the window an answered deletion either finishes or comes back in five minutes. */
  lemma DeletionStep(w: World, in_: Input, name: Name)
    requires name in w.hcps && w.hcps[name].meta.deleted.Some? && w.hcps[name].spec.cid != ""
    requires in_.cfg.apiUrl && KubeWorks(in_.f) && Answers(in_.f)
    ensures var (s, out) := Reconcile(w, in_, name);
      (out == Stop && LetFree(s.w, name))
      || (out == After(RETRY_TIMEOUT) && w.now - w.hcps[name].meta.deleted.value < DELETION_TIMEOUT)
  {
    assert in_.f(0).fault.NoFault?;
    if w.now - w.hcps[name].meta.deleted.value >= DELETION_TIMEOUT {
      DeadlineFreesHcp(w, in_, name);
    } else {
      var s := Sim(w, [GetHcp]);
      AnsweredFailureIsNon200(Remote(w.probes, s.log), in_.f, w.hcps[name].spec.cid);
      var (r, err) := DeleteClusterProbe(Remote(w.probes, s.log), in_.f, w.hcps[name].spec.cid);
      FinishFrees(Remoted(s, r), in_.f, name, None);
    }
  }

  /** Deletion reconciles of one control plane: the world each of them meets. A
      reconcile that asked to come back is followed by one no later than asked. */
  ghost predicate Retries(ws: seq<World>, ins: seq<Input>, name: Name, since: int) {
    |ws| == |ins| > 0
    && (forall i :: 0 <= i < |ws| ==> Deleting(ws[i], ins[i], name, since))
    && (forall i :: 0 < i < |ws| ==> Follows(ws[i - 1], ins[i - 1], name, ws[i]))
    && ws[0].now - since < DELETION_TIMEOUT
  }

  ghost predicate Deleting(w: World, in_: Input, name: Name, since: int) {
    name in w.hcps && w.hcps[name].meta.deleted == Some(since) && w.hcps[name].spec.cid != ""
    && in_.cfg.apiUrl && KubeWorks(in_.f) && Answers(in_.f)
  }

  ghost predicate Follows(w: World, in_: Input, name: Name, next: World) {
    var out := Reconcile(w, in_, name).1;
    out.After? && w.now < next.now <= w.now + out.seconds
  }

  /** Retries that start inside the window are over before minute twenty: every
      reconcile of the series is earlier than that, and one that does not come back
      has let the control plane go. */
  lemma RetriesEndBeforeMinuteTwenty(ws: seq<World>, ins: seq<Input>, name: Name, since: int, i: nat)
    requires Retries(ws, ins, name, since) && i < |ws|
    ensures ws[i].now - since < DELETION_TIMEOUT + RETRY_TIMEOUT == 20 * 60
    ensures var (s, out) := Reconcile(ws[i], ins[i], name);
      (out == Stop && LetFree(s.w, name)) || (out.After? && ws[i].now - since < DELETION_TIMEOUT)
  {
    assert Deleting(ws[i], ins[i], name, since);
    DeletionStep(ws[i], ins[i], name);
    if i > 0 {
      assert Deleting(ws[i - 1], ins[i - 1], name, since) && Follows(ws[i - 1], ins[i - 1], name, ws[i]);
      DeletionStep(ws[i - 1], ins[i - 1], name);
    }
  }

  /** A stored object carries what was built for it. */
  predicate InLine<S(==), T>(m: Objects<S, T>, key: Name, built: Object<S, T>) {
    key in m && m[key].spec == built.spec && m[key].meta.labels == built.meta.labels && m[key].meta.owners == built.meta.owners
  }

  /** Neither monitoring object is being torn down by someone else. */
  predicate Undisturbed(w: World, name: Name) {
    var key := MonitoringName(name);
    (key in w.routes ==> w.routes[key].meta.deleted.None?) && (key in w.mon.rms ==> w.mon.rms[key].meta.deleted.None?)
  }

  lemma DeployedInLine(s: Sim, in_: Input, name: Name)
    requires !in_.cfg.skipInfra && in_.port.Some? && KubeWorks(in_.f) && Undisturbed(s.w, name)
    ensures var (s1, err) := DeployMonitoring(s, in_, name);
      err.None? && s1.w.hcps == s.w.hcps && s1.w.probes == s.w.probes && s.log <= s1.log
      && InLine(s1.w.routes, MonitoringName(name), BuiltRoute(name))
      && InLine(s1.w.mon.rms, MonitoringName(name), BuiltRouteMonitor(name, in_.port.value))
  {
    var f := in_.f;
    RouteInLine(s, f, name);
    var s1 := DeployRoute(s, f, name).0;
    RouteMonitorInLine(s1, f, name, in_.port.value);
  }

  lemma RouteInLine(s: Sim, f: Oracle, name: Name)
    requires KubeWorks(f) && Undisturbed(s.w, name)
    ensures var (s1, ok) := DeployRoute(s, f, name);
      ok && s1.w == s.w.(routes := s1.w.routes) && InLine(s1.w.routes, MonitoringName(name), BuiltRoute(name))
  {
    assert f(|s.log|).fault.NoFault? && f(|s.log| + 1).fault.NoFault? && f(|s.log| + 2).fault.NoFault?;
  }

  lemma RouteMonitorInLine(s: Sim, f: Oracle, name: Name, port: int)
    requires KubeWorks(f) && Undisturbed(s.w, name)
    ensures var (s1, ok) := DeployRouteMonitor(s, f, name, port);
      ok && s1.w == s.w.(mon := s.w.mon.(rms := s1.w.mon.rms))
      && InLine(s1.w.mon.rms, MonitoringName(name), BuiltRouteMonitor(name, port))
  {
    assert f(|s.log|).fault.NoFault? && f(|s.log| + 1).fault.NoFault? && f(|s.log| + 2).fault.NoFault?;
  }

  lemma HealthyDeploy(s: Sim, in_: Input, name: Name)
    requires AtMostOne(s.w.probes) && !in_.cfg.skipInfra && in_.cfg.apiUrl && KubeWorks(in_.f) && in_.port.Some?
    requires name in s.w.hcps && Undisturbed(s.w, name) && Healthy(in_.cfg, s.w.hcps[name].spec.cid, in_.facts)
    requires ProbesSucceed(Deploy(s, in_, name).0.log, in_.f, |s.log|)
    ensures var (s1, out) := Deploy(s, in_, name);
      out == After(if in_.cfg.interval > 0 then in_.cfg.interval else PERIODIC_INTERVAL)
      && InLine(s1.w.routes, MonitoringName(name), BuiltRoute(name))
      && InLine(s1.w.mon.rms, MonitoringName(name), BuiltRouteMonitor(name, in_.port.value))
      && OneUpToDate(s1.w.probes, s.w.hcps[name].spec.cid, in_.facts, in_.stamp)
  {
    var cid := s.w.hcps[name].spec.cid;
    DeployedInLine(s, in_, name);
    var s1 := DeployMonitoring(s, in_, name).0;
    var r := Remote(s1.w.probes, s1.log);
    SucceedLater(Deploy(s, in_, name).0.log, in_.f, |s.log|, |s1.log|);
    HealthyPassOverProbe(r, in_.f, in_.cfg, cid, in_.facts, in_.stamp);
  }

  /** A cluster whose probe the operator maintains when it can read the HostedCluster. */
  predicate Healthy(cfg: Config, cid: string, facts: Facts) {
    cid != "" && (facts.limitedSupport ==> facts.hostedCluster == Some(false)) && !(cfg.onlyPublic && facts.private)
    && facts.hostname.Some? && facts.region != ""
  }

  lemma HealthyPassOverProbe(r: Remote, f: Oracle, cfg: Config, cid: string, facts: Facts, stamp: string)
    requires AtMostOne(r.probes) && KubeWorks(f) && Healthy(cfg, cid, facts)
    requires ProbesSucceed(EnsureProbe(r, f, cfg, cid, facts, stamp).0.log, f, |r.log|)
    ensures var (r1, err) := EnsureProbe(r, f, cfg, cid, facts, stamp);
      err.None? && OneUpToDate(r1.probes, cid, facts, stamp)
  {
    assert f(|r.log|).fault.NoFault?;
    assert Monitored(r, f, cfg, cid, facts);
    OnePassConverges(r, f, cfg, cid, facts, stamp);
    SuccessIsNoConflict(r.log, EnsureProbe(r, f, cfg, cid, facts, stamp).0.log, f);
    SucceedingPass(r, f, cfg, cid, facts, stamp);
  }

  /** A reconcile of a ready, monitored cluster whose Kubernetes calls work and whose
      probe calls all succeed, each with any status that counts as success for its kind,
      stores the finalizer, brings Route and RouteMonitor in line, leaves exactly one
      probe that agrees with the cluster, and asks for the next pass after the
      configured interval. */
  lemma HealthyPass(w: World, in_: Input, name: Name)
    requires AtMostOne(w.probes) && !in_.cfg.skipInfra && in_.cfg.apiUrl && KubeWorks(in_.f)
    requires ProbesSucceed(Reconcile(w, in_, name).0.log, in_.f, 0)
    requires GatesOpen(w, in_, name) && w.hcps[name].meta.deleted.None? && Undisturbed(w, name)
    requires Healthy(in_.cfg, w.hcps[name].spec.cid, in_.facts)
    ensures var (s, out) := Reconcile(w, in_, name);
      out == After(if in_.cfg.interval > 0 then in_.cfg.interval else PERIODIC_INTERVAL)
      && name in s.w.hcps && FINALIZER in s.w.hcps[name].meta.finalizers
      && InLine(s.w.routes, MonitoringName(name), BuiltRoute(name))
      && InLine(s.w.mon.rms, MonitoringName(name), BuiltRouteMonitor(name, in_.port.value))
      && OneUpToDate(s.w.probes, w.hcps[name].spec.cid, in_.facts, in_.stamp)
  {
    assert in_.f(0).fault.NoFault? && in_.f(1).fault.NoFault?;
    LiveReconcile(w, in_, name);
    FinalizerStep(w, in_, name);
    ReadinessAsked(w, in_, name);
    var (s1, ok) := EnsureFinalizer(Sim(w, [GetHcp]), in_.f, name);
    assert ok && FINALIZER in s1.w.hcps[name].meta.finalizers;
    GateDecides(s1, in_, name);
    var s2 := EnsureReady(s1, in_, name).0;
    SucceedLater(Deploy(s2, in_, name).0.log, in_.f, 0, |s2.log|);
    HealthyDeploy(s2, in_, name);
  }
}
