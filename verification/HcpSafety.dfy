/** Whole runs of the hosted control plane controller: no live probe without an
    owner, and at most one probe per cluster. */
module HcpSafety {
  import opened Base
  import opened Finalizers
  import opened KubeStore
  import opened HealthCheck
  import opened Rhobs
  import opened MonitorApi
  import opened Synthetics
  import opened HostedControlPlane

  /** Everything that can happen. Other actors create and delete control planes and
      edit every finalizer but the operator's; the probe agents move a live probe to
      any status and clear a terminating one; routes, monitors and ConfigMaps change
      in any way. */
  datatype Event =
    | Reconciled(name: Name, in_: Input)
    | HcpCreated(name: Name, cid: string, finalizers: seq<string>)
    | HcpDeleteRequested(name: Name)
    | FinalizersEdited(name: Name, finalizers: seq<string>)
    | Elapsed(seconds: nat)
    | AgentActed(id: nat, status: ProbeStatus)
    | OthersActed(routes: Objects<RouteSpec, ()>, mon: Store, checks: map<Name, CheckMap>)

  function Next(w: World, e: Event): World {
    match e
    case Reconciled(name, in_) => Reconcile(w, in_, name).0.w
    case HcpCreated(name, cid, fs) =>
      if name in w.hcps then w
      else w.(hcps := w.hcps[name := Object(Meta(fs, None, map[], []), HcpSpec(cid, w.now), ())])
    case HcpDeleteRequested(name) => w.(hcps := Gone(w.hcps, name, w.now))
    case FinalizersEdited(name, fs) =>
      if name in w.hcps && (FINALIZER in w.hcps[name].meta.finalizers ==> FINALIZER in fs) then
        w.(hcps := Update(w.hcps, name, w.hcps[name].(meta := w.hcps[name].meta.(finalizers := fs)), NoFault).0)
      else w
    case Elapsed(seconds) => w.(now := w.now + seconds)
    case AgentActed(id, status) =>
      if id >= |w.probes| then w
      else w.(probes := w.probes[id := w.probes[id].(status := if Live(w.probes[id]) then status else Absent)])
    case OthersActed(routes, mon, checks) => w.(routes := routes, mon := mon, checks := checks)
  }

  const INITIAL := World(0, map[], map[], Store(map[], map[], map[]), map[], [], 0, map[])

  function Run(events: seq<Event>): World {
    if events == [] then INITIAL else Next(Run(events[..|events| - 1]), events[|events| - 1])
  }

  /** Some control plane of this cluster carries the operator's finalizer. */
  predicate Owned(w: World, cid: string) {
    exists name :: name in w.hcps && w.hcps[name].spec.cid == cid && FINALIZER in w.hcps[name].meta.finalizers
  }

  /** The cluster's finalizer was let go while the endpoint was unset, or by a
      fail-open at least fifteen minutes into the deletion that raised the counter. */
  predicate LetGo(w: World, cid: string) {
    cid in w.released && match w.released[cid]
      case ApiUnset => true
      case FailOpen(elapsed, count) => elapsed >= DELETION_TIMEOUT && 1 <= count <= w.timeouts
  }

  predicate Covered(w: World, cid: string) { Owned(w, cid) || LetGo(w, cid) }

  ghost predicate NoOrphan(w: World) {
    forall i, cid :: 0 <= i < |w.probes| && Listed(w.probes[i], cid) ==> Covered(w, cid)
  }

  ghost predicate Safe(w: World) {
    AtMostOne(w.probes) && NoOrphan(w)
  }

  /** Cluster coverage is not lost from `a` to `b`. */
  ghost predicate StaysCovered(a: World, b: World) {
    forall cid :: Covered(a, cid) ==> Covered(b, cid)
  }

  /** Storing the finalizer leaves every cluster covered, and when it reports success it is stored. */
  lemma FinalizerStored(s: Sim, f: Oracle, name: Name)
    requires name in s.w.hcps && s.w.hcps[name].meta.deleted.None?
    ensures var (s1, ok) := EnsureFinalizer(s, f, name);
      s1.w == s.w.(hcps := s1.w.hcps, released := s1.w.released) && StaysCovered(s.w, s1.w)
      && name in s1.w.hcps && s1.w.hcps[name].spec == s.w.hcps[name].spec
      && s1.w.hcps[name].meta.deleted.None?
      && (ok ==> FINALIZER in s1.w.hcps[name].meta.finalizers)
  {
    var s1 := EnsureFinalizer(s, f, name).0;
    FinalizerWritten(s, f, name);
    forall cid | Covered(s.w, cid) ensures Covered(s1.w, cid) {
      if Owned(s.w, cid) {
        var n :| n in s.w.hcps && s.w.hcps[n].spec.cid == cid && FINALIZER in s.w.hcps[n].meta.finalizers;
        assert KeptOwner(s.w, s1.w, n);
      } else if s1.w.released != s.w.released && cid == s.w.hcps[name].spec.cid {
        assert Owned(s1.w, cid);
      }
    }
  }

  /** The control plane is still there, of the same cluster, and owns it if it did. */
  predicate KeptOwner(a: World, b: World, n: Name)
    requires n in a.hcps
  {
    n in b.hcps && b.hcps[n].spec == a.hcps[n].spec
    && (FINALIZER in a.hcps[n].meta.finalizers ==> FINALIZER in b.hcps[n].meta.finalizers)
  }

  lemma FinalizerWritten(s: Sim, f: Oracle, name: Name)
    requires name in s.w.hcps && s.w.hcps[name].meta.deleted.None?
    ensures var s1 := EnsureFinalizer(s, f, name).0;
      (s1.w == s.w
       || (name in s1.w.hcps && FINALIZER in s1.w.hcps[name].meta.finalizers
           && s1.w.released == s.w.released - {s.w.hcps[name].spec.cid}))
      && (forall n :: n in s.w.hcps ==> KeptOwner(s.w, s1.w, n))
  {
  }

  lemma DeployKeeps(s: Sim, in_: Input, name: Name)
    requires name in s.w.hcps && AtMostOne(s.w.probes)
    ensures var w1 := Deploy(s, in_, name).0.w;
      w1.hcps == s.w.hcps && w1.released == s.w.released && w1.timeouts == s.w.timeouts && w1.now == s.w.now
      && Keeps(s.w.probes, w1.probes, s.w.hcps[name].spec.cid)
  {
    var (s1, err) := DeployMonitoring(s, in_, name);
    EnsureProbeKeeps(Remote(s1.w.probes, s1.log), in_.f, in_.cfg, s.w.hcps[name].spec.cid, in_.facts, in_.stamp);
  }

  /** A step behind the gates changes probes of its own cluster only, and no owner. */
  ghost predicate KeepsProbes(a: World, b: World, cid: string) {
    b.hcps == a.hcps && b.released == a.released && b.timeouts == a.timeouts && b.now == a.now && Keeps(a.probes, b.probes, cid)
  }

  lemma TlsGateKeeps(s: Sim, in_: Input, name: Name)
    requires name in s.w.hcps && AtMostOne(s.w.probes)
    ensures KeepsProbes(s.w, TlsGate(s, in_, name).0.w, s.w.hcps[name].spec.cid)
  {
    DeployKeeps(s, in_, name);
  }

  lemma GateKeeps(s: Sim, in_: Input, name: Name)
    requires name in s.w.hcps && AtMostOne(s.w.probes)
    ensures KeepsProbes(s.w, Gate(s, in_, name).0.w, s.w.hcps[name].spec.cid)
  {
    TlsGateKeeps(EnsureReady(s, in_, name).0, in_, name);
  }

  /** A probe gained in a pass is covered by the pass's own finalizer. */
  lemma GainedIsCovered(a: World, b: World, name: Name)
    requires Safe(a) && name in a.hcps && FINALIZER in a.hcps[name].meta.finalizers
    requires b.hcps == a.hcps && b.released == a.released && b.timeouts == a.timeouts
    requires Keeps(a.probes, b.probes, a.hcps[name].spec.cid)
    ensures Safe(b)
  {
    var mine := a.hcps[name].spec.cid;
    assert Owned(b, mine);
    forall i, cid | 0 <= i < |b.probes| && Listed(b.probes[i], cid) ensures Covered(b, cid) {
      if cid != mine { assert Listed(a.probes[i], cid); assert Covered(a, cid); }
    }
  }

  /** What the last write of a deletion does: nothing, or the finalizer is off this
      control plane, which may be gone with it, and the reason is recorded if it was on. */
  lemma DropWrites(s: Sim, f: Oracle, name: Name, release: Option<Release>)
    requires name in s.w.hcps && s.w.hcps[name].meta.deleted.Some?
    ensures var w, hcp := DropFinalizer(s, f, name, release).0.w, s.w.hcps[name];
      w == s.w
      || (w == s.w.(hcps := w.hcps, released := w.released)
          && (forall n :: n in s.w.hcps && n != name ==> n in w.hcps && w.hcps[n] == s.w.hcps[n])
          && w.released == (if release.Some? && FINALIZER in hcp.meta.finalizers then s.w.released[hcp.spec.cid := release.value]
                            else s.w.released))
  {
  }

  /** Dropping the finalizer is covered: nothing is listed any more, or the reason is recorded. */
  lemma DropCovered(s: Sim, f: Oracle, name: Name, release: Option<Release>)
    requires Safe(s.w) && name in s.w.hcps && s.w.hcps[name].meta.deleted.Some?
    requires release.None? ==> NoneListed(s.w.probes, s.w.hcps[name].spec.cid)
    requires release.Some? && release.value.FailOpen? ==>
      release.value.elapsed >= DELETION_TIMEOUT && 1 <= release.value.count <= s.w.timeouts
    ensures Safe(DropFinalizer(s, f, name, release).0.w)
  {
    DropWrites(s, f, name, release);
    var w := DropFinalizer(s, f, name, release).0.w;
    if w != s.w { DroppedCovered(s.w, w, name, release); }
  }

  lemma DroppedCovered(a: World, b: World, name: Name, release: Option<Release>)
    requires Safe(a) && name in a.hcps && b == a.(hcps := b.hcps, released := b.released)
    requires forall n :: n in a.hcps && n != name ==> n in b.hcps && b.hcps[n] == a.hcps[n]
    requires b.released == (if release.Some? && FINALIZER in a.hcps[name].meta.finalizers then a.released[a.hcps[name].spec.cid := release.value]
                            else a.released)
    requires release.None? ==> NoneListed(a.probes, a.hcps[name].spec.cid)
    requires release.Some? && release.value.FailOpen? ==>
      release.value.elapsed >= DELETION_TIMEOUT && 1 <= release.value.count <= a.timeouts
    ensures Safe(b)
  {
    forall i, cid | 0 <= i < |b.probes| && Listed(b.probes[i], cid) ensures Covered(b, cid) {
      assert Covered(a, cid);
      if Owned(a, cid) {
        var n :| n in a.hcps && a.hcps[n].spec.cid == cid && FINALIZER in a.hcps[n].meta.finalizers;
        if n != name { assert n in b.hcps && b.hcps[n] == a.hcps[n]; }
      }
    }
  }

  lemma FinishCovered(s: Sim, f: Oracle, name: Name, release: Option<Release>)
    requires Safe(s.w) && name in s.w.hcps && s.w.hcps[name].meta.deleted.Some?
    requires release.None? ==> NoneListed(s.w.probes, s.w.hcps[name].spec.cid)
    requires release.Some? && release.value.FailOpen? ==>
      release.value.elapsed >= DELETION_TIMEOUT && 1 <= release.value.count <= s.w.timeouts
    ensures Safe(FinishDeletion(s, f, name, release).0.w)
  {
    var s1 := DeleteMonitoring(s, f, name).0;
    SameCoverage(s.w, s1.w);
    DropCovered(s1, f, name, release);
  }

  lemma SameCoverage(a: World, b: World)
    requires b.hcps == a.hcps && b.released == a.released && b.timeouts >= a.timeouts
    ensures StaysCovered(a, b)
    ensures Safe(a) && AtMostOne(b.probes) && Shrinks(a.probes, b.probes) ==> Safe(b)
  {
    forall cid | Owned(a, cid) ensures Owned(b, cid) {
      var n :| n in a.hcps && a.hcps[n].spec.cid == cid && FINALIZER in a.hcps[n].meta.finalizers;
      assert n in b.hcps;
    }
  }

  lemma ProbeDeleted(s: Sim, f: Oracle, cid: string)
    requires Safe(s.w)
    ensures var (r, err) := DeleteClusterProbe(Remote(s.w.probes, s.log), f, cid);
      Safe(Remoted(s, r).w) && (err.None? ==> NoneListed(r.probes, cid))
  {
    var (r, err) := DeleteClusterProbe(Remote(s.w.probes, s.log), f, cid);
    if cid != "" { DeleteLeavesNone(Remote(s.w.probes, s.log), f, cid); }
    SameCoverage(s.w, Remoted(s, r).w);
  }

  lemma ProbeFirstSafe(s: Sim, in_: Input, name: Name)
    requires Safe(s.w) && name in s.w.hcps && s.w.hcps[name].meta.deleted.Some?
    ensures Safe(DeleteProbeFirst(s, in_, name).0.w)
  {
    var cid := s.w.hcps[name].spec.cid;
    var (r, err) := DeleteClusterProbe(Remote(s.w.probes, s.log), in_.f, cid);
    ProbeDeleted(s, in_.f, cid);
    RestSafe(s, in_.f, name, r, err);
  }

  /** What comes after the probe deletion, which changed the probes and the log only. */
  lemma RestSafe(s: Sim, f: Oracle, name: Name, r: Remote, err: Option<Error>)
    requires Safe(Remoted(s, r).w) && name in s.w.hcps && s.w.hcps[name].meta.deleted.Some?
    requires err.None? ==> NoneListed(r.probes, s.w.hcps[name].spec.cid)
    ensures Safe(AfterProbe(Remoted(s, r), f, name, s.w.now - s.w.hcps[name].meta.deleted.value, err).0.w)
  {
    AfterProbeSafe(Remoted(s, r), f, name, s.w.now - s.w.hcps[name].meta.deleted.value, err);
  }

  lemma AfterProbeSafe(s: Sim, f: Oracle, name: Name, elapsed: int, err: Option<Error>)
    requires Safe(s.w) && name in s.w.hcps && s.w.hcps[name].meta.deleted.Some?
    requires err.None? ==> NoneListed(s.w.probes, s.w.hcps[name].spec.cid)
    ensures Safe(AfterProbe(s, f, name, elapsed, err).0.w)
  {
    if err.None? {
      FinishCovered(s, f, name, None);
    } else if elapsed >= DELETION_TIMEOUT {
      FailOpenSafe(s, f, name, elapsed);
    }
  }

  lemma FailOpenSafe(s: Sim, f: Oracle, name: Name, elapsed: int)
    requires Safe(s.w) && name in s.w.hcps && s.w.hcps[name].meta.deleted.Some? && elapsed >= DELETION_TIMEOUT
    ensures var s1 := s.(w := s.w.(timeouts := s.w.timeouts + 1));
      Safe(FinishDeletion(s1, f, name, Some(FailOpen(elapsed, s1.w.timeouts))).0.w)
  {
    var s1 := s.(w := s.w.(timeouts := s.w.timeouts + 1));
    SameCoverage(s.w, s1.w);
    FinishCovered(s1, f, name, Some(FailOpen(elapsed, s1.w.timeouts)));
  }

  lemma DeletionSafe(s: Sim, in_: Input, name: Name)
    requires Safe(s.w) && name in s.w.hcps && s.w.hcps[name].meta.deleted.Some?
    ensures Safe(ReconcileDeletion(s, in_, name).0.w)
  {
    if in_.cfg.apiUrl { ProbeFirstSafe(s, in_, name); } else { FinishCovered(s, in_.f, name, Some(ApiUnset)); }
  }

  /** One reconcile keeps the invariant whatever its inputs and the fate of its calls. */
  lemma ReconcileSafe(w: World, in_: Input, name: Name)
    requires Safe(w)
    ensures Safe(Reconcile(w, in_, name).0.w)
  {
    var s := Sim(w, [GetHcp]);
    if name in w.hcps {
      if w.hcps[name].meta.deleted.Some? {
        DeletionSafe(s, in_, name);
      } else {
        FinalizerStored(s, in_.f, name);
        var (s1, ok) := EnsureFinalizer(s, in_.f, name);
        assert Safe(s1.w);
        if ok {
          GateKeeps(s1, in_, name);
          GainedIsCovered(s1.w, Gate(s1, in_, name).0.w, name);
        }
      }
    }
  }

  /** Other actors never take away an owner. */
  lemma OwnersStay(w: World, e: Event)
    requires e.HcpCreated? || e.HcpDeleteRequested? || e.FinalizersEdited?
    ensures StaysCovered(w, Next(w, e))
  {
    forall cid | Owned(w, cid) ensures Owned(Next(w, e), cid) {
      var n :| n in w.hcps && w.hcps[n].spec.cid == cid && FINALIZER in w.hcps[n].meta.finalizers;
      OwnerStays(w, e, n);
      assert n in Next(w, e).hcps;
    }
  }

  lemma OwnerStays(w: World, e: Event, n: Name)
    requires e.HcpCreated? || e.HcpDeleteRequested? || e.FinalizersEdited?
    requires n in w.hcps && FINALIZER in w.hcps[n].meta.finalizers
    ensures var v := Next(w, e);
      n in v.hcps && v.hcps[n].spec == w.hcps[n].spec && FINALIZER in v.hcps[n].meta.finalizers
      && v.released == w.released && v.timeouts == w.timeouts
  {
  }

  lemma NextSafe(w: World, e: Event)
    requires Safe(w)
    ensures Safe(Next(w, e))
  {
    match e
    case Reconciled(name, in_) => ReconcileSafe(w, in_, name);
    case AgentActed(_, _) => SameCoverage(w, Next(w, e));
    case Elapsed(_) => SameCoverage(w, Next(w, e));
    case OthersActed(_, _, _) => SameCoverage(w, Next(w, e));
    case _ => OwnersStay(w, e);
  }

  lemma {:induction false} RunSafe(events: seq<Event>)
    ensures Safe(Run(events))
  {
    if events == [] {
      assert Run(events).probes == [];
    } else {
      RunSafe(events[..|events| - 1]);
      NextSafe(Run(events[..|events| - 1]), events[|events| - 1]);
    }
  }

  /** No-orphan safety over every run: whatever the faults and whatever the others
      do, a live probe's control plane still carries the operator's finalizer, or
      the finalizer was let go with the probe endpoint unset or by a recorded
      fail-open at fifteen minutes or later. And no cluster ever has two listed probes. */
  lemma NoOrphansEver(events: seq<Event>)
    ensures AtMostOne(Run(events).probes)
    ensures forall i, cid :: 0 <= i < |Run(events).probes| && Listed(Run(events).probes[i], cid) ==>
      Owned(Run(events), cid) || LetGo(Run(events), cid)
  {
    RunSafe(events);
    var w := Run(events);
    forall i, cid | 0 <= i < |w.probes| && Listed(w.probes[i], cid) ensures Owned(w, cid) || LetGo(w, cid) {
      assert Covered(w, cid);
    }
  }
}
