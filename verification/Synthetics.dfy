/** controllers/hostedcontrolplane/synthetics.go: keeping the RHOBS probe of a
    hosted control plane in line with the control plane. */
module Synthetics {
  import opened Base
  import opened KubeStore
  import opened Rhobs

  /** The configuration one reconcile runs with; the probe endpoint is set or not. */
  datatype Config = Config(apiUrl: bool, onlyPublic: bool, skipInfra: bool, interval: int, dynatrace: bool)

  /** What the control plane says of itself at one reconcile. Anyone may edit
      these fields between two reconciles. `hostedCluster` is the limited-support
      label of the HostedCluster, when there is one. */
  datatype Facts = Facts(private: bool, limitedSupport: bool, hostedCluster: Option<bool>,
                         hostname: Option<string>, region: string)

  function BoolText(b: bool): string { if b then "true" else "false" }

  /** isPrivateProbe. */
  predicate SaysPrivate(labels: Labels) { Private in labels && labels[Private] == "true" }

  predicate SaysRegion(labels: Labels, region: string) { Region in labels && labels[Region] == region }

  /** NewClusterProbeRequest; `stamp` is the formatted time of the pass. */
  function ClusterLabels(cid: string, facts: Facts, stamp: string): Labels {
    map[ClusterId := cid, Private := BoolText(facts.private), Region := facts.region, LastReconciled := stamp]
  }

  /** The control plane's limited-support label counts unless the HostedCluster was read without it. */
  function LimitedSupport(r: Remote, f: Oracle, facts: Facts): (res: (Remote, bool))
    ensures r.log <= res.0.log
  {
    if !facts.limitedSupport then (r, false)
    else
      var read := f(|r.log|).fault.NoFault? && facts.hostedCluster.Some?;
      (r.(log := r.log + [GetHostedCluster]), !read || facts.hostedCluster.value)
  }

  /** A limited-support cluster loses its probe. */
  function DropProbe(r: Remote, f: Oracle, cid: string): (res: (Remote, Option<Error>))
    ensures r.log <= res.0.log
  {
    var (r1, found) := GetProbe(r, f, cid);
    match found
    case Err(e) => (r1, Some(Wrap("failed to check existing probe", e)))
    case Ok(None) => (r1, None)
    case Ok(Some(_)) =>
      var (r2, err) := DeleteProbe(r1, f, cid);
      (r2, if err.Some? then Some(Wrap("failed to delete probe for limited support cluster", err.value)) else None)
  }

  function NewProbe(r: Remote, f: Oracle, cid: string, facts: Facts, host: string, stamp: string): (res: (Remote, Option<Error>))
    ensures r.log <= res.0.log
  {
    if facts.region == "" then (r, Some(Wrap("failed to get cluster region", Root("aws region is not set"))))
    else
      var (r1, res) := CreateProbe(r, f, "https://" + host + "/livez", ClusterLabels(cid, facts, stamp));
      (r1, if res.Err? then Some(Wrap("failed to create RHOBS probe", res.error)) else None)
  }

  /** Replace a probe that cannot be corrected in place. */
  function Replace(r: Remote, f: Oracle, cid: string, facts: Facts, host: string, stamp: string, why: string): (res: (Remote, Option<Error>))
    ensures r.log <= res.0.log
  {
    var (r1, err) := DeleteProbe(r, f, cid);
    if err.Some? then (r1, Some(Wrap(why, err.value))) else NewProbe(r1, f, cid, facts, host, stamp)
  }

  /** Validate a probe that is there: heartbeat first, then private label, then region. */
  function Refresh(r: Remote, f: Oracle, cid: string, facts: Facts, host: string, stamp: string, v: View): (res: (Remote, Option<Error>))
    ensures r.log <= res.0.log
  {
    var (r1, beat) := UpdateProbeLabels(r, f, v.id, map[LastReconciled := stamp]);
    if facts.region == "" then (r1, Some(Wrap("failed to get cluster region", Root("aws region is not set"))))
    else
      var privateMatches := Private in v.labels && SaysPrivate(v.labels) == facts.private;
      if privateMatches && SaysRegion(v.labels, facts.region) then
        (r1, if beat.Some? then Some(Wrap("probe labels match but heartbeat update failed", beat.value)) else None)
      else if !privateMatches then
        Replace(r1, f, cid, facts, host, stamp, "failed to delete probe for private label correction")
      else
        var (r2, err) := UpdateProbeLabels(r1, f, v.id, map[ClusterId := cid, Region := facts.region, LastReconciled := stamp]);
        (r2, if err.Some? then Some(Wrap("failed to update RHOBS probe labels", err.value)) else None)
  }

  /** The part of ensureRHOBSProbe that applies to monitored clusters. */
  function Maintain(r: Remote, f: Oracle, cid: string, facts: Facts, host: string, stamp: string): (res: (Remote, Option<Error>))
    ensures r.log <= res.0.log
  {
    var (r1, found) := GetProbe(r, f, cid);
    match found
    case Err(e) => (r1, Some(Wrap("failed to check existing probe", e)))
    case Ok(None) => NewProbe(r1, f, cid, facts, host, stamp)
    case Ok(Some(v)) =>
      if v.status.Failed? then Replace(r1, f, cid, facts, host, stamp, "failed to delete failed probe")
      else Refresh(r1, f, cid, facts, host, stamp, v)
  }

  /** ensureRHOBSProbe. */
  function EnsureProbe(r: Remote, f: Oracle, cfg: Config, cid: string, facts: Facts, stamp: string): (res: (Remote, Option<Error>))
    ensures r.log <= res.0.log
  {
    if cid == "" then (r, Some(Root("cluster ID is empty")))
    else
      var (r1, limited) := LimitedSupport(r, f, facts);
      if limited then DropProbe(r1, f, cid)
      else if cfg.onlyPublic && facts.private then (r1, None)
      else if facts.hostname.None? then
        (r1, Some(Wrap("failed to get API server hostname", Root("APIServer route hostname not found"))))
      else Maintain(r1, f, cid, facts, facts.hostname.value, stamp)
  }

  /** deleteRHOBSProbe. */
  function DeleteClusterProbe(r: Remote, f: Oracle, cid: string): (res: (Remote, Option<Error>))
    ensures r.log <= res.0.log
  {
    if cid == "" then (r, Some(Root("cluster ID is empty")))
    else
      var (r1, err) := DeleteProbe(r, f, cid);
      (r1, if err.Some? then Some(Wrap("failed to delete RHOBS probe for cluster " + cid, err.value)) else None)
  }

  /** What a pass over one cluster keeps: one listed probe per cluster, and no
      other cluster gains a live probe. */
  ghost predicate Keeps(ps: Probes, qs: Probes, cid: string) {
    AtMostOne(qs) && ShrinksBut(ps, qs, cid)
  }

  lemma KeepsTransitive(ps: Probes, qs: Probes, rs: Probes, cid: string)
    requires ShrinksBut(ps, qs, cid) && Keeps(qs, rs, cid)
    ensures Keeps(ps, rs, cid)
  {
  }

  lemma NewProbeKeeps(r: Remote, f: Oracle, cid: string, facts: Facts, host: string, stamp: string)
    requires AtMostOne(r.probes) && NoneListed(r.probes, cid)
    ensures Keeps(r.probes, NewProbe(r, f, cid, facts, host, stamp).0.probes, cid)
  {
    if facts.region != "" {
      CreateKeepsAtMostOne(r, f, "https://" + host + "/livez", ClusterLabels(cid, facts, stamp), cid);
    }
  }

  lemma ReplaceKeeps(r: Remote, f: Oracle, cid: string, facts: Facts, host: string, stamp: string, why: string)
    requires AtMostOne(r.probes)
    ensures Keeps(r.probes, Replace(r, f, cid, facts, host, stamp, why).0.probes, cid)
  {
    DeleteLeavesNone(r, f, cid);
    var (r1, err) := DeleteProbe(r, f, cid);
    if err.None? {
      NewProbeKeeps(r1, f, cid, facts, host, stamp);
      KeepsTransitive(r.probes, r1.probes, NewProbe(r1, f, cid, facts, host, stamp).0.probes, cid);
    }
  }

  lemma RefreshKeeps(r: Remote, f: Oracle, cid: string, facts: Facts, host: string, stamp: string, v: View)
    requires AtMostOne(r.probes) && v.id < |r.probes| && HasCluster(r.probes[v.id], cid)
    ensures Keeps(r.probes, Refresh(r, f, cid, facts, host, stamp, v).0.probes, cid)
  {
    var r1 := UpdateProbeLabels(r, f, v.id, map[LastReconciled := stamp]).0;
    HeartbeatKeeps(r, f, v.id, cid, stamp);
    if facts.region != "" {
      if !(Private in v.labels && SaysPrivate(v.labels) == facts.private) {
        var why := "failed to delete probe for private label correction";
        ReplaceKeeps(r1, f, cid, facts, host, stamp, why);
        KeepsTransitive(r.probes, r1.probes, Replace(r1, f, cid, facts, host, stamp, why).0.probes, cid);
      } else if !SaysRegion(v.labels, facts.region) {
        var regional: Labels := map[ClusterId := cid, Region := facts.region, LastReconciled := stamp];
        LabelsKeepAtMostOne(r1, f, v.id, regional);
        KeepsTransitive(r.probes, r1.probes, UpdateProbeLabels(r1, f, v.id, regional).0.probes, cid);
      }
    }
  }

  lemma HeartbeatKeeps(r: Remote, f: Oracle, id: nat, cid: string, stamp: string)
    requires AtMostOne(r.probes) && id < |r.probes| && HasCluster(r.probes[id], cid)
    ensures var ps := UpdateProbeLabels(r, f, id, map[LastReconciled := stamp]).0.probes;
      Keeps(r.probes, ps, cid) && |ps| == |r.probes| && HasCluster(ps[id], cid)
  {
    LabelsKeepAtMostOne(r, f, id, map[LastReconciled := stamp]);
  }

  lemma MaintainKeeps(r: Remote, f: Oracle, cid: string, facts: Facts, host: string, stamp: string)
    requires AtMostOne(r.probes)
    ensures Keeps(r.probes, Maintain(r, f, cid, facts, host, stamp).0.probes, cid)
  {
    var (r1, found) := GetProbe(r, f, cid);
    if found.Ok? {
      if found.value.None? {
        NewProbeKeeps(r1, f, cid, facts, host, stamp);
      } else if found.value.value.status.Failed? {
        ReplaceKeeps(r1, f, cid, facts, host, stamp, "failed to delete failed probe");
      } else {
        RefreshKeeps(r1, f, cid, facts, host, stamp, found.value.value);
      }
    }
  }

  lemma DropKeeps(r: Remote, f: Oracle, cid: string)
    requires AtMostOne(r.probes)
    ensures var (r1, err) := DropProbe(r, f, cid);
      Keeps(r.probes, r1.probes, cid) && (err.None? ==> NoneListed(r1.probes, cid))
  {
    DeleteLeavesNone(GetProbe(r, f, cid).0, f, cid);
  }

  /** One listed probe per cluster is kept by every pass, whatever the faults; and
      only the pass's own cluster can gain a live probe. */
  lemma EnsureProbeKeeps(r: Remote, f: Oracle, cfg: Config, cid: string, facts: Facts, stamp: string)
    requires AtMostOne(r.probes)
    ensures Keeps(r.probes, EnsureProbe(r, f, cfg, cid, facts, stamp).0.probes, cid)
  {
    var (r1, limited) := LimitedSupport(r, f, facts);
    if cid != "" {
      if limited {
        DropKeeps(r1, f, cid);
      } else if !(cfg.onlyPublic && facts.private) && facts.hostname.Some? {
        MaintainKeeps(r1, f, cid, facts, facts.hostname.value, stamp);
      }
    }
  }

  /** A pass over a limited-support cluster that reports no error leaves it without a
      listed probe, and sends no POST. */
  lemma LimitedSupportLosesProbe(r: Remote, f: Oracle, cfg: Config, cid: string, facts: Facts, stamp: string)
    requires AtMostOne(r.probes) && cid != "" && LimitedSupport(r, f, facts).1
    ensures var (r1, err) := EnsureProbe(r, f, cfg, cid, facts, stamp);
      (err.None? ==> NoneListed(r1.probes, cid))
      && forall i :: |r.log| <= i < |r1.log| ==> !r1.log[i].ProbePost?
  {
    DropKeeps(LimitedSupport(r, f, facts).0, f, cid);
    DropPostsNothing(LimitedSupport(r, f, facts).0, f, cid);
  }

  lemma DropPostsNothing(r: Remote, f: Oracle, cid: string)
    ensures var log := DropProbe(r, f, cid).0.log;
      r.log <= log && forall i :: |r.log| <= i < |log| ==> !log[i].ProbePost?
  {
  }

  /** A pass that starts here maintains the cluster's probe. A limited-support label
      that the HostedCluster was read without is stale and does not count. */
  predicate Monitored(r: Remote, f: Oracle, cfg: Config, cid: string, facts: Facts) {
    cid != "" && !LimitedSupport(r, f, facts).1 && !(cfg.onlyPublic && facts.private) && facts.hostname.Some? && facts.region != ""
  }

  /** The probe agrees with the control plane and was refreshed in the pass stamped `stamp`. */
  predicate UpToDate(p: Probe, cid: string, facts: Facts, stamp: string) {
    Listed(p, cid) && Private in p.labels && SaysPrivate(p.labels) == facts.private
    && SaysRegion(p.labels, facts.region) && LastReconciled in p.labels && p.labels[LastReconciled] == stamp
  }

  ghost predicate OneUpToDate(ps: Probes, cid: string, facts: Facts, stamp: string) {
    exists i :: 0 <= i < |ps| && UpToDate(ps[i], cid, facts, stamp) && OthersUnlisted(ps, i, cid)
  }

  predicate OthersUnlisted(ps: Probes, id: int, cid: string) {
    forall j :: 0 <= j < |ps| && j != id ==> !Listed(ps[j], cid)
  }

  /** The call that answers 409 in a pass, if any. */
  ghost predicate Conflicts(before: seq<Call>, after: seq<Call>, f: Oracle) {
    exists i :: |before| <= i < |after| && after[i].ProbePost? && f(i).http.Answer? && f(i).http.status == 409
  }

  lemma NewProbeConverges(r: Remote, f: Oracle, cid: string, facts: Facts, host: string, stamp: string)
    requires AtMostOne(r.probes) && NoneListed(r.probes, cid)
    ensures var (r1, err) := NewProbe(r, f, cid, facts, host, stamp);
      r.log <= r1.log && (err.None? ==> Conflicts(r.log, r1.log, f) || OneUpToDate(r1.probes, cid, facts, stamp))
  {
    if facts.region != "" {
      var labels := ClusterLabels(cid, facts, stamp);
      CreateKeepsAtMostOne(r, f, "https://" + host + "/livez", labels, cid);
      var (r1, res) := CreateProbe(r, f, "https://" + host + "/livez", labels);
      assert r1.log[|r.log|].ProbePost?;
      if res == Ok(New) {
        assert UpToDate(r1.probes[|r.probes|], cid, facts, stamp);
      }
    }
  }

  lemma ReplaceConverges(r: Remote, f: Oracle, cid: string, facts: Facts, host: string, stamp: string, why: string)
    requires AtMostOne(r.probes)
    ensures var (r1, err) := Replace(r, f, cid, facts, host, stamp, why);
      r.log <= r1.log && (err.None? ==> Conflicts(r.log, r1.log, f) || OneUpToDate(r1.probes, cid, facts, stamp))
  {
    DeleteLeavesNone(r, f, cid);
    var (r1, err) := DeleteProbe(r, f, cid);
    if err.None? { NewProbeConverges(r1, f, cid, facts, host, stamp); }
  }

  /** A successful label PATCH of the one listed probe leaves it up to date if the merged labels are. */
  lemma PatchUpdates(r: Remote, f: Oracle, id: nat, labels: Labels, cid: string, facts: Facts, stamp: string)
    requires id < |r.probes| && UpdateProbeLabels(r, f, id, labels).1.None?
    requires OthersUnlisted(r.probes, id, cid)
    requires !r.probes[id].status.Absent? ==> UpToDate(Changed(r.probes[id], SetLabels(labels)), cid, facts, stamp)
    ensures OneUpToDate(UpdateProbeLabels(r, f, id, labels).0.probes, cid, facts, stamp)
  {
    var ps := UpdateProbeLabels(r, f, id, labels).0.probes;
    assert UpToDate(ps[id], cid, facts, stamp);
  }

  /** The region PATCH, sent after a heartbeat that may have failed. */
  lemma RegionConverges(r: Remote, f: Oracle, id: nat, cid: string, facts: Facts, stamp: string)
    requires id < |r.probes| && Listed(r.probes[id], cid) && OthersUnlisted(r.probes, id, cid)
    requires Private in r.probes[id].labels && SaysPrivate(r.probes[id].labels) == facts.private
    ensures var r1 := UpdateProbeLabels(r, f, id, map[LastReconciled := stamp]).0;
      var regional := map[ClusterId := cid, Region := facts.region, LastReconciled := stamp];
      UpdateProbeLabels(r1, f, id, regional).1.None?
      ==> OneUpToDate(UpdateProbeLabels(r1, f, id, regional).0.probes, cid, facts, stamp)
  {
    var heartbeat: Labels := map[LastReconciled := stamp];
    var regional: Labels := map[ClusterId := cid, Region := facts.region, LastReconciled := stamp];
    var r1 := UpdateProbeLabels(r, f, id, heartbeat).0;
    var labels := r1.probes[id].labels;
    assert labels == r.probes[id].labels || labels == r.probes[id].labels + heartbeat;
    assert SaysPrivate(labels + regional) == facts.private && SaysRegion(labels + regional, facts.region);
    if UpdateProbeLabels(r1, f, id, regional).1.None? {
      PatchedIsThere(r1, f, id, regional);
      PatchUpdates(r1, f, id, regional, cid, facts, stamp);
    }
  }

  lemma PatchedIsThere(r: Remote, f: Oracle, id: nat, labels: Labels)
    requires id < |r.probes| && UpdateProbeLabels(r, f, id, labels).1.None?
    ensures !r.probes[id].status.Absent?
  {
  }

  lemma RefreshConverges(r: Remote, f: Oracle, cid: string, facts: Facts, host: string, stamp: string, v: View)
    requires AtMostOne(r.probes) && v.id < |r.probes| && Listed(r.probes[v.id], cid) && v.labels == r.probes[v.id].labels
    requires facts.region != ""
    ensures var (r1, err) := Refresh(r, f, cid, facts, host, stamp, v);
      r.log <= r1.log && (err.None? ==> Conflicts(r.log, r1.log, f) || OneUpToDate(r1.probes, cid, facts, stamp))
  {
    var heartbeat: Labels := map[LastReconciled := stamp];
    var (r1, beat) := UpdateProbeLabels(r, f, v.id, heartbeat);
    OneIsTheOnly(r.probes, v.id, cid);
    if !(Private in v.labels && SaysPrivate(v.labels) == facts.private) {
      LabelsKeepAtMostOne(r, f, v.id, heartbeat);
      ReplaceConverges(r1, f, cid, facts, host, stamp, "failed to delete probe for private label correction");
      ConflictsLater(r.log, r1.log, Refresh(r, f, cid, facts, host, stamp, v).0.log, f);
    } else if SaysRegion(v.labels, facts.region) {
      if beat.None? { PatchUpdates(r, f, v.id, heartbeat, cid, facts, stamp); }
    } else {
      RegionConverges(r, f, v.id, cid, facts, stamp);
    }
  }

  lemma ConflictsLater(a: seq<Call>, b: seq<Call>, c: seq<Call>, f: Oracle)
    requires a <= b
    ensures Conflicts(b, c, f) ==> Conflicts(a, c, f)
  {
  }

  lemma OneIsTheOnly(ps: Probes, id: nat, cid: string)
    requires AtMostOne(ps) && id < |ps| && Listed(ps[id], cid)
    ensures OthersUnlisted(ps, id, cid)
  {
    forall j | 0 <= j < |ps| && j != id ensures !Listed(ps[j], cid) {
      if j < id { assert Listed(ps[id], cid); }
    }
  }

  /** One pass converges: for a monitored cluster a pass that reports no error, and
      met no 409, leaves exactly one listed probe, whose private label and region
      agree with the control plane and whose heartbeat was written in this pass. */
  lemma OnePassConverges(r: Remote, f: Oracle, cfg: Config, cid: string, facts: Facts, stamp: string)
    requires AtMostOne(r.probes) && Monitored(r, f, cfg, cid, facts)
    ensures var (r1, err) := EnsureProbe(r, f, cfg, cid, facts, stamp);
      err.None? ==> Conflicts(r.log, r1.log, f) || OneUpToDate(r1.probes, cid, facts, stamp)
  {
    var r0 := LimitedSupport(r, f, facts).0;
    var (r1, found) := GetProbe(r0, f, cid);
    if found.Ok? {
      var host := facts.hostname.value;
      match found.value
      case None => NewProbeConverges(r1, f, cid, facts, host, stamp);
      case Some(v) =>
        ReplaceConverges(r1, f, cid, facts, host, stamp, "failed to delete failed probe");
        RefreshConverges(r1, f, cid, facts, host, stamp, v);
    }
  }

  /** A probe call got an answer that reports success for its kind of call. */
  predicate Succeeds(c: Call, reply: Reply) {
    match c
    case ProbeGet(_) => reply.http.Answer? && reply.http.status in {200, 404} && !reply.garbled
    case ProbePost(_) => reply.http.Answer? && reply.http.status in {200, 201} && !reply.garbled
    case ProbePatch(_, _) => reply.http.Answer? && reply.http.status == 200
    case ProbeTerminate(_) => reply.http.Answer? && reply.http.status in {200, 204, 404}
    case _ => true
  }

  /** All probe calls of a log, from place `start` on, succeed. */
  predicate ProbesSucceed(log: seq<Call>, f: Oracle, start: nat) {
    forall i :: start <= i < |log| ==> Succeeds(log[i], f(i))
  }

  lemma SucceedEarlier(a: seq<Call>, b: seq<Call>, f: Oracle, start: nat)
    requires a <= b && ProbesSucceed(b, f, start)
    ensures ProbesSucceed(a, f, start)
  {
  }

  lemma SucceedLater(log: seq<Call>, f: Oracle, start: nat, later: nat)
    requires start <= later && ProbesSucceed(log, f, start)
    ensures ProbesSucceed(log, f, later)
  {
  }

  /** A pass whose probe calls all succeed reports no error. */
  lemma SucceedingPass(r: Remote, f: Oracle, cfg: Config, cid: string, facts: Facts, stamp: string)
    requires Monitored(r, f, cfg, cid, facts) && ProbesSucceed(EnsureProbe(r, f, cfg, cid, facts, stamp).0.log, f, |r.log|)
    ensures EnsureProbe(r, f, cfg, cid, facts, stamp).1.None?
  {
    var r0, host := LimitedSupport(r, f, facts).0, facts.hostname.value;
    var all := Maintain(r0, f, cid, facts, host, stamp).0.log;
    var (r1, found) := GetProbe(r0, f, cid);
    assert all[|r0.log|] == ProbeGet(cid);
    match found.value
    case None => SucceedingNew(r1, f, cid, facts, host, stamp);
    case Some(v) =>
      if v.status.Failed? { SucceedingReplace(r1, f, cid, facts, host, stamp, "failed to delete failed probe"); }
      else { SucceedingRefresh(r1, f, cid, facts, host, stamp, v); }
  }

  lemma SucceedingNew(r: Remote, f: Oracle, cid: string, facts: Facts, host: string, stamp: string)
    requires facts.region != "" && ProbesSucceed(NewProbe(r, f, cid, facts, host, stamp).0.log, f, |r.log|)
    ensures NewProbe(r, f, cid, facts, host, stamp).1.None?
  {
    assert NewProbe(r, f, cid, facts, host, stamp).0.log[|r.log|].ProbePost?;
  }

  lemma SucceedingDelete(r: Remote, f: Oracle, cid: string)
    requires ProbesSucceed(DeleteProbe(r, f, cid).0.log, f, |r.log|)
    ensures DeleteProbe(r, f, cid).1.None?
  {
    var log := DeleteProbe(r, f, cid).0.log;
    var (r1, found) := GetProbe(r, f, cid);
    assert log[|r.log|] == ProbeGet(cid);
    if found.value.Some? { assert log[|r1.log|].ProbeTerminate?; }
  }

  lemma SucceedingReplace(r: Remote, f: Oracle, cid: string, facts: Facts, host: string, stamp: string, why: string)
    requires facts.region != "" && ProbesSucceed(Replace(r, f, cid, facts, host, stamp, why).0.log, f, |r.log|)
    ensures Replace(r, f, cid, facts, host, stamp, why).1.None?
  {
    var r1 := DeleteProbe(r, f, cid).0;
    var log := Replace(r, f, cid, facts, host, stamp, why).0.log;
    assert r1.log <= log;
    SucceedEarlier(r1.log, log, f, |r.log|);
    SucceedingDelete(r, f, cid);
    SucceedLater(log, f, |r.log|, |r1.log|);
    SucceedingNew(r1, f, cid, facts, host, stamp);
  }

  lemma SucceedingPatch(r: Remote, f: Oracle, id: nat, labels: Labels)
    requires id < |r.probes| && !r.probes[id].status.Absent? && Succeeds(ProbePatch(id, labels), f(|r.log|))
    ensures var (r1, err) := UpdateProbeLabels(r, f, id, labels);
      err.None? && r1 == Remote(r.probes[id := r.probes[id].(labels := r.probes[id].labels + labels)], r.log + [ProbePatch(id, labels)])
  {
  }

  lemma SucceedingRefresh(r: Remote, f: Oracle, cid: string, facts: Facts, host: string, stamp: string, v: View)
    requires facts.region != "" && v.id < |r.probes| && !r.probes[v.id].status.Absent?
    requires ProbesSucceed(Refresh(r, f, cid, facts, host, stamp, v).0.log, f, |r.log|)
    ensures Refresh(r, f, cid, facts, host, stamp, v).1.None?
  {
    var heartbeat: Labels := map[LastReconciled := stamp];
    var regional: Labels := map[ClusterId := cid, Region := facts.region, LastReconciled := stamp];
    var log := Refresh(r, f, cid, facts, host, stamp, v).0.log;
    var r1 := UpdateProbeLabels(r, f, v.id, heartbeat).0;
    assert log[|r.log|] == ProbePatch(v.id, heartbeat);
    SucceedingPatch(r, f, v.id, heartbeat);
    SucceedLater(log, f, |r.log|, |r1.log|);
    if !(Private in v.labels && SaysPrivate(v.labels) == facts.private) {
      SucceedingReplace(r1, f, cid, facts, host, stamp, "failed to delete probe for private label correction");
    } else if !SaysRegion(v.labels, facts.region) {
      assert log[|r1.log|] == ProbePatch(v.id, regional);
      SucceedingPatch(r1, f, v.id, regional);
    }
  }

  lemma SuccessIsNoConflict(before: seq<Call>, after: seq<Call>, f: Oracle)
    requires ProbesSucceed(after, f, |before|)
    ensures !Conflicts(before, after, f)
  {
  }

  /** The pass after a converged one is idle: when its probe calls succeed and the
      probe has not failed it sends, after reading the HostedCluster if the
      limited-support label is set, one lookup and one heartbeat PATCH, and only the
      heartbeat changes. */
  lemma SecondPassIsIdle(r: Remote, f: Oracle, cfg: Config, cid: string, facts: Facts, stamp: string, stamp2: string)
    requires AtMostOne(r.probes) && Monitored(r, f, cfg, cid, facts)
    requires ProbesSucceed(EnsureProbe(r, f, cfg, cid, facts, stamp2).0.log, f, |r.log|)
    requires OneUpToDate(r.probes, cid, facts, stamp)
    requires forall i :: 0 <= i < |r.probes| && Listed(r.probes[i], cid) ==> !r.probes[i].status.Failed?
    ensures exists id: nat ::
      (id < |r.probes| && Listed(r.probes[id], cid)
       && EnsureProbe(r, f, cfg, cid, facts, stamp2)
          == (Remote(r.probes[id := r.probes[id].(labels := r.probes[id].labels[LastReconciled := stamp2])],
                     r.log + (if facts.limitedSupport then [GetHostedCluster] else []) + [ProbeGet(cid), ProbePatch(id, map[LastReconciled := stamp2])]),
              None))
  {
    var r0 := LimitedSupport(r, f, facts).0;
    assert r0 == r.(log := r.log + (if facts.limitedSupport then [GetHostedCluster] else []));
    var id := IdleMaintain(r0, f, cid, facts, facts.hostname.value, stamp, stamp2);
  }

  lemma IdleMaintain(r: Remote, f: Oracle, cid: string, facts: Facts, host: string, stamp: string, stamp2: string) returns (id: nat)
    requires AtMostOne(r.probes) && facts.region != ""
    requires ProbesSucceed(Maintain(r, f, cid, facts, host, stamp2).0.log, f, |r.log|)
    requires OneUpToDate(r.probes, cid, facts, stamp)
    requires forall i :: 0 <= i < |r.probes| && Listed(r.probes[i], cid) ==> !r.probes[i].status.Failed?
    ensures id < |r.probes| && Listed(r.probes[id], cid)
    ensures Maintain(r, f, cid, facts, host, stamp2)
      == (Remote(r.probes[id := r.probes[id].(labels := r.probes[id].labels[LastReconciled := stamp2])],
                 r.log + [ProbeGet(cid), ProbePatch(id, map[LastReconciled := stamp2])]),
          None)
  {
    id :| 0 <= id < |r.probes| && UpToDate(r.probes[id], cid, facts, stamp) && OthersUnlisted(r.probes, id, cid);
    var log := Maintain(r, f, cid, facts, host, stamp2).0.log;
    assert log[|r.log|] == ProbeGet(cid);
    var (r1, found) := GetProbe(r, f, cid);
    FoundIsTheOne(r, f, cid, id);
    RefreshIsIdle(r1, f, cid, facts, host, stamp2, found.value.value);
    assert r.log + [ProbeGet(cid)] + [ProbePatch(id, map[LastReconciled := stamp2])]
        == r.log + [ProbeGet(cid), ProbePatch(id, map[LastReconciled := stamp2])];
  }

  /** Validating a probe that agrees is one heartbeat. */
  lemma RefreshIsIdle(r: Remote, f: Oracle, cid: string, facts: Facts, host: string, stamp: string, v: View)
    requires facts.region != "" && v.id < |r.probes| && Live(r.probes[v.id]) && v.labels == r.probes[v.id].labels
    requires Private in v.labels && SaysPrivate(v.labels) == facts.private && SaysRegion(v.labels, facts.region)
    requires ProbesSucceed(Refresh(r, f, cid, facts, host, stamp, v).0.log, f, |r.log|)
    ensures Refresh(r, f, cid, facts, host, stamp, v)
      == (Remote(r.probes[v.id := r.probes[v.id].(labels := r.probes[v.id].labels[LastReconciled := stamp])],
                 r.log + [ProbePatch(v.id, map[LastReconciled := stamp])]), None)
  {
    var heartbeat: Labels := map[LastReconciled := stamp];
    assert Refresh(r, f, cid, facts, host, stamp, v).0.log[|r.log|] == ProbePatch(v.id, heartbeat);
    SucceedingPatch(r, f, v.id, heartbeat);
    assert r.probes[v.id].labels + heartbeat == r.probes[v.id].labels[LastReconciled := stamp];
  }

  /** A successful lookup finds the one listed probe. */
  lemma FoundIsTheOne(r: Remote, f: Oracle, cid: string, id: nat)
    requires id < |r.probes| && Listed(r.probes[id], cid) && OthersUnlisted(r.probes, id, cid)
    requires Succeeds(ProbeGet(cid), f(|r.log|))
    ensures var found := GetProbe(r, f, cid).1;
      found.Ok? && found.value.Some? && found.value.value.id == id
  {
  }
}
