/** pkg/dynatrace and its use by the hosted control plane controller: the HTTP
    monitors Dynatrace keeps for clusters, listed, pruned, deleted and created
    through calls that may fail with or without having taken effect. */
module Dynatrace {
  import opened Base
  import opened KubeStore

  datatype Monitor = Monitor(cluster: string, locations: seq<string>)

  /** The stored monitors by entity ID. */
  type Monitors = map<string, Monitor>

  datatype Call = FindLocation | ListOf(cid: string) | Fetch(id: string) | Remove(id: string) | Post(cid: string)

  type Oracle = nat -> Fault

  /** The monitors tagged with a cluster. */
  function Of(m: Monitors, cid: string): set<string> { set id | id in m && m[id].cluster == cid }

  predicate Distinct(ids: seq<string>) { forall i, j :: 0 <= i < j < |ids| ==> ids[i] != ids[j] }

  /** A listing names the cluster's monitors, each once, in any order. */
  predicate Lists(m: Monitors, cid: string, ids: seq<string>) {
    Distinct(ids) && (forall i :: 0 <= i < |ids| ==> ids[i] in Of(m, cid)) && forall id :: id in Of(m, cid) ==> id in ids
  }

  /** The IDs whose deletion, the calls from number `base` on, never took effect. */
  function Kept(f: Oracle, base: nat, ids: seq<string>): set<string> {
    set i | 0 <= i < |ids| && f(base + i).Lost? :: ids[i]
  }

  function Removals(ids: seq<string>): (calls: seq<Call>)
    ensures |calls| == |ids|
  {
    seq(|ids|, i requires 0 <= i < |ids| => Remove(ids[i]))
  }

  /** Every monitor of the list is gone unless its deletion left it, and no other one is touched. */
  ghost predicate Pruned(before: Monitors, after: Monitors, f: Oracle, base: nat, ids: seq<string>) {
    forall id :: (id in after <==> id in before && (id in ids ==> id in Kept(f, base, ids)))
      && (id in after ==> after[id] == before[id])
  }

  /** Conservation: pruning all but the first of a cluster's monitors leaves the first
      and the kept ones, and the other clusters' monitors. */
  lemma PruneConserves(before: Monitors, after: Monitors, f: Oracle, base: nat, cid: string, ids: seq<string>)
    requires Lists(before, cid, ids) && ids != [] && Pruned(before, after, f, base, ids[1..])
    ensures Of(after, cid) == {ids[0]} + Kept(f, base, ids[1..]) && ids[0] !in Kept(f, base, ids[1..])
    ensures |Of(after, cid)| == 1 + |Kept(f, base, ids[1..])|
    ensures forall other :: other != cid ==> Of(after, other) == Of(before, other)
  {
    var kept := Kept(f, base, ids[1..]);
    assert forall k :: 0 <= k < |ids[1..]| ==> ids[1..][k] == ids[k + 1];
    assert ids[0] !in ids[1..];
    forall id ensures id in Of(after, cid) <==> id == ids[0] || id in kept {
      if id in kept {
        var i :| 0 <= i < |ids[1..]| && f(base + i).Lost? && ids[1..][i] == id;
        assert id == ids[i + 1] && id in Of(before, cid);
      }
      if id in Of(before, cid) && id != ids[0] {
        var j :| 0 <= j < |ids| && ids[j] == id;
        assert ids[1..][j - 1] == id;
      }
    }
    assert Of(after, cid) == {ids[0]} + kept;
    forall other | other != cid ensures Of(after, other) == Of(before, other) {
      forall id ensures id in Of(after, other) <==> id in Of(before, other) {
        if id in ids[1..] {
          var j :| 0 <= j < |ids[1..]| && ids[1..][j] == id;
          assert ids[j + 1] == id && id in Of(before, cid);
        }
      }
    }
  }

  /** Exactly the first `n` IDs of the list are gone. */
  ghost predicate DeletedFirst(before: Monitors, after: Monitors, ids: seq<string>, n: nat) {
    n <= |ids| && forall id :: (id in after <==> id in before && id !in ids[..n]) && (id in after ==> after[id] == before[id])
  }

  lemma RemovalsStep(calls: seq<Call>, ids: seq<string>, i: nat)
    requires i < |ids|
    ensures calls + Removals(ids[..i + 1]) == calls + Removals(ids[..i]) + [Remove(ids[i])]
    ensures |calls + Removals(ids[..i])| == |calls| + i
  {
    assert Removals(ids[..i + 1]) == Removals(ids[..i]) + [Remove(ids[i])];
  }

  /** The API client and the store behind it. */
  class DynatraceApiClient {
    var monitors: Monitors
    var log: seq<Call>

    constructor (monitors: Monitors)
      ensures this.monitors == monitors && log == []
    {
      this.monitors, log := monitors, [];
    }

    method ListForCluster(f: Oracle, cid: string) returns (ids: Option<seq<string>>)
      modifies this`log
      ensures log == old(log) + [ListOf(cid)] && (ids.Some? <==> f(old(|log|)).NoFault?)
      ensures ids.Some? ==> Lists(monitors, cid, ids.value)
    {
      var fault := f(|log|);
      log := log + [ListOf(cid)];
      if !fault.NoFault? { return None; }
      var listed, rest := [], Of(monitors, cid);
      while rest != {}
        invariant rest <= Of(monitors, cid) && Distinct(listed)
        invariant forall i :: 0 <= i < |listed| ==> listed[i] in Of(monitors, cid) && listed[i] !in rest
        invariant forall id :: id in Of(monitors, cid) && id !in rest ==> id in listed
        decreases |rest|
      {
        var id :| id in rest;
        rest := rest - {id};
        listed := listed + [id];
      }
      ids := Some(listed);
    }

    method DeleteSingleMonitor(f: Oracle, id: string) returns (ok: bool)
      modifies this
      ensures log == old(log) + [Remove(id)]
      ensures monitors == if f(old(|log|)).Lost? then old(monitors) else old(monitors) - {id}
      ensures ok <==> f(old(|log|)).NoFault? && id in old(monitors)
    {
      var fault := f(|log|);
      log := log + [Remove(id)];
      ok := fault.NoFault? && id in monitors;
      if !fault.Lost? { monitors := monitors - {id}; }
    }

    method GetMonitor(f: Oracle, id: string) returns (monitor: Option<Monitor>)
      modifies this`log
      ensures log == old(log) + [Fetch(id)]
      ensures monitor == if f(old(|log|)).NoFault? && id in monitors then Some(monitors[id]) else None
    {
      var fault := f(|log|);
      log := log + [Fetch(id)];
      monitor := if fault.NoFault? && id in monitors then Some(monitors[id]) else None;
    }

    /** The service chooses the new ID; one in use is no answer. */
    method CreateMonitor(f: Oracle, id: string, cid: string, location: string) returns (ok: bool)
      modifies this
      ensures log == old(log) + [Post(cid)]
      ensures ok <==> f(old(|log|)).NoFault? && id !in old(monitors)
      ensures monitors == if f(old(|log|)).Lost? || id in old(monitors) then old(monitors)
                          else old(monitors)[id := Monitor(cid, [location])]
    {
      var fault := f(|log|);
      log := log + [Post(cid)];
      ok := fault.NoFault? && id !in monitors;
      if !fault.Lost? && id !in monitors { monitors := monitors[id := Monitor(cid, [location])]; }
    }

    /** removeDyntraceMonitors: every deletion is attempted whatever the ones before it gave. */
    method RemoveMonitors(f: Oracle, ids: seq<string>) returns (errors: nat)
      requires Distinct(ids)
      modifies this
      ensures log == old(log) + Removals(ids)
      ensures Pruned(old(monitors), monitors, f, old(|log|), ids)
    {
      ghost var before, calls := monitors, log;
      errors := 0;
      for i := 0 to |ids|
        invariant log == calls + Removals(ids[..i])
        invariant Pruned(before, monitors, f, |calls|, ids[..i])
      {
        PrunedStep(before, monitors, f, |calls|, ids, i);
        RemovalsStep(calls, ids, i);
        ghost var next := if f(|calls| + i).Lost? then monitors else monitors - {ids[i]};
        assert Pruned(before, next, f, |calls|, ids[..i + 1]);
        var ok := DeleteSingleMonitor(f, ids[i]);
        assert monitors == next;
        if !ok { errors := errors + 1; }
      }
      assert ids[..|ids|] == ids;
    }

    /** DeleteDynatraceMonitorByCluserId: it stops at the first deletion that fails. */
    method DeleteByCluster(f: Oracle, cid: string) returns (ok: bool, ghost attempted: seq<string>)
      modifies this
      ensures ok ==> Of(monitors, cid) == {} && Of(old(monitors), cid) !! monitors.Keys
      ensures forall id :: id in monitors ==> id in old(monitors) && monitors[id] == old(monitors)[id]
      ensures forall id :: id in old(monitors) && id !in monitors ==> id in attempted && id in Of(old(monitors), cid)
      ensures log == old(log) + [ListOf(cid)] + Removals(attempted)
      ensures forall k :: old(|log|) < k < |log| - 1 ==> f(k).NoFault?
    {
      attempted := [];
      var listed := ListForCluster(f, cid);
      if listed.None? { return false, []; }
      ghost var before, calls := monitors, log;
      for i := 0 to |listed.value|
        invariant attempted == listed.value[..i] && log == calls + Removals(attempted)
        invariant forall k :: |calls| <= k < |log| ==> f(k).NoFault?
        invariant DeletedFirst(before, monitors, listed.value, i)
      {
        RemovalsStep(calls, listed.value, i);
        ok := DeleteSingleMonitor(f, listed.value[i]);
        attempted := listed.value[..i + 1];
        if !ok { return; }
      }
      assert listed.value[..|listed.value|] == listed.value;
      assert forall id :: id in Of(before, cid) ==> id !in monitors;
      ok := true;
    }

    /** deployDynatraceHttpMonitorResources. The location is looked up by region and
        endpoint access; the new monitor's ID is the service's choice. */
    method Deploy(f: Oracle, host: Option<string>, region: Option<string>, location: Option<string>, cid: string, newId: string)
      returns (ok: bool)
      modifies this
      ensures ok ==> location.Some? && exists id :: id in Of(monitors, cid) && location.value in monitors[id].locations
      ensures ok ==> exists ids ::
        Lists(old(monitors), cid, ids)
        && |Of(monitors, cid)| == 1 + |if ids == [] then {} else Kept(f, old(|log|) + 2, ids[1..])|
        && old(log) + [FindLocation, ListOf(cid)] + (if ids == [] then [] else Removals(ids[1..])) <= log
      ensures forall other :: other != cid ==> Of(monitors, other) == Of(old(monitors), other)
    {
      if host.None? || region.None? { return false; }
      log := log + [FindLocation];
      if location.None? || cid == "" { return false; }
      var listed := ListForCluster(f, cid);
      if listed.None? { return false; }
      var ids := listed.value;
      if ids != [] {
        ok := Reuse(f, ids, location.value, cid, newId);
        return;
      }
      assert Of(monitors, cid) == {};
      ghost var before := monitors;
      ok := CreateMonitor(f, newId, cid, location.value);
      if newId !in before { PostedOf(before, newId, cid, location.value); }
    }

    /** The part for a cluster that has monitors already. */
    method Reuse(f: Oracle, ids: seq<string>, location: string, cid: string, newId: string) returns (ok: bool)
      requires Lists(monitors, cid, ids) && ids != []
      modifies this
      ensures ok ==> exists id :: id in Of(monitors, cid) && location in monitors[id].locations
      ensures ok ==> |Of(monitors, cid)| == 1 + |Kept(f, old(|log|), ids[1..])|
      ensures old(log) + Removals(ids[1..]) <= log
      ensures forall other :: other != cid ==> Of(monitors, other) == Of(old(monitors), other)
    {
      var errors := RemoveMonitors(f, ids[1..]);
      PruneConserves(old(monitors), monitors, f, old(|log|), cid, ids);
      var existing := GetMonitor(f, ids[0]);
      if existing.None? { return false; }
      if location in existing.value.locations {
        assert ids[0] in Of(monitors, cid);
        return true;
      }
      ok := Recreate(f, ids[0], cid, location, newId);
    }

    /** A monitor in the wrong location is deleted and a new one created. */
    method Recreate(f: Oracle, id: string, cid: string, location: string, newId: string) returns (ok: bool)
      requires id in Of(monitors, cid)
      modifies this
      ensures ok ==> newId in Of(monitors, cid) && location in monitors[newId].locations
      ensures ok ==> |Of(monitors, cid)| == |Of(old(monitors), cid)|
      ensures old(log) <= log
      ensures forall other :: other != cid ==> Of(monitors, other) == Of(old(monitors), other)
    {
      RemovedOf(monitors, id, cid);
      ok := DeleteSingleMonitor(f, id);
      if !ok { return; }
      ghost var rest := monitors;
      ok := CreateMonitor(f, newId, cid, location);
      if newId !in rest { PostedOf(rest, newId, cid, location); }
    }
  }

  lemma RemovedOf(m: Monitors, id: string, cid: string)
    requires id in Of(m, cid)
    ensures Of(m - {id}, cid) == Of(m, cid) - {id}
    ensures forall other :: other != cid ==> Of(m - {id}, other) == Of(m, other)
  {
    forall other | other != cid ensures Of(m - {id}, other) == Of(m, other) {}
  }

  lemma PostedOf(m: Monitors, id: string, cid: string, location: string)
    requires id !in m
    ensures var n := m[id := Monitor(cid, [location])];
      Of(n, cid) == Of(m, cid) + {id} && |Of(n, cid)| == |Of(m, cid)| + 1
      && forall other :: other != cid ==> Of(n, other) == Of(m, other)
  {
    var n := m[id := Monitor(cid, [location])];
    assert Of(n, cid) == Of(m, cid) + {id};
    forall other | other != cid ensures Of(n, other) == Of(m, other) {}
  }

  /** One more deletion of a pruning. */
  lemma PrunedStep(before: Monitors, now: Monitors, f: Oracle, base: nat, ids: seq<string>, i: nat)
    requires Distinct(ids) && i < |ids| && Pruned(before, now, f, base, ids[..i])
    ensures Pruned(before, if f(base + i).Lost? then now else now - {ids[i]}, f, base, ids[..i + 1])
  {
    var a, b := Kept(f, base, ids[..i]), Kept(f, base, ids[..i + 1]);
    assert ids[..i + 1] == ids[..i] + [ids[i]];
    forall id ensures id in b <==> id in a || (id == ids[i] && f(base + i).Lost?) {
      if id in a {
        var k :| 0 <= k < i && f(base + k).Lost? && ids[..i][k] == id;
        assert ids[..i + 1][k] == id;
      }
      if id == ids[i] && f(base + i).Lost? { assert ids[..i + 1][i] == id; }
    }
    assert ids[i] !in ids[..i];
  }
}
