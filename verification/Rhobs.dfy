/** pkg/rhobs/client.go: the probe calls of the RHOBS client, against a probe
    store that answers honestly but may fail any call before or after its effect. */
module Rhobs {
  import opened Base
  import opened Digits
  import opened KubeStore

  /** The label keys of a probe. */
  datatype LabelKey = ClusterId | Private | Region | LastReconciled | OtherLabel(key: string)

  type Labels = map<LabelKey, string>

  datatype ProbeStatus = Pending | Active | Failed | Terminating | Absent

  datatype Probe = Probe(url: string, labels: Labels, status: ProbeStatus)

  /** The probe store; a probe's ID is its position, and removed probes stay as markers. */
  type Probes = seq<Probe>

  /** A probe the service runs: not removed and not on its way out. */
  predicate Live(p: Probe) { !p.status.Terminating? && !p.status.Absent? }

  predicate HasCluster(p: Probe, cid: string) {
    ClusterId in p.labels && p.labels[ClusterId] == cid
  }

  predicate Listed(p: Probe, cid: string) { Live(p) && HasCluster(p, cid) }

  /** One HTTP exchange: a transport failure, or a status with a body. */
  datatype Http = NoAnswer(text: string) | Answer(status: int, body: string)

  /** The fate of one call. `fault` is read by Kubernetes calls. A probe call reads
      the rest: the HTTP answer, whether a request without a successful answer took
      effect all the same, and whether a successful body could not be parsed. */
  datatype Reply = Reply(fault: Fault, http: Http, applied: bool, garbled: bool)

  type Oracle = nat -> Reply

  /** Everything a controller sends, in order. */
  datatype Call =
    | GetHcp
    | PutHcp
    | CheckReadiness
    | GetHostedCluster
    | CreateRoute | GetRoute | PutRoute | DeleteRoute
    | CreateRouteMonitor | GetRouteMonitor | PutRouteMonitor | DeleteRouteMonitor
    | ProbeGet(cid: string)
    | ProbePost(cid: string)
    | ProbePatch(id: nat, labels: Labels)
    | ProbeTerminate(id: nat)

  datatype Remote = Remote(probes: Probes, log: seq<Call>)

  const API_ERROR_PREFIX := "API request failed with status"

  /** An error and the messages wrapped around it. */
  datatype Error = Root(text: string) | Wrap(message: string, cause: Error)

  function Text(e: Error): string {
    match e
    case Root(text) => text
    case Wrap(message, cause) => message + ": " + Text(cause)
  }

  function ApiError(status: int, body: string): Error {
    Root("" + API_ERROR_PREFIX + (" " + Itoa(status) + ": " + body))
  }

  /** IsNon200Error looks for the prefix anywhere in the error's text. */
  predicate IsNon200(e: Error) { Occurs(API_ERROR_PREFIX, Text(e)) }

  /** The error a chain of messages was wrapped around. */
  function Cause(e: Error): Error {
    match e
    case Root(_) => e
    case Wrap(_, cause) => Cause(cause)
  }

  /** The prefix survives any number of wrapping layers. */
  lemma {:induction false} WrappingKeepsPrefix(e: Error)
    requires IsNon200(Cause(e))
    ensures IsNon200(e)
  {
    if e.Wrap? {
      WrappingKeepsPrefix(e.cause);
      OccursInside(API_ERROR_PREFIX, e.message + ": ", Text(e.cause), "");
      assert Text(e) == e.message + ": " + Text(e.cause) + "";
    }
  }

  lemma ApiErrorIsNon200(status: int, body: string)
    ensures IsNon200(ApiError(status, body))
  {
    assert OccursAt(API_ERROR_PREFIX, API_ERROR_PREFIX, 0);
    OccursInside(API_ERROR_PREFIX, "", API_ERROR_PREFIX, " " + Itoa(status) + ": " + body);
  }

  function Failure(http: Http): Error {
    match http
    case NoAnswer(text) => Wrap("failed to send HTTP request", Root(text))
    case Answer(status, body) => ApiError(status, body)
  }

  /** One probe in a listing. */
  datatype View = View(id: nat, labels: Labels, status: ProbeStatus)

  /** The honest listing for a cluster, from ID `i` on. */
  function Listing(ps: Probes, cid: string, i: nat): (l: seq<View>)
    decreases |ps| - i
    ensures forall v :: v in l ==>
      (i <= v.id < |ps| && Listed(ps[v.id], cid) && v.labels == ps[v.id].labels && v.status == ps[v.id].status)
    ensures l == [] <==> forall j :: i <= j < |ps| ==> !Listed(ps[j], cid)
  {
    if i >= |ps| then []
    else if Listed(ps[i], cid) then [View(i, ps[i].labels, ps[i].status)] + Listing(ps, cid, i + 1)
    else Listing(ps, cid, i + 1)
  }

  /** The service answers 404 to a lookup only when it lists nothing. */
  function Lookup(ps: Probes, cid: string, http: Http): Http {
    if http.Answer? && http.status == 404 && Listing(ps, cid, 0) != [] then Answer(200, "") else http
  }

  /** The first listed probe whose cluster label matches. */
  function First(l: seq<View>, cid: string): (v: Option<View>)
    ensures v.Some? ==> v.value in l && ClusterId in v.value.labels && v.value.labels[ClusterId] == cid
    ensures v.None? ==> forall w :: w in l ==> !(ClusterId in w.labels && w.labels[ClusterId] == cid)
  {
    if l == [] then None
    else if ClusterId in l[0].labels && l[0].labels[ClusterId] == cid then Some(l[0])
    else First(l[1..], cid)
  }

  /** Client.GetProbe. */
  function GetProbe(r: Remote, f: Oracle, cid: string): (res: (Remote, Result<Option<View>, Error>))
    ensures res.0.probes == r.probes && r.log <= res.0.log
    ensures res.1.Ok? && res.1.value.None? ==> forall i :: 0 <= i < |r.probes| ==> !Listed(r.probes[i], cid)
    ensures res.1.Ok? && res.1.value.Some? ==>
      var v := res.1.value.value;
      v.id < |r.probes| && Listed(r.probes[v.id], cid) && v.labels == r.probes[v.id].labels && v.status == r.probes[v.id].status
  {
    var reply := f(|r.log|);
    var r1 := r.(log := r.log + [ProbeGet(cid)]);
    match Lookup(r.probes, cid, reply.http)
    case NoAnswer(text) => (r1, Err(Failure(reply.http)))
    case Answer(status, body) =>
      if status == 404 then (r1, Ok(None))
      else if status != 200 then (r1, Err(ApiError(status, body)))
      else if reply.garbled then (r1, Err(Wrap("failed to unmarshal response", Root(body))))
      else (r1, Ok(First(Listing(r.probes, cid, 0), cid)))
  }

  /** What a PATCH does to a probe. */
  datatype Change = SetLabels(labels: Labels) | SetTerminating

  function Changed(p: Probe, change: Change): Probe {
    match change
    case SetLabels(labels) => p.(labels := p.labels + labels)
    case SetTerminating => if p.status.Absent? then p else p.(status := Terminating)
  }

  /** The service does not report success for a probe that is gone. */
  function PatchAnswer(ps: Probes, id: nat, http: Http): Http {
    if http.Answer? && http.status in {200, 204} && (id >= |ps| || ps[id].status.Absent?) then Answer(404, "") else http
  }

  /** The effect of a PATCH: a 404 says the probe is gone, a success that it was changed. */
  function Patched(ps: Probes, reply: Reply, id: nat, change: Change): (qs: Probes)
    ensures |qs| == |ps|
    ensures forall i :: 0 <= i < |ps| && i != id ==> qs[i] == ps[i]
    ensures id < |ps| ==> qs[id] == ps[id] || qs[id] == ps[id].(status := Absent) || qs[id] == Changed(ps[id], change)
  {
    var http := PatchAnswer(ps, id, reply.http);
    if id >= |ps| then ps
    else if http.Answer? && http.status == 404 then ps[id := ps[id].(status := Absent)]
    else if (http.Answer? && http.status in {200, 204}) || reply.applied then ps[id := Changed(ps[id], change)]
    else ps
  }

  /** Client.UpdateProbeLabels. */
  function UpdateProbeLabels(r: Remote, f: Oracle, id: nat, labels: Labels): (res: (Remote, Option<Error>))
    ensures r.log <= res.0.log
  {
    var reply := f(|r.log|);
    var r1 := Remote(Patched(r.probes, reply, id, SetLabels(labels)), r.log + [ProbePatch(id, labels)]);
    match PatchAnswer(r.probes, id, reply.http)
    case NoAnswer(_) => (r1, Some(Failure(reply.http)))
    case Answer(status, body) => (r1, if status != 200 then Some(ApiError(status, body)) else None)
  }

  /** Client.DeleteProbe. */
  function DeleteProbe(r: Remote, f: Oracle, cid: string): (res: (Remote, Option<Error>))
    ensures r.log <= res.0.log
  {
    var (r1, found) := GetProbe(r, f, cid);
    match found
    case Err(e) => (r1, Some(Wrap("failed to check existing probe", e)))
    case Ok(None) => (r1, None)
    case Ok(Some(v)) =>
      var reply := f(|r1.log|);
      var r2 := Remote(Patched(r1.probes, reply, v.id, SetTerminating), r1.log + [ProbeTerminate(v.id)]);
      match PatchAnswer(r1.probes, v.id, reply.http)
      case NoAnswer(_) => (r2, Some(Failure(reply.http)))
      case Answer(status, body) => (r2, if status !in {200, 204, 404} then Some(ApiError(status, body)) else None)
  }

  /** How a POST that reports no error ended. */
  datatype Posted = New | Conflict

  /** The effect of a POST: a success made the probe, a 409 did not, and anything
      else may have. */
  function Posting(ps: Probes, reply: Reply, p: Probe): (qs: Probes)
    ensures qs == ps || qs == ps + [p]
  {
    if (reply.http.Answer? && reply.http.status in {200, 201})
       || (reply.applied && !(reply.http.Answer? && reply.http.status == 409))
    then ps + [p] else ps
  }

  /** Client.CreateProbe. */
  function CreateProbe(r: Remote, f: Oracle, url: string, labels: Labels): (res: (Remote, Result<Posted, Error>))
    ensures r.log <= res.0.log
  {
    var reply := f(|r.log|);
    var cid := if ClusterId in labels then labels[ClusterId] else "";
    var r1 := Remote(Posting(r.probes, reply, Probe(url, labels, Pending)), r.log + [ProbePost(cid)]);
    match reply.http
    case NoAnswer(_) => (r1, Err(Failure(reply.http)))
    case Answer(status, body) =>
      if status == 409 then (r1, Ok(Conflict))
      else if status !in {200, 201} then (r1, Err(ApiError(status, body)))
      else if reply.garbled then (r1, Err(Wrap("failed to unmarshal response", Root(body))))
      else (r1, Ok(New))
  }

  /** No cluster has two listed probes. */
  ghost predicate AtMostOne(ps: Probes) {
    forall i, j, cid :: 0 <= i < j < |ps| && Listed(ps[i], cid) ==> !Listed(ps[j], cid)
  }

  predicate NoneListed(ps: Probes, cid: string) {
    forall i :: 0 <= i < |ps| ==> !Listed(ps[i], cid)
  }

  /** Every live probe of `qs` was already a live probe of `ps` with the same cluster label. */
  ghost predicate Shrinks(ps: Probes, qs: Probes) {
    |ps| <= |qs| && forall i, cid :: 0 <= i < |qs| && Listed(qs[i], cid) ==> i < |ps| && Listed(ps[i], cid)
  }

  /** As Shrinks, except for probes of one cluster. */
  ghost predicate ShrinksBut(ps: Probes, qs: Probes, mine: string) {
    |ps| <= |qs| && forall i, cid :: 0 <= i < |qs| && Listed(qs[i], cid) && cid != mine ==> i < |ps| && Listed(ps[i], cid)
  }

  /** A label PATCH that leaves the cluster label alone keeps one probe per cluster. */
  lemma LabelsKeepAtMostOne(r: Remote, f: Oracle, id: nat, labels: Labels)
    requires AtMostOne(r.probes)
    requires ClusterId in labels ==> id < |r.probes| && HasCluster(r.probes[id], labels[ClusterId])
    ensures var ps := UpdateProbeLabels(r, f, id, labels).0.probes;
      AtMostOne(ps) && Shrinks(r.probes, ps) && |ps| == |r.probes|
  {
    var reply := f(|r.log|);
    var ps := Patched(r.probes, reply, id, SetLabels(labels));
    forall i, cid | 0 <= i < |ps| && Listed(ps[i], cid) ensures Listed(r.probes[i], cid) { }
  }

  predicate OneAtMost(ps: Probes, cid: string) {
    forall i, j :: 0 <= i < j < |ps| && Listed(ps[i], cid) ==> !Listed(ps[j], cid)
  }

  /** A termination touches the status of the found probe and of no other. */
  lemma DeleteChangesOne(r: Remote, f: Oracle, cid: string)
    ensures var (r1, err) := DeleteProbe(r, f, cid);
      |r1.probes| == |r.probes| && Shrinks(r.probes, r1.probes)
      && (err.None? && !NoneListed(r.probes, cid) ==> exists id :: 0 <= id < |r.probes| && OnlyGone(r.probes, r1.probes, id, cid))
      && (NoneListed(r.probes, cid) ==> r1.probes == r.probes)
  {
    var (r1, found) := GetProbe(r, f, cid);
    if found.Ok? && found.value.Some? {
      var id := found.value.value.id;
      var ps := Patched(r1.probes, f(|r1.log|), id, SetTerminating);
      forall i, c | 0 <= i < |ps| && Listed(ps[i], c) ensures Listed(r.probes[i], c) { }
      if DeleteProbe(r, f, cid).1.None? { assert OnlyGone(r.probes, ps, id, cid); }
    }
  }

  predicate OnlyGone(ps: Probes, qs: Probes, id: int, cid: string) {
    |qs| == |ps| && 0 <= id < |ps| && Listed(ps[id], cid) && !Live(qs[id])
    && forall i :: 0 <= i < |ps| && i != id ==> qs[i] == ps[i]
  }

  /** Exactly when a successful DeleteProbe leaves no live probe of the cluster: when
      at most one was listed. It terminates one, the first. */
  lemma DeleteLeavesNoneExactly(r: Remote, f: Oracle, cid: string)
    ensures var (r1, err) := DeleteProbe(r, f, cid);
      err.None? ==> (NoneListed(r1.probes, cid) <==> OneAtMost(r.probes, cid))
  {
    DeleteChangesOne(r, f, cid);
    var (r1, err) := DeleteProbe(r, f, cid);
    if err.None? && !NoneListed(r.probes, cid) {
      var id :| 0 <= id < |r.probes| && OnlyGone(r.probes, r1.probes, id, cid);
      OneGone(r.probes, r1.probes, id, cid);
    }
  }

  lemma OneGone(ps: Probes, qs: Probes, id: int, cid: string)
    requires OnlyGone(ps, qs, id, cid)
    ensures NoneListed(qs, cid) <==> OneAtMost(ps, cid)
  {
    forall i | 0 <= i < |ps| && i != id ensures Listed(ps[i], cid) <==> Listed(qs[i], cid) { }
    if OneAtMost(ps, cid) {
      forall i | 0 <= i < |ps| ensures !Listed(qs[i], cid) {
        if i < id { assert Listed(ps[id], cid); }
      }
    }
  }

  /** DeleteProbe never adds a live probe, and when it reports success no live
      probe of the cluster is left, under the one-probe invariant. */
  lemma DeleteLeavesNone(r: Remote, f: Oracle, cid: string)
    requires AtMostOne(r.probes)
    ensures var (r1, err) := DeleteProbe(r, f, cid);
      AtMostOne(r1.probes) && Shrinks(r.probes, r1.probes) && |r1.probes| == |r.probes|
      && (err.None? ==> NoneListed(r1.probes, cid))
  {
    DeleteChangesOne(r, f, cid);
    DeleteLeavesNoneExactly(r, f, cid);
  }

  /** Without the invariant DeleteProbe can report success and leave a live probe behind. */
  lemma DeleteNeedsAtMostOne(cid: string)
    ensures exists r: Remote, f: Oracle ::
      DeleteProbe(r, f, cid).1.None? && !NoneListed(DeleteProbe(r, f, cid).0.probes, cid)
  {
    var p := Probe("", map[ClusterId := cid], Active);
    var r := Remote([p, p], []);
    var f: Oracle := n => Reply(NoFault, Answer(200, ""), false, false);
    assert Listed(p, cid);
    assert Listing(r.probes, cid, 0) != [];
    var (r1, found) := GetProbe(r, f, cid);
    var l := Listing(r.probes, cid, 0);
    assert l[0] in l;
    assert found.value.Some?;
    var id := found.value.value.id;
    var ps := DeleteProbe(r, f, cid).0.probes;
    assert Listed(ps[1 - id], cid);
    assert DeleteProbe(r, f, cid).1.None? && !NoneListed(DeleteProbe(r, f, cid).0.probes, cid);
  }

  /** A POST for a cluster with no listed probe keeps one probe per cluster, even
      when it fails after taking effect; a reported creation is listed. */
  lemma CreateKeepsAtMostOne(r: Remote, f: Oracle, url: string, labels: Labels, cid: string)
    requires AtMostOne(r.probes) && NoneListed(r.probes, cid)
    requires ClusterId in labels && labels[ClusterId] == cid
    ensures var (r1, res) := CreateProbe(r, f, url, labels);
      AtMostOne(r1.probes) && ShrinksBut(r.probes, r1.probes, cid)
      && (res == Ok(New) ==> r1.probes == r.probes + [Probe(url, labels, Pending)])
      && (res == Ok(Conflict) ==> r1.probes == r.probes)
  {
    var p := Probe(url, labels, Pending);
    var ps := r.probes + [p];
    forall i, j, c | 0 <= i < j < |ps| && Listed(ps[i], c) ensures !Listed(ps[j], c) { }
  }

  /** A client together with the probe store it talks to. */
  class Client {
    var probes: Probes
    var log: seq<Call>

    ghost function State(): Remote
      reads this
    {
      Remote(probes, log)
    }

    constructor (initial: Probes)
      ensures State() == Remote(initial, [])
    {
      probes, log := initial, [];
    }

    method Get(f: Oracle, cid: string) returns (res: Result<Option<View>, Error>)
      modifies this`log
      ensures (State(), res) == GetProbe(old(State()), f, cid)
    {
      var reply := f(|log|);
      log := log + [ProbeGet(cid)];
      var http := Lookup(probes, cid, reply.http);
      if http.NoAnswer? { return Err(Failure(reply.http)); }
      if http.status == 404 { return Ok(None); }
      if http.status != 200 { return Err(ApiError(http.status, http.body)); }
      if reply.garbled { return Err(Wrap("failed to unmarshal response", Root(http.body))); }
      var list := Listing(probes, cid, 0);
      for i := 0 to |list|
        invariant First(list, cid) == First(list[i..], cid)
      {
        if ClusterId in list[i].labels && list[i].labels[ClusterId] == cid { return Ok(Some(list[i])); }
      }
      res := Ok(None);
    }

    method UpdateLabels(f: Oracle, id: nat, labels: Labels) returns (err: Option<Error>)
      modifies this
      ensures (State(), err) == UpdateProbeLabels(old(State()), f, id, labels)
    {
      var reply := f(|log|);
      log := log + [ProbePatch(id, labels)];
      var http := PatchAnswer(probes, id, reply.http);
      probes := Patched(probes, reply, id, SetLabels(labels));
      if http.NoAnswer? { return Some(Failure(reply.http)); }
      if http.status != 200 { return Some(ApiError(http.status, http.body)); }
      err := None;
    }

    method Delete(f: Oracle, cid: string) returns (err: Option<Error>)
      modifies this
      ensures (State(), err) == DeleteProbe(old(State()), f, cid)
    {
      var found := Get(f, cid);
      if found.Err? { return Some(Wrap("failed to check existing probe", found.error)); }
      if found.value.None? { return None; }
      var id := found.value.value.id;
      var reply := f(|log|);
      log := log + [ProbeTerminate(id)];
      var http := PatchAnswer(probes, id, reply.http);
      probes := Patched(probes, reply, id, SetTerminating);
      if http.NoAnswer? { return Some(Failure(reply.http)); }
      if http.status == 404 { return None; }
      if http.status != 200 && http.status != 204 {
        return Some(ApiError(http.status, http.body));
      }
      err := None;
    }

    method Create(f: Oracle, url: string, labels: Labels) returns (res: Result<Posted, Error>)
      modifies this
      ensures (State(), res) == CreateProbe(old(State()), f, url, labels)
    {
      var reply := f(|log|);
      log := log + [ProbePost(if ClusterId in labels then labels[ClusterId] else "")];
      probes := Posting(probes, reply, Probe(url, labels, Pending));
      if reply.http.NoAnswer? { return Err(Failure(reply.http)); }
      if reply.http.status == 409 { return Ok(Conflict); }
      if reply.http.status != 200 && reply.http.status != 201 {
        return Err(ApiError(reply.http.status, reply.http.body));
      }
      if reply.garbled { return Err(Wrap("failed to unmarshal response", Root(reply.http.body))); }
      res := Ok(New);
    }
  }
}
