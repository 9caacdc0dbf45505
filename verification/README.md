# Route Monitor Operator: a verified model

Route Monitor Operator is a set of Kubernetes reconcilers. It watches hosted control planes and keeps
one synthetic probe per cluster in a remote service (RHOBS). It also turns `RouteMonitor` and
`ClusterUrlMonitor` resources into ServiceMonitors, alerting rules and one shared blackbox exporter.
This project models those reconcilers, the remote probe protocol, the access token cache, the alerting
rules and the smaller cores below them, and proves what every step and every run keeps.

## How it is modelled

Each reconciler is a step function over a world of values: an object store with finalizers and deletion
timestamps, a probe store, a clock and a log of the calls sent so far. An *oracle* gives the fate of every
call by its place in the log: it works, it fails without effect, or it fails although the effect took place.
Theorems quantify over all oracles. What the source does by changing things in place is also written that
way, as classes whose methods reassign fields, append in loops and return early; every such method is proved
equal to the step function of the same part, so the theorems hold of the imperative form too.

| file | what it holds |
|---|---|
| Base, Digits, KubeStore, MonitorApi | options and results; decimal digit strings; the object store with its faults; the monitor resources |
| Slo, Finalizers | exact scaling of availability targets; finalizer lists as sets |
| HealthCheck | the health-check counter of a young cluster as an abstraction of its history |
| Rhobs, Synthetics | the probe client, and create, validate, heartbeat, replace and delete of a cluster's probe |
| HostedControlPlane, HcpSafety, HcpSteps, HcpController | the hosted control plane reconciler, its runs, its single steps, its imperative form |
| Monitors, MonitorSteps, MonitorRuns, MonitorConvergence, UrlMonitorConvergence, MonitorControllers | both monitor reconcilers with the shared exporter, their steps, runs, convergence, imperative form |
| TwoControllers | mixed runs of the hosted control plane controller and the monitor controllers |
| TokenCache | the token cache as interleaved steps of any number of callers, and as an object |
| Alerts, PromQL, PromQLText, AlertMeaning | the rendered rules, the part of PromQL they use, why its text is read in one way only, and when the rules fire |
| Dynatrace | the Dynatrace monitors of a cluster: pruning, recreation, deletion by cluster |

`dafny verify dfyconfig.toml` checks everything.

## Assumptions

- A reconcile is one atomic step over linearizable reads. Only the token cache is interleaved.
- Cluster IDs do not change, and a control plane's `Spec.Platform.AWS` is set. Its other mutable fields
  (availability, endpoint access, hostname, region, limited support) are inputs of each step.
- The probe endpoint is either one fixed service or unset, step by step.
- The probe service merges the labels of a PATCH. A lookup that answers 200 or 404 is honest, and so is a
  PATCH that answers 200, 204 or 404. A probe set to terminating is no longer listed.
- Other actors may create, edit and delete control planes, monitors, routes and deployed objects, and the probe
  agents may move a live probe to any status. They do not remove the operator's finalizer from a control plane,
  create probes, or change the exporter's objects.
- The API server refuses new finalizers on an object that is being deleted, ignores the status in `Update`
  and everything but the status in `Status().Update`.
- The decimal library gopkg.in/inf.v0 is not part of this repository; its grammar (optional sign, digits with
  at most one point) and its printing are modelled from the library's documented behaviour.
- The API server's port, looked up by the TLS gate and again for the RouteMonitor, is the same both times.
- Local processing in the token cache may take any time; where it takes none between reading a response and
  reading the clock, the freshness bound is the token's true expiry.
- Times are whole seconds in the reconcilers and nanoseconds in the token cache. PromQL numbers are exact reals,
  and a range holds the samples later than its start up to its end.

## Where the code says less than it seems to

Each point is proved, not just remarked.

- The five health checks that make a young cluster ready are free of failed answers exactly when no reset was
  lost since their count began (`HealthCheck.FiveAreConsecutiveIffNoResetLost`); an input where one was lost is
  given (`HealthCheck.LostResetHidesFailure`).
- `DeleteProbe` terminates only the first listed probe, so its success leaves none exactly when at most one was
  listed for the cluster (`Rhobs.DeleteLeavesNoneExactly`, with two probes in `Rhobs.DeleteNeedsAtMostOne`). No
  run lists two (`HcpSafety.NoOrphansEver`).
- A rule whose reference was never written outlives its RouteMonitor
  (`MonitorSteps.UnreferencedRuleOutlivesMonitor`), and the deletion step of a RouteMonitor never removes a
  monitoring.rhobs ServiceMonitor (`MonitorSteps.RhobsServiceMonitorStays`).
- The exporter goes with the last monitor exactly when that monitor left in a reconcile, which takes the
  operator's key on it, or no exporter object was there (`MonitorRuns.ExporterGoesExactly`); it stays behind when
  a monitor that was never reconciled outlives the others (`MonitorRuns.UnreconciledMonitorLeaksExporter`).
- A deletion drops the operator's keys exactly when the present key is there or neither is: the previous key
  alone stays (`MonitorSteps.OperatorKeysGoExactly`).
- A ServiceMonitor reference to another object fails every reconcile from there on
  (`MonitorConvergence.FailsIffReferenceForeign`), while such a rule reference is kept without an error
  (`MonitorConvergence.ForeignRuleReferenceStays`).
- A server that announces a lifetime below the least 64-bit duration can make an expired token look usable;
  `TokenCache.SafeLifetimes` gives the exact condition.
- The fastest alerting rule can never fire for targets of 100 - 100/14.4 (about 93.06) percent or less
  (`AlertMeaning.WhichRulesCanFire`).

## Model

| member | source | states |
|---|---|---|
| `HcpSafety.NoOrphansEver` | controllers/hostedcontrolplane/hostedcontrolplane.go:206-289 | Over every run, with any faults and any acts of others: a live probe has a control plane that carries the operator's finalizer, unless the finalizer was let go with the endpoint unset or by a fail-open at fifteen minutes or later that raised the timeout counter; and no cluster ever has two listed probes |
| `HcpSafety.ReconcileSafe` | controllers/hostedcontrolplane/hostedcontrolplane.go:166-388 | One reconcile keeps both invariants whatever its inputs and the fate of its calls |
| `HcpSafety.DeletionSafe` | controllers/hostedcontrolplane/hostedcontrolplane.go:207-281 | The deletion branch keeps them: it lets go only after a successful probe deletion, past the window, or without an endpoint |
| `HcpSafety.FinalizerStored` | controllers/hostedcontrolplane/hostedcontrolplane.go:283-289 | The finalizer is stored before anything else happens for a live control plane, and storing it takes no owner away |
| `HcpSafety.DropCovered` | controllers/hostedcontrolplane/hostedcontrolplane.go:275-280 | The write that drops the finalizer leaves no listed probe uncovered, also when it takes effect although it reports an error |
| `HcpSteps.GatedCallsNeedGates` | controllers/hostedcontrolplane/hostedcontrolplane.go:283-378 | With the infrastructure check on and outside deletion, Route and RouteMonitor writes and RHOBS calls occur only with the finalizer stored, the control plane available and ready, the VPC endpoint available and TLS reachable |
| `HcpSteps.TlsDownRemovesMonitoring` | controllers/hostedcontrolplane/hostedcontrolplane.go:328-341 | A reconcile that finds TLS down and ends without error leaves Route and RouteMonitor absent or being deleted, and comes back after the health-check interval |
| `HcpSteps.DeadlineFreesHcp` | controllers/hostedcontrolplane/hostedcontrolplane.go:224-280 | From fifteen minutes into the deletion on, one reconcile removes the finalizer whatever RHOBS and Dynatrace answer |
| `HcpSteps.AnsweredFailureIsNon200` | controllers/hostedcontrolplane/synthetics.go:434-451 | An answered probe deletion fails only with an error recognised as non-200: the prefix survives every wrapping layer |
| `HcpSteps.RetriesEndBeforeMinuteTwenty` | controllers/hostedcontrolplane/hostedcontrolplane.go:237-249 | Retries that start inside the window are over before minute twenty of the deletion, since each comes back within five minutes |
| `HcpSteps.HealthyPass` | controllers/hostedcontrolplane/hostedcontrolplane.go:283-387 | A reconcile of a ready, monitored cluster whose Kubernetes calls work and whose probe calls succeed, each with any status its kind accepts, stores the finalizer, brings Route and RouteMonitor in line with what is built, leaves exactly one up-to-date probe and asks for the next pass after the configured interval |
| `HcpSteps.DeployedInLine` | controllers/hostedcontrolplane/hostedcontrolplane.go:405-467 | An existing Route or RouteMonitor gets the built spec, labels and owners |
| `HcpController.Controller.Reconcile` | controllers/hostedcontrolplane/hostedcontrolplane.go:166-388 | The reconcile, changing its stores in place, equals the step function: same world, same calls in the same order, same outcome |
| `HcpController.Controller.ReconcileDeletion` | controllers/hostedcontrolplane/hostedcontrolplane.go:207-281 | The same for the deletion branch |
| `HcpController.Controller.DeleteProbeFirst` | controllers/hostedcontrolplane/hostedcontrolplane.go:224-263 | The same for deleting the probe before anything else |
| `HcpController.Controller.AfterProbe` | controllers/hostedcontrolplane/hostedcontrolplane.go:232-263 | The same for its fail-closed and fail-open part |
| `HcpController.Controller.FinishDeletion` | controllers/hostedcontrolplane/hostedcontrolplane.go:270-280 | The same for clean-up and finalizer removal |
| `HcpController.Controller.Gate` | controllers/hostedcontrolplane/hostedcontrolplane.go:295-341 | The same for the gates in order |
| `HcpController.Controller.TlsGate` | controllers/hostedcontrolplane/hostedcontrolplane.go:323-341 | The same for the port and TLS gate |
| `HcpController.Controller.EnsureReady` | controllers/hostedcontrolplane/hostedcontrolplane.go:302-311 | The same for the readiness check and its place in the call log |
| `HcpController.Controller.Deploy` | controllers/hostedcontrolplane/hostedcontrolplane.go:343-387 | The same for deployment and the periodic requeue |
| `HcpController.Controller.DeployMonitoring` | controllers/hostedcontrolplane/hostedcontrolplane.go:405-460 | The same for Route and RouteMonitor together |
| `HcpController.Controller.DeployRoute` | controllers/hostedcontrolplane/hostedcontrolplane.go:411-432 | The same for the Route: create, or fetch and update |
| `HcpController.Controller.DeployRouteMonitor` | controllers/hostedcontrolplane/hostedcontrolplane.go:439-457 | The same for the RouteMonitor |
| `HcpController.Controller.DeleteMonitoring` | controllers/hostedcontrolplane/hostedcontrolplane.go:557-579 | The same for their removal |
| `HcpController.Controller.EnsureProbe` | controllers/hostedcontrolplane/synthetics.go:276-428 | The same for one pass over a cluster's probe |
| `HcpController.Controller.Maintain` | controllers/hostedcontrolplane/synthetics.go:340-427 | The same for validating, refreshing or replacing it |
| `HcpController.Controller.NewProbe` | controllers/hostedcontrolplane/synthetics.go:409-427 | The same for creating it |
| `HcpController.Controller.DeleteClusterProbe` | controllers/hostedcontrolplane/synthetics.go:434-451 | The same for deleting it |
| `Synthetics.EnsureProbeKeeps` | controllers/hostedcontrolplane/synthetics.go:276-428 | Every pass keeps one listed probe per cluster and gains live probes only for its own cluster, also when a failed POST or PATCH took effect |
| `Synthetics.OnePassConverges` | controllers/hostedcontrolplane/synthetics.go:276-428 | A pass over a monitored cluster, also one whose limited-support label is stale, that reports no error and met no 409 leaves exactly one listed probe whose private label and region agree and whose heartbeat is this pass's |
| `Synthetics.SecondPassIsIdle` | controllers/hostedcontrolplane/synthetics.go:356-383 | The next pass whose probe calls succeed, on a probe that has not failed, sends exactly one lookup and one heartbeat PATCH, after reading the HostedCluster if the limited-support label is set, and changes only the heartbeat |
| `Synthetics.SucceedingPass` | controllers/hostedcontrolplane/synthetics.go:276-428 | A pass over a monitored cluster reports no error when each of its probe calls has a status its kind accepts: a creation 200 or 201, a lookup 200 or 404, a termination 200, 204 or 404, a label PATCH 200 |
| `Synthetics.LimitedSupportLosesProbe` | controllers/hostedcontrolplane/synthetics.go:290-321 | A pass over a limited-support cluster that reports no error leaves no listed probe and sends no POST |
| `Synthetics.NewProbeConverges` | controllers/hostedcontrolplane/synthetics.go:409-427 | A created probe is found by the next lookup and up to date |
| `Synthetics.RegionConverges` | controllers/hostedcontrolplane/synthetics.go:392-405 | The region PATCH leaves the probe up to date even when the heartbeat before it failed |
| `Rhobs.DeleteLeavesNone` | pkg/rhobs/client.go:332-425 | DeleteProbe adds no live probe, and its success means none of the cluster is listed any more |
| `Rhobs.DeleteLeavesNoneExactly` | pkg/rhobs/client.go:332-425 | A successful DeleteProbe leaves none listed exactly when at most one was listed for the cluster |
| `Rhobs.DeleteNeedsAtMostOne` | pkg/rhobs/client.go:332-425 | A store in which it falls short: two listed probes, success reported, one left |
| `Rhobs.CreateKeepsAtMostOne` | pkg/rhobs/client.go:138-207 | A POST for a cluster without a listed probe keeps one probe per cluster even when it fails after taking effect; a reported creation is stored as sent and a 409 stores nothing |
| `Rhobs.LabelsKeepAtMostOne` | pkg/rhobs/client.go:286-329 | A label PATCH that leaves the cluster label alone adds no listed probe |
| `Rhobs.WrappingKeepsPrefix` | pkg/rhobs/client.go:428-430 | An error is recognised as non-200 if its innermost cause is, however often it is wrapped |
| `Rhobs.ApiErrorIsNon200` | pkg/rhobs/client.go:428-430 | The error made for an unexpected status is recognised |
| `Rhobs.GetProbe` | pkg/rhobs/client.go:210-277 | A lookup changes nothing; a found probe is a listed one of the cluster, and none found honestly means none is listed |
| `Rhobs.Client.Get` | pkg/rhobs/client.go:210-277 | The call, appending to the log in place, equals the lookup function |
| `Rhobs.Client.Create` | pkg/rhobs/client.go:138-207 | The same for the POST |
| `Rhobs.Client.UpdateLabels` | pkg/rhobs/client.go:286-329 | The same for the label PATCH |
| `Rhobs.Client.Delete` | pkg/rhobs/client.go:332-425 | The same for lookup and termination |
| `HealthCheck.AnnotationCountsHistory` | controllers/hostedcontrolplane/healthcheck.go:148-181 | Over every run without outside edits the decimal annotation reads back as the number of successes recorded since the last recorded reset |
| `HealthCheck.ReadyMeansFiveInARow` | controllers/hostedcontrolplane/healthcheck.go:67-117 | A young cluster that is not skipped is called ready only after five recorded successes with no reset between them |
| `HealthCheck.CounterLatch` | controllers/hostedcontrolplane/healthcheck.go:67-117 | A counter that reached five stays: no later check writes the ConfigMap and each one that can read it answers ready |
| `HealthCheck.AgeLatch` | controllers/hostedcontrolplane/healthcheck.go:233-237 | A cluster past the age limit stays ready at every later time, without a write |
| `HealthCheck.HistoryIsAnswersIffNoneLost` | controllers/hostedcontrolplane/healthcheck.go:98-116 | The whole history is the whole list of answers exactly when no write was lost, of a success or of a reset; the two differ in length by the lost writes |
| `HealthCheck.FiveAreConsecutiveIffNoResetLost` | controllers/hostedcontrolplane/healthcheck.go:67-117 | When a young cluster becomes ready over any run, exactly five marks were recorded since its count began, all successes, and the endpoint gave no failed answer since then exactly when no check since then failed and had its reset lost |
| `HealthCheck.LostResetHidesFailure` | controllers/hostedcontrolplane/healthcheck.go:98-116 | Ready after two successes, a failure whose reset was lost, and two more successes |
| `HealthCheck.Checker.HcpReady` | controllers/hostedcontrolplane/healthcheck.go:67-117 | The check, writing the annotation in place, equals the step function |
| `HealthCheck.Checker.AddSuccess` | controllers/hostedcontrolplane/healthcheck.go:171-181 | One success more is stored unless the write is lost; the caller's copy is incremented either way |
| `HealthCheck.Checker.ResetSuccesses` | controllers/hostedcontrolplane/healthcheck.go:164-168 | The annotation is removed unless the write is lost |
| `Digits.AtoiItoa` | controllers/hostedcontrolplane/healthcheck.go:148-181 | A printed 64-bit count reads back as itself |
| `TokenCache.PairNeverTorn` | pkg/rhobs/client.go:433-515 | Under every interleaving of any number of callers, a token is handed out with the expiry it was stored with, and both are the pair stored last |
| `TokenCache.CachedIsFresh` | pkg/rhobs/client.go:438-444 | A cache hit is before the token's true server-side expiry, plus at most the time between reading the body and reading the clock |
| `TokenCache.NoEarlyFetch` | pkg/rhobs/client.go:451-458 | After a pair with a token is stored, every later token request is sent at its expiry less thirty seconds or later |
| `TokenCache.SafeLifetimes` | pkg/rhobs/client.go:508-509 | A lifetime is never served late exactly when it does not fall below the least duration or its wrapped value is inside the margin |
| `TokenCache.WrapShortens` | pkg/rhobs/client.go:509 | The 64-bit lifetime is at most the announced one exactly when that does not fall below the least duration |
| `TokenCache.NextKeeps` | pkg/rhobs/client.go:433-515 | Every lock operation, field access, clock reading and answer keeps the invariant on locks, the pair and what was handed out |
| `TokenCache.CallIsARun` | pkg/rhobs/client.go:433-515 | An uninterrupted call of the object is a run of the step machine: same cache, same answer |
| `TokenCache.Cache.GetAccessToken` | pkg/rhobs/client.go:433-448 | The object's call equals the call function: answer from the cache, or refresh |
| `TokenCache.Cache.RefreshAccessToken` | pkg/rhobs/client.go:451-515 | The second check, the exchange, and token and expiry written together |
| `MonitorConvergence.RouteMonitorConverges` | controllers/routemonitor/routemonitor.go:80-170 | With spec, Route and lookups fixed and no errors, each reconcile that changes the resource meets exactly one more of five goals; from the sixth on all are met, everything deployed equals its template, the rule exists exactly when wanted, and nothing changes any more |
| `MonitorConvergence.ReconcileImproves` | controllers/routemonitor/routemonitor.go:80-170 | One reconcile writes the resource with its first unmet goal met, and with none unmet settles what is deployed |
| `MonitorConvergence.ImprovedByOne` | controllers/routemonitor/routemonitor_supplement.go:26-113 | Meeting the first unmet goal lowers the count of unmet goals by one |
| `MonitorConvergence.RuleStage` | controllers/routemonitor/routemonitor_supplement.go:26-72 | The rule step updates the error status, or brings the rule and its reference to what the target asks for |
| `MonitorConvergence.ServiceMonitorStep` | controllers/routemonitor/routemonitor_supplement.go:75-113 | The ServiceMonitor step deploys the template and sets the reference |
| `MonitorConvergence.ForeignReferenceBlocks` | pkg/reconcile/common.go:77-90 | With a foreign ServiceMonitor reference every reconcile fails and the resource never changes |
| `MonitorConvergence.FailsIffReferenceForeign` | controllers/routemonitor/routemonitor.go:119-169 | A fault-free reconcile with finalizer and Route URL in place fails exactly when the ServiceMonitor reference is another object's |
| `MonitorConvergence.ForeignRuleReferenceStays` | controllers/routemonitor/routemonitor_supplement.go:57-71 | A rule reference to another object is kept without an error while the monitor's own rule is deployed |
| `UrlMonitorConvergence.UrlMonitorConverges` | controllers/clusterurlmonitor/clusterurlmonitor.go:83-149 | With spec, domain and lookups fixed and no errors, each reconcile that changes the resource meets exactly one more of four goals; from the fifth on all are met, everything deployed equals its template, an infra monitor's rule exists exactly when wanted, and nothing changes any more |
| `UrlMonitorConvergence.UrlReconcileImproves` | controllers/clusterurlmonitor/clusterurlmonitor.go:83-149 | One reconcile writes the resource with its first unmet goal met, and with none unmet settles what is deployed |
| `UrlMonitorConvergence.ImprovedUrlByOne` | controllers/clusterurlmonitor/clusterurlmonitor_supplement.go:27-140 | Meeting the first unmet goal lowers the count of unmet goals by one |
| `MonitorRuns.ExporterServesEveryMonitor` | pkg/blackboxexporter/blackboxexporter.go:42-67 | Over every run of both controllers with any faults: while a monitor that is not being deleted has its ServiceMonitor reference, the exporter's ConfigMap, Deployment and Service all exist |
| `MonitorRuns.LastMonitorTakesExporter` | pkg/blackboxexporter/blackboxexporter.go:347-361 | In every fault-free run in which monitors are reconciled before their deletion and hold no foreign finalizer, no exporter object is left once the last monitor is gone |
| `MonitorRuns.ExporterGoesExactly` | pkg/blackboxexporter/blackboxexporter.go:42-67 | Over every run with any faults that ends without monitors: no exporter object is left exactly when the last monitor left in a reconcile, or none was there before it left, or there never was a monitor |
| `MonitorRuns.DepartureTakesExporter` | pkg/blackboxexporter/blackboxexporter.go:42-67 | The event that takes the last monitor away takes the exporter exactly when it is a reconcile, which found the operator's key, or none was there |
| `MonitorRuns.UnreconciledMonitorLeaksExporter` | pkg/blackboxexporter/blackboxexporter.go:62-66 | An input where it does not: a never reconciled monitor deleted last leaves the exporter behind |
| `MonitorRuns.RmAbsentServes` | controllers/routemonitor/routemonitor_supplement.go:116-152 | The deletion of a RouteMonitor takes the exporter only when no monitor needs it |
| `MonitorRuns.CumAbsentServes` | controllers/clusterurlmonitor/clusterurlmonitor_supplement.go:143-177 | The same for a ClusterUrlMonitor |
| `MonitorSteps.RmWritesOnceLast` | controllers/routemonitor/routemonitor.go:80-170 | On every path the reconciled RouteMonitor is written at most once, as the last call, and no other monitor is written |
| `MonitorSteps.CumWritesOnceLast` | controllers/clusterurlmonitor/clusterurlmonitor.go:83-149 | The same for ClusterUrlMonitors, also where the deletion step goes on |
| `MonitorSteps.RmDeletionIsSafe` | controllers/routemonitor/routemonitor_supplement.go:116-152 | Once deletion is requested nothing is deployed, and the finalizer leaves only after the referenced rule and core ServiceMonitor are gone |
| `MonitorSteps.CumDeletionIsSafe` | controllers/clusterurlmonitor/clusterurlmonitor_supplement.go:143-186 | The same for ClusterUrlMonitors with the ServiceMonitor kind of the domain reference; going on with the key gone ends in a refused finalizer write |
| `MonitorSteps.UnreferencedRuleOutlivesMonitor` | controllers/routemonitor/routemonitor_supplement.go:136-141 | A fault-free deletion leaves no rule of the monitor's name exactly when the status names it or there is none |
| `MonitorSteps.FailedStatusWriteLeavesRuleUnreferenced` | controllers/routemonitor/routemonitor_supplement.go:57-69 | Such a rule arises when the status write after its creation fails |
| `MonitorSteps.PreviousKeyAloneStays` | controllers/routemonitor/routemonitor_supplement.go:146-151 | A RouteMonitor being deleted that holds only the previous finalizer key is left unchanged by every reconcile |
| `MonitorSteps.OperatorKeysGoExactly` | controllers/routemonitor/routemonitor_supplement.go:146-151 | A fault-free deletion reconcile leaves neither of the operator's keys exactly when the present key was there or neither was |
| `MonitorSteps.RhobsServiceMonitorStays` | controllers/routemonitor/routemonitor_supplement.go:134-137 | The deletion of a RouteMonitor never changes which monitoring.rhobs ServiceMonitors exist |
| `Monitors.CreateOrUpdate` | pkg/servicemonitor/servicemonitor.go:57-73 | Success means the stored spec is the template; no monitor is written and no other object touched |
| `Monitors.DeleteReferenced` | pkg/servicemonitor/servicemonitor.go:97-131 | Success means the named object is absent; an empty reference names none |
| `Monitors.ExporterExists` | pkg/blackboxexporter/blackboxexporter.go:363-377 | Success means all three exporter objects exist; nothing is removed and nothing else touched |
| `Monitors.ExporterAbsent` | pkg/blackboxexporter/blackboxexporter.go:347-361 | Success means none of the three exists; nothing else is touched |
| `Monitors.ReleaseExporter` | pkg/blackboxexporter/blackboxexporter.go:42-67 | The exporter is removed only when the one monitor left is being deleted |
| `Monitors.RmDependencies` | controllers/routemonitor/routemonitor_supplement.go:116-144 | The deletion step removes only the last monitor's exporter and what the status names, and success means all of that is gone |
| `Monitors.CumDependencies` | controllers/clusterurlmonitor/clusterurlmonitor_supplement.go:148-170 | The same for a ClusterUrlMonitor |
| `MonitorControllers.RouteMonitorReconciler.Reconcile` | controllers/routemonitor/routemonitor.go:80-170 | The reconcile, changing the store call by call, equals the step function |
| `MonitorControllers.RouteMonitorReconciler.Deploy` | controllers/routemonitor/routemonitor.go:119-169 | The same for the steps behind the finalizer |
| `MonitorControllers.RouteMonitorReconciler.EnsureAbsent` | controllers/routemonitor/routemonitor_supplement.go:116-152 | The same for the deletion step |
| `MonitorControllers.RouteMonitorReconciler.EnsureServiceMonitorExists` | controllers/routemonitor/routemonitor_supplement.go:75-113 | The same for the ServiceMonitor step |
| `MonitorControllers.RouteMonitorReconciler.EnsurePrometheusRuleExists` | controllers/routemonitor/routemonitor_supplement.go:26-72 | The same for the rule step |
| `MonitorControllers.ClusterUrlMonitorReconciler.Reconcile` | controllers/clusterurlmonitor/clusterurlmonitor.go:83-149 | The same for ClusterUrlMonitors |
| `MonitorControllers.ClusterUrlMonitorReconciler.Deploy` | controllers/clusterurlmonitor/clusterurlmonitor.go:107-148 | The same for the steps behind the deletion step |
| `MonitorControllers.ClusterUrlMonitorReconciler.EnsureAbsent` | controllers/clusterurlmonitor/clusterurlmonitor_supplement.go:143-177 | The same for the deletion step, which may go on |
| `MonitorControllers.ClusterUrlMonitorReconciler.EnsureServiceMonitorExists` | controllers/clusterurlmonitor/clusterurlmonitor_supplement.go:94-140 | The same for the ServiceMonitor step |
| `MonitorControllers.ClusterUrlMonitorReconciler.EnsurePrometheusRuleExists` | controllers/clusterurlmonitor/clusterurlmonitor_supplement.go:27-84 | The same for the rule step |
| `MonitorControllers.Deployer.ShouldDeleteExporter` | pkg/blackboxexporter/blackboxexporter.go:42-67 | Appending both listings, in any order, decides as the set of monitors does |
| `MonitorControllers.Deployer.ReleaseExporter` | pkg/blackboxexporter/blackboxexporter.go:42-67 | Listing and removal equal the step function |
| `MonitorControllers.Deployer.ExporterExists` | pkg/blackboxexporter/blackboxexporter.go:363-377 | The same for bringing the exporter up |
| `MonitorControllers.Deployer.ExporterAbsent` | pkg/blackboxexporter/blackboxexporter.go:347-361 | The same for taking it down |
| `MonitorControllers.Deployer.CreateOrUpdate` | pkg/servicemonitor/servicemonitor.go:57-73 | The same for one deployed object |
| `MonitorControllers.Deployer.CreateIfMissing` | pkg/blackboxexporter/blackboxexporter.go:106-144 | The same for objects that are only created |
| `MonitorControllers.Deployer.DeleteIfFound` | pkg/blackboxexporter/blackboxexporter.go:284-345 | The same for deletions that look first |
| `MonitorControllers.Deployer.DeleteReferenced` | pkg/alert/prometheusrule.go:59-76 | The same for what a status reference names |
| `MonitorControllers.Deployer.RuleStep` | controllers/routemonitor/routemonitor_supplement.go:41-72 | The rule step on a copy of the status written through pointers |
| `MonitorControllers.Deployer.DropRule` | controllers/routemonitor/routemonitor_supplement.go:28-39 | Deleting the referenced rule and clearing the reference |
| `MonitorControllers.Copy.SetErrorStatus` | pkg/reconcile/common.go:48-75 | The pointer write: set, flushed or kept, and whether it changed |
| `MonitorControllers.Copy.SetServiceMonitorRef` | pkg/reconcile/common.go:77-90 | The pointer write: set when either side is empty, refused when foreign |
| `MonitorControllers.Copy.SetPrometheusRuleRef` | pkg/reconcile/common.go:77-90 | The same for the rule reference |
| `MonitorControllers.SetKeys` | pkg/reconcile/common.go:117-124 | The key is added and the previous one removed, exactly when the key was absent |
| `MonitorControllers.DropKeys` | pkg/reconcile/common.go:107-114 | Both keys are removed, exactly when the key was present |
| `MonitorControllers.Client.UpdateRouteMonitor` | pkg/reconcile/common.go:127-133 | A RouteMonitor write: the reconcile stops or fails with it, and the status is not written |
| `MonitorControllers.Client.UpdateRouteMonitorStatus` | pkg/reconcile/common.go:136-142 | A status write touches nothing but the status |
| `MonitorControllers.Client.UpdateUrlMonitor` | pkg/reconcile/common.go:127-133 | The same for a ClusterUrlMonitor write |
| `MonitorControllers.Client.UpdateUrlMonitorStatus` | pkg/reconcile/common.go:136-142 | The same for its status write |
| `TwoControllers.HcpReconcileFrame` | controllers/hostedcontrolplane/hostedcontrolplane.go:405-467 | A hosted control plane reconcile touches at most its own RouteMonitor: never finalizers or status of an existing one, never a set deletion timestamp, and removes it only without finalizers |
| `TwoControllers.RmReconcileFrame` | controllers/routemonitor/routemonitor_supplement.go:154-161 | A RouteMonitor reconcile changes no spec, label, owner or deletion timestamp and creates none |
| `TwoControllers.MixedRunsKeepBoth` | controllers/routemonitor/routemonitor.go:80-170 | Over every mixed run with any faults both the no-orphan invariant and the exporter invariant hold |
| `TwoControllers.SpecStaysBuilt` | controllers/hostedcontrolplane/hostedcontrolplane.go:500-526 | Over every run in which only the controllers write RouteMonitors, each has the spec, labels and owner built for the control plane its name belongs to |
| `TwoControllers.InLinePassIsIdle` | controllers/hostedcontrolplane/hostedcontrolplane.go:439-457 | With the RouteMonitor in line, a pass with TLS up changes nothing in the monitors' store, whatever its faults |
| `Slo.AcceptsExactly` | api/v1alpha1/common_types.go:17-48 | A target is accepted exactly when it is a decimal strictly between 90 and 100, for any number of digits |
| `Slo.ScalesExactly` | api/v1alpha1/common_types.go:43-47 | The result reads back as the target divided by exactly one hundred, strictly between 0.9 and 1 |
| `Slo.PrintParse` | api/v1alpha1/common_types.go:24-28 | Reading back a printed decimal gives the same number and scale |
| `Finalizers.WritesRefineSets` | pkg/util/finalizer/finalizer.go:17-28 | What Add and Remove write is the one sorted duplicate-free list of the set union and difference |
| `Finalizers.WriteLaws` | pkg/util/finalizer/finalizer.go:17-28 | Both are idempotent, and Remove undoes Add of an absent key up to order and duplicates |
| `Finalizers.SortedUnique` | pkg/util/finalizer/finalizer.go:17-28 | A set has one sorted listing |
| `Finalizers.Contains` | pkg/util/finalizer/finalizer.go:8-15 | The loop finds a string exactly when it is in the list |
| `Finalizers.Finalized.Add` | pkg/util/finalizer/finalizer.go:24-28 | The list is rewritten as the sorted listing with the key |
| `Finalizers.Finalized.Remove` | pkg/util/finalizer/finalizer.go:17-21 | The list is rewritten as the sorted listing without the key |
| `Finalizers.Finalized.HasFinalizer` | pkg/util/finalizer/finalizer.go:36-38 | Agrees with membership |
| `AlertMeaning.RendersMeaning` | pkg/alert/prometheusrule.go:110-131 | The rendered text is the text of the expression whose meaning is proved |
| `AlertMeaning.GroupsAsMeant` | pkg/alert/prometheusrule.go:87-94 | The meaning is grouped the way PromQL's precedence groups text |
| `AlertMeaning.TextMeansOnly` | pkg/alert/prometheusrule.go:110-131 | The rendered text has no other reading: for a URL without a quote and number texts of digits and points, an expression of well-formed numbers, ranges and selectors that PromQL's precedence allows has this text exactly when it is the meaning |
| `AlertMeaning.AcceptedTextMeansOnly` | pkg/alert/prometheusrule.go:153-182 | So it is for each of the four rules and every accepted target |
| `PromQLText.TextDetermines` | pkg/alert/prometheusrule.go:87-137 | Two expressions of well-formed numbers, ranges and selectors that the precedence allows and that have the same text are the same |
| `PromQLText.TokensDetermine` | pkg/alert/prometheusrule.go:87-137 | The same for their tokens: the main operator can stand in one place only |
| `AlertMeaning.FiresExactly` | pkg/alert/prometheusrule.go:87-137 | A rule fires exactly when both windows hold more than half of the samples expected at thirty seconds and their failures exceed burn rate times error budget times count, and for the console when its URL is known |
| `AlertMeaning.NeverFires` | pkg/alert/prometheusrule.go:87-107 | No failures in a window, too few samples, or a rate of one or more: never |
| `AlertMeaning.FiringIsMonotone` | pkg/alert/prometheusrule.go:87-107 | Turning successes into failures and raising the target keep an alert firing |
| `AlertMeaning.CanFireExactly` | pkg/alert/prometheusrule.go:87-107 | Some sample series fires a rule exactly when burn rate times error budget is below one |
| `AlertMeaning.WhichRulesCanFire` | pkg/alert/prometheusrule.go:153-182 | For every accepted target the rates are positive and the slower three rules can fire; the fastest exactly above 100 - 100/14.4 percent |
| `AlertMeaning.BudgetIsPositive` | pkg/reconcile/common.go:92-104 | An accepted target leaves an error budget between zero and one tenth |
| `Alerts.NecessaryIsHalf` | pkg/alert/prometheusrule.go:96-107 | More than the printed number of samples is more than half of those expected in the window |
| `Alerts.Rules` | pkg/alert/prometheusrule.go:184-186 | The append loop renders the rules in order |
| `Alerts.TemplateAt` | pkg/alert/prometheusrule.go:150-203 | Rule by rule, what the loop collects is the rendering of that burn rate |
| `Dynatrace.PruneConserves` | controllers/hostedcontrolplane/synthetics.go:202-214 | Pruning leaves the first monitor and those whose deletion did not take effect, counted exactly, and no other cluster's change |
| `Dynatrace.DynatraceApiClient.RemoveMonitors` | controllers/hostedcontrolplane/synthetics.go:132-138 | Every excess deletion is attempted in order despite earlier failures, and exactly those without effect are left |
| `Dynatrace.DynatraceApiClient.Deploy` | controllers/hostedcontrolplane/synthetics.go:172-243 | On success the cluster has one monitor plus the excess ones left, one has the wanted location, every excess deletion was attempted, and other clusters' monitors are unchanged |
| `Dynatrace.DynatraceApiClient.Reuse` | controllers/hostedcontrolplane/synthetics.go:202-243 | The same for a cluster that has monitors already |
| `Dynatrace.DynatraceApiClient.Recreate` | controllers/hostedcontrolplane/synthetics.go:229-240 | A monitor in the wrong location is replaced by one in the right location, the count unchanged |
| `Dynatrace.DynatraceApiClient.DeleteByCluster` | pkg/dynatrace/dynatrace.go:324-337 | Success leaves none of the listed monitors; it stops at the first deletion that fails, and only attempted ones go |
| `Dynatrace.DynatraceApiClient.DeleteSingleMonitor` | pkg/dynatrace/dynatrace.go:310-322 | Success means the monitor was there and is gone |
| `Dynatrace.DynatraceApiClient.ListForCluster` | pkg/dynatrace/dynatrace.go:167-187 | The listing names the cluster's monitors, each once, in any order |

## Left out

- Interleaving inside a Kubernetes reconcile: a list and a delete split by the other controller could break the exporter invariant, which is proved for atomic reconciles only.
- The rate-limited backoff of controller-runtime: time is bounded through explicit requeue times only.
- HTTP requests, JSON, TLS dialling, logging, URL building, OIDC secrets and metrics other than the probe-deletion timeout counter: status codes, bodies and results are inputs. An unset OIDC configuration, which needs no token, is not modelled.
- main.go, flag and ConfigMap parsing, watch set-up and generated code: no decisions that the reconcilers depend on beyond the configuration values they read.
- The exporter's Deployment beyond image and node label, the Dynatrace region table and the choice of its location, version comparison, URL validation and `removeSubdomain`: single functions or library calls whose results are inputs.
- Dynatrace inside the hosted control plane step: its outcome is an input there; its own behaviour is the Dynatrace module.
- Owner-reference garbage collection: a monitoring.rhobs ServiceMonitor of a deleted RouteMonitor goes that way in a real cluster.
- Control planes that share one cluster ID: ownership is by cluster ID, so the no-orphan theorem asks that some control plane of the cluster carries the finalizer.
- Escaping in label values: a URL is rendered unescaped, as the code does; with a quote in it the text may be read differently (`AlertMeaning.TextMeansOnly` asks for none), and a backslash would be an escape.
- The 32-bit scale of the decimal library and float64 rounding in PromQL: decimals and samples are exact.
