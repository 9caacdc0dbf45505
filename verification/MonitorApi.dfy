/** api/v1alpha1: the two monitor resources, and the store that holds them
    together with what the operator deploys for them. */
module MonitorApi {
  import opened Base
  import opened KubeStore

  /** A monitoring.rhobs ServiceMonitor is asked for by `rhobs`. */
  datatype RouteMonitorSpec = RouteMonitorSpec(route: Name, port: int, suffix: string, slo: string,
                                               skipRule: bool, insecure: bool, rhobs: bool)

  /** `hcp` is the domain reference "hcp"; the other one is "infra". */
  datatype UrlMonitorSpec = UrlMonitorSpec(prefix: string, port: string, suffix: string, slo: string,
                                           skipRule: bool, hcp: bool)

  /** A ClusterUrlMonitor leaves `routeURL` empty. */
  datatype Status = Status(routeURL: string, serviceMonitorRef: Name, prometheusRuleRef: Name, errorStatus: string)

  const EMPTY_STATUS := Status("", NO_NAME, NO_NAME, "")

  type RouteMonitor = Object<RouteMonitorSpec, Status>

  type UrlMonitor = Object<UrlMonitorSpec, Status>

  /** What the operator deploys: the two kinds of ServiceMonitor, alerting rules,
      and the three objects of the shared blackbox exporter. */
  datatype Kind = ServiceMonitor | RhobsServiceMonitor | PrometheusRule
                | ExporterConfigMap | ExporterDeployment | ExporterService

  datatype Dep = Dep(kind: Kind, name: Name)

  /** The specs that templates produce, by the values that vary in them. */
  datatype Template =
    | Probing(url: string, exporterNamespace: string, module_: string, clusterId: string)
    | Alerting(url: string, percent: string, owner: Name)
    | ConfigMapData
    | DeploymentSpec(image: string, nodeLabel: string)
    | ServiceSpec

  type Deps = map<Dep, Template>

  datatype Store = Store(rms: Objects<RouteMonitorSpec, Status>, cums: Objects<UrlMonitorSpec, Status>, deps: Deps)
}
