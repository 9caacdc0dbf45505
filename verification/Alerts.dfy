/** pkg/alert/prometheusrule.go: the alerting rules of a monitor, as the text the
    operator renders. */
module Alerts {
  import opened Base
  import opened Digits
  import opened KubeStore

  const URL_LABEL := "probe_url"
  const PROBE_PERIOD := "30s"

  /** prometheus.ParseDuration for one number with one unit, in seconds; an error counts as zero. */
  function Seconds(window: string): nat {
    if window == "" || !AllDigits(window[..|window| - 1]) then 0
    else
      var n := Value(window[..|window| - 1]);
      match window[|window| - 1]
      case 's' => n
      case 'm' => n * 60
      case 'h' => n * 3600
      case 'd' => n * 86400
      case _ => 0
  }

  function Minutes(seconds: nat): real { seconds as real / 60.0 }

  function SumText(selector: string, window: string): string {
    "sum(sum_over_time(probe_success{" + selector + "}[" + window + "]))"
  }

  function CountText(selector: string, window: string): string {
    "sum(count_over_time(probe_success{" + selector + "}[" + window + "]))"
  }

  function AlertThreshold(window: string, percent: string, selector: string, burn: string): string {
    "1-(" + SumText(selector, window) + "/ " + CountText(selector, window) + ")" + "> (" + burn + "*(1-" + percent + "))"
  }

  /** The float64 arithmetic is exact here: it divides by and multiplies with one half. */
  function NecessaryProbes(window: string): int {
    PeriodIsHalfAMinute();
    (Minutes(Seconds(window)) / Minutes(Seconds(PROBE_PERIOD)) * 0.5).Floor
  }

  lemma PeriodIsHalfAMinute()
    ensures Seconds(PROBE_PERIOD) == 30
  {
    assert PROBE_PERIOD[..2] == "30";
    assert "30"[..1] == "3" && "3"[..0] == "";
  }

  /** More than the necessary samples are more than half of those expected in the window. */
  lemma HalfOf(seconds: nat, n: nat)
    ensures n as real > (Minutes(seconds) / Minutes(30) * 0.5).Floor as real <==> 2 * 30 * n > seconds
    ensures (Minutes(seconds) / Minutes(30) * 0.5).Floor >= 0
  {
    var x := Minutes(seconds);
    assert Minutes(30) == 0.5 && x / 0.5 * 0.5 == x;
    assert x * 60.0 == seconds as real;
    assert x.Floor as real <= x < x.Floor as real + 1.0;
  }

  lemma NecessaryIsHalf(window: string, n: nat)
    ensures n > NecessaryProbes(window) <==> 2 * 30 * n > Seconds(window)
    ensures NecessaryProbes(window) >= 0
  {
    PeriodIsHalfAMinute();
    HalfOf(Seconds(window), n);
  }

  function SufficientProbes(window: string, selector: string): string {
    CountText(selector, window) + " > " + Itoa(NecessaryProbes(window))
  }

  /** strings.TrimSuffix. */
  function TrimSuffix(s: string, suffix: string): string {
    if |suffix| <= |s| && s[|s| - |suffix|..] == suffix then s[..|s| - |suffix|] else s
  }

  function Selector(url: string): string { URL_LABEL + "=\"" + url + "\"" }

  datatype BurnRule = BurnRule(duration: string, severity: string, longWindow: string, shortWindow: string, burn: string)

  datatype Rule = Rule(alert: string, expr: string, labels: map<string, string>, message: string, duration: string)

  function Expression(r: BurnRule, url: string, percent: string, name: Name): string {
    var selector := Selector(url);
    var alert := AlertThreshold(r.shortWindow, percent, selector, r.burn)
                 + " and " + SufficientProbes(r.shortWindow, selector)
                 + "\nand\n" + AlertThreshold(r.longWindow, percent, selector, r.burn)
                 + " and " + SufficientProbes(r.longWindow, selector);
    if name.name == "console" then alert + "\nand\n" + "count(console_url{url=\"" + TrimSuffix(url, "/health") + "\"} == 1) > 0"
    else alert
  }

  function Render(r: BurnRule, url: string, percent: string, name: Name): Rule {
    Rule(name.name + "-ErrorBudgetBurn", Expression(r, url, percent, name),
         map[URL_LABEL := url, "namespace" := name.namespace, "severity" := r.severity,
             "long_window" := r.longWindow, "short_window" := r.shortWindow],
         "High error budget burn for " + url + " (current value: {{ $value }})", r.duration)
  }

  const BURN_RULES := [
    BurnRule("2m", "critical", "1h", "5m", "14.40"),
    BurnRule("15m", "critical", "6h", "30m", "6"),
    BurnRule("1h", "warning", "1d", "2h", "3"),
    BurnRule("3h", "warning", "3d", "6h", "1")
  ]

  /** The first `n` rules of a monitor. */
  function Template(n: nat, url: string, percent: string, name: Name): (rules: seq<Rule>)
    requires n <= |BURN_RULES|
    ensures |rules| == n
  {
    if n == 0 then [] else Template(n - 1, url, percent, name) + [Render(BURN_RULES[n - 1], url, percent, name)]
  }

  lemma {:induction false} TemplateAt(n: nat, k: nat, url: string, percent: string, name: Name)
    requires k < n <= |BURN_RULES|
    ensures Template(n, url, percent, name)[k] == Render(BURN_RULES[k], url, percent, name)
  {
    if k < n - 1 { TemplateAt(n - 1, k, url, percent, name); }
  }

  /** The append loop of TemplateForPrometheusRuleResource. */
  method Rules(url: string, percent: string, name: Name) returns (rules: seq<Rule>)
    ensures rules == Template(|BURN_RULES|, url, percent, name)
  {
    rules := [];
    for i := 0 to |BURN_RULES|
      invariant rules == Template(i, url, percent, name)
    {
      rules := rules + [Render(BURN_RULES[i], url, percent, name)];
    }
  }
}
