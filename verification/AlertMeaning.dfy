/** What the rendered alerting rules mean: read as PromQL over any sample series,
    when they fire and when they cannot. */
module AlertMeaning {
  import opened Base
  import opened Digits
  import opened Slo
  import opened KubeStore
  import opened Alerts
  import opened PromQL
  import opened PromQLText

  const ONE := Decimal("1", 1.0)
  const ZERO := Decimal("0", 0.0)

  /** A literal is read exactly. */
  function Read(text: string): Decimal {
    Decimal(text, match ParseDec(text) case None => 0.0 case Some(d) => Real(d))
  }

  /** What varies in a rule's expression. */
  datatype Terms = Terms(short: Window, long: Window, selector: string, percent: Decimal, burn: Decimal,
                         enoughShort: Decimal, enoughLong: Decimal)

  function TermsOf(r: BurnRule, url: string, percent: string): Terms {
    Terms(Window(r.shortWindow, Seconds(r.shortWindow)), Window(r.longWindow, Seconds(r.longWindow)), Selector(url),
          Read(percent), Read(r.burn), Read(Itoa(NecessaryProbes(r.shortWindow))), Read(Itoa(NecessaryProbes(r.longWindow))))
  }

  function Share(t: Terms, w: Window): Expr {
    Paren(Bin(SumOf(Successes, t.selector, w), "", Over, " ", SumOf(Samples, t.selector, w)))
  }

  function Budget(t: Terms): Expr { Paren(Bin(Number(ONE), "", Minus, "", Number(t.percent))) }

  function Allowed(t: Terms): Expr { Paren(Bin(Number(t.burn), "", Times, "", Budget(t))) }

  function FailureRate(t: Terms, w: Window): Expr { Bin(Number(ONE), "", Minus, "", Share(t, w)) }

  function Threshold(t: Terms, w: Window): Expr { Bin(FailureRate(t, w), "", Above, " ", Allowed(t)) }

  function Enough(t: Terms, w: Window, n: Decimal): Expr { Bin(SumOf(Samples, t.selector, w), " ", Above, " ", Number(n)) }

  function Both(a: Expr, blank: string, b: Expr): Expr { Bin(a, blank, And, blank, b) }

  function Windows(t: Terms): Expr {
    Both(Both(Both(Threshold(t, t.short), " ", Enough(t, t.short, t.enoughShort)), "\n", Threshold(t, t.long)),
         " ", Enough(t, t.long, t.enoughLong))
  }

  function ConsoleUp(url: string): Expr { Bin(ConsoleCount(url), " ", Above, " ", Number(ZERO)) }

  function MeaningOf(t: Terms, console: Option<string>): Expr {
    if console.Some? then Both(Windows(t), "\n", ConsoleUp(console.value)) else Windows(t)
  }

  /** The URL that must be known for a console's rule. */
  function ConsoleOf(url: string, name: Name): Option<string> {
    if name.name == "console" then Some(TrimSuffix(url, "/health")) else None
  }

  function Meaning(r: BurnRule, url: string, percent: string, name: Name): Expr {
    MeaningOf(TermsOf(r, url, percent), ConsoleOf(url, name))
  }

  // ----- the text and the meaning -----

  lemma Glue(a: string, b: string, c: string, d: string, e: string)
    ensures a + b + c + d + e == a + (b + c + d) + e
  {
  }

  lemma BudgetText(t: Terms)
    ensures Text(Budget(t)) == "(1-" + t.percent.text + ")"
  {
    BinText(Number(ONE), "", Minus, "", Number(t.percent));
    assert "1" + "" + "-" + "" == "1-";
    assert "(" + ("1-" + t.percent.text) == ("(" + "1-") + t.percent.text;
    assert "(" + "1-" == "(1-";
  }

  lemma AllowedText(t: Terms)
    ensures Text(Allowed(t)) == "(" + t.burn.text + "*(1-" + t.percent.text + "))"
  {
    BudgetText(t);
    BinText(Number(t.burn), "", Times, "", Budget(t));
    assert t.burn.text + "" + "*" + "" == t.burn.text + "*";
    AllowedGlue(t.burn.text, t.percent.text);
  }

  lemma AllowedGlue(burn: string, percent: string)
    ensures "(" + ((burn + "*") + ("(1-" + percent + ")")) + ")" == "(" + burn + "*(1-" + percent + "))"
  {
    assert "*" + "(1-" == "*(1-" && ")" + ")" == "))";
    assert (burn + "*") + ("(1-" + percent + ")") == burn + "*(1-" + percent + ")";
    assert "(" + (burn + "*(1-" + percent + ")") + ")" == "(" + burn + "*(1-" + percent + (")" + ")");
  }

  lemma ShareText(t: Terms, w: Window)
    ensures Text(Share(t, w)) == "(" + SumText(t.selector, w.text) + "/ " + CountText(t.selector, w.text) + ")"
  {
    BinText(SumOf(Successes, t.selector, w), "", Over, " ", SumOf(Samples, t.selector, w));
    ShareGlue(SumText(t.selector, w.text), CountText(t.selector, w.text));
  }

  lemma ShareGlue(a: string, b: string)
    ensures "(" + (a + "" + "/" + " " + b) + ")" == "(" + a + "/ " + b + ")"
  {
    assert "" + "/" + " " == "/ ";
    Glue(a, "", "/", " ", b);
  }

  lemma FailureRateText(t: Terms, w: Window)
    ensures Text(FailureRate(t, w)) == "1-(" + SumText(t.selector, w.text) + "/ " + CountText(t.selector, w.text) + ")"
  {
    ShareText(t, w);
    BinText(Number(ONE), "", Minus, "", Share(t, w));
    var a, b := SumText(t.selector, w.text), CountText(t.selector, w.text);
    assert "1" + "" + "-" + "" == "1-" && "1-" + "(" == "1-(";
    assert "1-" + ("(" + a + "/ " + b + ")") == ("1-" + "(") + a + "/ " + b + ")";
  }

  lemma ThresholdText(t: Terms, w: Window)
    ensures Text(Threshold(t, w)) == AlertThreshold(w.text, t.percent.text, t.selector, t.burn.text)
  {
    FailureRateText(t, w);
    AllowedText(t);
    BinText(FailureRate(t, w), "", Above, " ", Allowed(t));
    ThresholdGlue(Text(FailureRate(t, w)), t.burn.text, t.percent.text);
  }

  lemma ThresholdGlue(left: string, burn: string, percent: string)
    ensures left + "" + ">" + " " + ("(" + burn + "*(1-" + percent + "))") == left + "> (" + burn + "*(1-" + percent + "))"
  {
    assert "" + ">" + " " == "> " && "> " + "(" == "> (";
    Glue(left, "", ">", " ", "(" + burn + "*(1-" + percent + "))");
    assert "> " + ("(" + burn + "*(1-" + percent + "))") == ("> " + "(") + burn + "*(1-" + percent + "))";
  }

  lemma EnoughText(t: Terms, w: Window, n: Decimal)
    requires n.text == Itoa(NecessaryProbes(w.text))
    ensures Text(Enough(t, w, n)) == SufficientProbes(w.text, t.selector)
  {
    BinText(SumOf(Samples, t.selector, w), " ", Above, " ", Number(n));
    Glue(CountText(t.selector, w.text), " ", ">", " ", n.text);
    assert " " + ">" + " " == " > ";
  }

  lemma BothText(a: Expr, blank: string, b: Expr)
    ensures Text(Both(a, blank, b)) == Text(a) + (blank + "and" + blank) + Text(b)
  {
    BinText(a, blank, And, blank, b);
    Glue(Text(a), blank, "and", blank, Text(b));
  }

  lemma AndBlanks()
    ensures " " + "and" + " " == " and " && "\n" + "and" + "\n" == "\nand\n"
  {
  }

  lemma WindowsText(t: Terms)
    requires t.enoughShort.text == Itoa(NecessaryProbes(t.short.text)) && t.enoughLong.text == Itoa(NecessaryProbes(t.long.text))
    ensures Text(Windows(t))
        == AlertThreshold(t.short.text, t.percent.text, t.selector, t.burn.text) + " and " + SufficientProbes(t.short.text, t.selector)
           + "\nand\n" + AlertThreshold(t.long.text, t.percent.text, t.selector, t.burn.text)
           + " and " + SufficientProbes(t.long.text, t.selector)
  {
    ThresholdText(t, t.short);
    ThresholdText(t, t.long);
    EnoughText(t, t.short, t.enoughShort);
    EnoughText(t, t.long, t.enoughLong);
    FourText(Threshold(t, t.short), Enough(t, t.short, t.enoughShort), Threshold(t, t.long), Enough(t, t.long, t.enoughLong));
  }

  lemma FourText(a: Expr, b: Expr, c: Expr, e: Expr)
    ensures Text(Both(Both(Both(a, " ", b), "\n", c), " ", e)) == Text(a) + " and " + Text(b) + "\nand\n" + Text(c) + " and " + Text(e)
  {
    AndBlanks();
    BothText(a, " ", b);
    BothText(Both(a, " ", b), "\n", c);
    BothText(Both(Both(a, " ", b), "\n", c), " ", e);
  }

  lemma ConsoleText(url: string)
    ensures Text(ConsoleUp(url)) == "count(console_url{url=\"" + url + "\"} == 1) > 0"
  {
    var c := "count(console_url{url=\"" + url;
    BinText(ConsoleCount(url), " ", Above, " ", Number(ZERO));
    assert Text(ConsoleCount(url)) == c + "\"} == 1)";
    Glue(c + "\"} == 1)", " ", ">", " ", "0");
    Glue(c, "\"} == 1)", " > ", "0", "");
    assert "\"} == 1)" + " > " + "0" == "\"} == 1) > 0";
    assert " " + ">" + " " == " > ";
  }

  /** The rendered text is the text of the meaning. */
  lemma RendersMeaning(r: BurnRule, url: string, percent: string, name: Name)
    ensures Expression(r, url, percent, name) == Text(Meaning(r, url, percent, name))
  {
    var t := TermsOf(r, url, percent);
    MeaningText(r, t, url, name);
  }

  lemma MeaningText(r: BurnRule, t: Terms, url: string, name: Name)
    requires t.short.text == r.shortWindow && t.long.text == r.longWindow && t.selector == Selector(url) && t.burn.text == r.burn
    requires t.enoughShort.text == Itoa(NecessaryProbes(t.short.text)) && t.enoughLong.text == Itoa(NecessaryProbes(t.long.text))
    ensures Expression(r, url, t.percent.text, name) == Text(MeaningOf(t, ConsoleOf(url, name)))
  {
    WindowsText(t);
    AndBlanks();
    ConsoleText(TrimSuffix(url, "/health"));
    BothText(Windows(t), "\n", ConsoleUp(TrimSuffix(url, "/health")));
  }

  /** PromQL groups that text the way the meaning does. */
  lemma GroupsAsMeant(t: Terms, console: Option<string>)
    ensures Grouped(MeaningOf(t, console))
  {
    WindowsGroup(t);
    if console.Some? {
      BinGroups(ConsoleCount(console.value), " ", Above, " ", Number(ZERO));
      BinGroups(Windows(t), "\n", And, "\n", ConsoleUp(console.value));
    }
  }

  lemma ThresholdGroups(t: Terms, w: Window)
    ensures Grouped(Threshold(t, w))
  {
    BinGroups(Number(ONE), "", Minus, "", Number(t.percent));
    BinGroups(Number(t.burn), "", Times, "", Budget(t));
    BinGroups(SumOf(Successes, t.selector, w), "", Over, " ", SumOf(Samples, t.selector, w));
    BinGroups(Number(ONE), "", Minus, "", Share(t, w));
    BinGroups(FailureRate(t, w), "", Above, " ", Allowed(t));
  }

  lemma WindowsGroup(t: Terms)
    ensures Grouped(Windows(t))
  {
    ThresholdGroups(t, t.short);
    ThresholdGroups(t, t.long);
    var a, b := Threshold(t, t.short), Enough(t, t.short, t.enoughShort);
    BinGroups(SumOf(Samples, t.selector, t.short), " ", Above, " ", Number(t.enoughShort));
    BinGroups(SumOf(Samples, t.selector, t.long), " ", Above, " ", Number(t.enoughLong));
    BinGroups(a, " ", And, " ", b);
    BinGroups(Both(a, " ", b), "\n", And, "\n", Threshold(t, t.long));
    BinGroups(Both(Both(a, " ", b), "\n", Threshold(t, t.long)), " ", And, " ", Enough(t, t.long, t.enoughLong));
  }

  // ----- when a rule fires -----

  lemma ReadInt(n: nat)
    ensures Read(Itoa(n)) == Decimal(Itoa(n), n as real)
  {
    PrintValue(n);
    ParseWhole(Print(n));
    ParsePlain(Print(n), (n, 0));
    assert Pow10(0) == 1;
  }

  lemma ConstantsAreRead()
    ensures ONE == Read("1") && ZERO == Read("0")
  {
    ReadInt(1);
    ReadInt(0);
    assert Itoa(1) == "1" && Itoa(0) == "0";
  }

  /** A window of `seconds` with more than half of the samples expected at one per
      thirty seconds, and failures above `rate` times the samples. */
  predicate Burning(l: seq<Sample>, now: int, seconds: nat, rate: real) {
    Burns(Failed(l, now, seconds), Count(l, now, seconds), seconds, rate)
  }

  predicate Burns(bad: nat, n: nat, seconds: nat, rate: real) {
    2 * 30 * n > seconds && bad as real > rate * n as real
  }

  /** What the threshold gives for a window of `n` samples, `good` of them successes. */
  function ThresholdReading(good: nat, n: nat, rate: real): Reading {
    Compare(Subtract(Scalar(1.0), Divide(Total(good, n), Total(n, n))), Scalar(rate))
  }

  /** The share of failures a rule allows: the burn rate times the error budget. */
  function Rate(t: Terms): real { t.burn.value * (1.0 - t.percent.value) }

  lemma AllowedValue(t: Terms, d: Data, now: int)
    ensures Eval(Allowed(t), d, now) == Scalar(Rate(t))
  {
    BinValue(Number(ONE), "", Minus, "", Number(t.percent), d, now);
    BinValue(Number(t.burn), "", Times, "", Budget(t), d, now);
    assert Eval(Budget(t), d, now) == Scalar(1.0 - t.percent.value);
  }

  lemma ThresholdValue(t: Terms, w: Window, d: Data, now: int)
    ensures var l := Selected(d, t.selector);
      Eval(Threshold(t, w), d, now)
        == ThresholdReading(Successful(l, now, w.seconds), Count(l, now, w.seconds), Rate(t))
  {
    AllowedValue(t, d, now);
    FailureRateValue(t, w, d, now);
    BinValue(FailureRate(t, w), "", Above, " ", Allowed(t), d, now);
  }

  lemma FailureRateValue(t: Terms, w: Window, d: Data, now: int)
    ensures var l := Selected(d, t.selector);
      var good, n := Successful(l, now, w.seconds), Count(l, now, w.seconds);
      Eval(FailureRate(t, w), d, now) == Subtract(Scalar(1.0), Divide(Total(good, n), Total(n, n)))
  {
    BinValue(SumOf(Successes, t.selector, w), "", Over, " ", SumOf(Samples, t.selector, w), d, now);
    BinValue(Number(ONE), "", Minus, "", Share(t, w), d, now);
  }

  /** One minus the share of successes is above `k` exactly when the failures are above `k` times the count. */
  lemma FailureShare(good: nat, bad: nat, n: nat, k: real)
    requires n == good + bad && n > 0
    ensures 1.0 - good as real / n as real > k <==> bad as real > k * n as real
  {
    ShareOrdered(good as real, bad as real, n as real, k);
  }

  lemma ShareOrdered(good: real, bad: real, n: real, k: real)
    requires n == good + bad && n > 0.0
    ensures 1.0 - good / n > k <==> bad > k * n
  {
    var y := good / n;
    var z := 1.0 - y - k;
    assert y * n == good;
    Distribute(y, k, n);
    assert z * n == bad - k * n;
    ScaledUp(if z > 0.0 then z else -z, n);
    assert z <= 0.0 ==> (-z) * n == -(z * n);
  }

  lemma Distribute(y: real, k: real, n: real)
    ensures (1.0 - y - k) * n == n - y * n - k * n
  {
  }

  lemma ScaledUp(a: real, x: real)
    requires a >= 0.0 && x > 0.0
    ensures a * x >= 0.0 && (a > 0.0 ==> a * x > 0.0)
  {
  }

  lemma ThresholdHolds(good: nat, bad: nat, n: nat, rate: real)
    requires n == good + bad
    ensures Holds(ThresholdReading(good, n, rate)) <==> n > 0 && bad as real > rate * n as real
  {
    if n > 0 {
      ShareCompares(good as real, n as real, rate);
      FailureShare(good, bad, n, rate);
    }
  }

  lemma ShareCompares(good: real, n: real, rate: real)
    requires n > 0.0
    ensures Holds(Compare(Subtract(Scalar(1.0), Divide(Vector(Some(good)), Vector(Some(n)))), Scalar(rate)))
      <==> 1.0 - good / n > rate
  {
  }

  /** The count's literal is above the count exactly when half of the expected samples are. */
  predicate Halves(n: Decimal, l: seq<Sample>, now: int, w: Window) {
    Count(l, now, w.seconds) as real > n.value <==> 2 * 30 * Count(l, now, w.seconds) > w.seconds
  }

  lemma EnoughValue(t: Terms, w: Window, n: Decimal, d: Data, now: int)
    ensures Eval(Enough(t, w, n), d, now) == Compare(Total(Count(Selected(d, t.selector), now, w.seconds), Count(Selected(d, t.selector), now, w.seconds)), Scalar(n.value))
  {
    BinValue(SumOf(Samples, t.selector, w), " ", Above, " ", Number(n), d, now);
  }

  /** Threshold and count of one window together. */
  lemma WindowHolds(l: seq<Sample>, now: int, w: Window, n: Decimal, rate: real)
    requires Halves(n, l, now, w)
    ensures var good, count := Successful(l, now, w.seconds), Count(l, now, w.seconds);
      Holds(ThresholdReading(good, count, rate)) && Holds(Compare(Total(count, count), Scalar(n.value)))
      <==> Burning(l, now, w.seconds, rate)
  {
    var good, bad, count := Successful(l, now, w.seconds), Failed(l, now, w.seconds), Count(l, now, w.seconds);
    Tally(l, now, w.seconds);
    CountsHold(good, bad, count, w.seconds, n.value, rate);
  }

  lemma CountsHold(good: nat, bad: nat, count: nat, seconds: nat, x: real, rate: real)
    requires count == good + bad && (count as real > x <==> 2 * 30 * count > seconds)
    ensures Holds(ThresholdReading(good, count, rate)) && Holds(Compare(Total(count, count), Scalar(x)))
      <==> Burns(bad, count, seconds, rate)
  {
    ThresholdHolds(good, bad, count, rate);
    TotalCompares(count, x);
  }

  lemma TotalCompares(count: nat, x: real)
    ensures Holds(Compare(Total(count, count), Scalar(x))) <==> count > 0 && count as real > x
  {
  }

  lemma FourValue(a: Expr, b: Expr, c: Expr, e: Expr, d: Data, now: int)
    ensures Holds(Eval(Both(Both(Both(a, " ", b), "\n", c), " ", e), d, now)) <==>
      Holds(Eval(a, d, now)) && Holds(Eval(b, d, now)) && Holds(Eval(c, d, now)) && Holds(Eval(e, d, now))
  {
    BinValue(a, " ", And, " ", b, d, now);
    BinValue(Both(a, " ", b), "\n", And, "\n", c, d, now);
    BinValue(Both(Both(a, " ", b), "\n", c), " ", And, " ", e, d, now);
  }

  lemma WindowsHold(t: Terms, d: Data, now: int)
    requires Halves(t.enoughShort, Selected(d, t.selector), now, t.short) && Halves(t.enoughLong, Selected(d, t.selector), now, t.long)
    ensures var l, rate := Selected(d, t.selector), Rate(t);
      Holds(Eval(Windows(t), d, now)) <==> Burning(l, now, t.short.seconds, rate) && Burning(l, now, t.long.seconds, rate)
  {
    var l, rate := Selected(d, t.selector), Rate(t);
    FourValue(Threshold(t, t.short), Enough(t, t.short, t.enoughShort), Threshold(t, t.long), Enough(t, t.long, t.enoughLong), d, now);
    ThresholdValue(t, t.short, d, now);
    ThresholdValue(t, t.long, d, now);
    EnoughValue(t, t.short, t.enoughShort, d, now);
    EnoughValue(t, t.long, t.enoughLong, d, now);
    WindowHolds(l, now, t.short, t.enoughShort, rate);
    WindowHolds(l, now, t.long, t.enoughLong, rate);
  }

  lemma MeaningHolds(t: Terms, console: Option<string>, d: Data, now: int)
    requires Halves(t.enoughShort, Selected(d, t.selector), now, t.short) && Halves(t.enoughLong, Selected(d, t.selector), now, t.long)
    ensures Holds(Eval(MeaningOf(t, console), d, now)) <==> Condition(t, console, d, now)
  {
    WindowsHold(t, d, now);
    if console.Some? {
      BinValue(ConsoleCount(console.value), " ", Above, " ", Number(ZERO), d, now);
      BinValue(Windows(t), "\n", And, "\n", ConsoleUp(console.value), d, now);
    }
  }

  /** Both windows burn and, for a console, its URL is known. */
  predicate Condition(t: Terms, console: Option<string>, d: Data, now: int) {
    var l := Selected(d, t.selector);
    Burning(l, now, t.short.seconds, Rate(t)) && Burning(l, now, t.long.seconds, Rate(t))
    && (console.Some? ==> console.value in d.consoles && d.consoles[console.value] > 0)
  }

  /** The condition of the rendered rule holds at `now`. */
  predicate Fires(r: BurnRule, url: string, percent: string, name: Name, d: Data, now: int) {
    Holds(Eval(Meaning(r, url, percent, name), d, now))
  }

  lemma HalvesRead(window: string, l: seq<Sample>, now: int)
    ensures Halves(Read(Itoa(NecessaryProbes(window))), l, now, Window(window, Seconds(window)))
  {
    var n := Count(l, now, Seconds(window));
    NecessaryIsHalf(window, n);
    ReadInt(NecessaryProbes(window));
  }

  /** What a rendered rule means, for every rule, monitor and sample series: it fires
      exactly when both windows hold more than half of the expected samples and burn
      the error budget faster than the rule allows, and, for the console, when the
      console's URL is known. */
  lemma FiresExactly(r: BurnRule, url: string, percent: string, name: Name, d: Data, now: int)
    ensures Fires(r, url, percent, name, d, now) <==> Condition(TermsOf(r, url, percent), ConsoleOf(url, name), d, now)
  {
    TermsFire(r, TermsOf(r, url, percent), url, ConsoleOf(url, name), d, now);
  }

  lemma TermsFire(r: BurnRule, t: Terms, url: string, console: Option<string>, d: Data, now: int)
    requires t.short == Window(r.shortWindow, Seconds(r.shortWindow)) && t.long == Window(r.longWindow, Seconds(r.longWindow))
    requires t.enoughShort == Read(Itoa(NecessaryProbes(r.shortWindow))) && t.enoughLong == Read(Itoa(NecessaryProbes(r.longWindow)))
    ensures Holds(Eval(MeaningOf(t, console), d, now)) <==> Condition(t, console, d, now)
  {
    HalvesRead(r.shortWindow, Selected(d, t.selector), now);
    HalvesRead(r.longWindow, Selected(d, t.selector), now);
    MeaningHolds(t, console, d, now);
  }

  // ----- what follows for valid targets -----

  /** The scaled target of an accepted one leaves a positive error budget below one tenth. */
  lemma BudgetIsPositive(target: string, percent: string)
    requires IsValid(target) == Some(percent)
    ensures 0.0 < 1.0 - Read(percent).value < 0.1
    ensures Read(percent).value == Read(target).value / 100.0
  {
    ScalesExactly(target);
  }

  /** Without failures in one of its windows, or with no more than half of the expected
      samples in one, a rule with a positive rate does not burn; with a rate of one or
      more none does. */
  lemma NotBurning(l: seq<Sample>, now: int, seconds: nat, rate: real)
    requires rate > 0.0
    requires Failed(l, now, seconds) == 0 || 2 * 30 * Count(l, now, seconds) <= seconds || rate >= 1.0
    ensures !Burning(l, now, seconds, rate)
  {
    Tally(l, now, seconds);
    RateTimes(rate, Count(l, now, seconds) as real);
  }

  lemma RateTimes(rate: real, n: real)
    requires rate > 0.0 && n >= 0.0
    ensures rate * n >= 0.0 && (rate >= 1.0 ==> rate * n >= n)
  {
    if rate >= 1.0 {
      ScaledUp(rate - 1.0, n + 1.0);
      assert (rate - 1.0) * n >= 0.0;
      assert (rate - 1.0) * n == rate * n - n;
    }
  }

  /** No alert without failures, without enough samples, or with nothing to burn. */
  lemma NeverFires(r: BurnRule, url: string, percent: string, name: Name, d: Data, now: int, w: Window)
    requires var t := TermsOf(r, url, percent);
      Rate(t) > 0.0 && (w == t.short || w == t.long)
      && (Failed(Selected(d, Selector(url)), now, w.seconds) == 0
          || 2 * 30 * Count(Selected(d, Selector(url)), now, w.seconds) <= w.seconds
          || Rate(t) >= 1.0)
    ensures !Fires(r, url, percent, name, d, now)
  {
    FiresExactly(r, url, percent, name, d, now);
    ConditionFails(TermsOf(r, url, percent), ConsoleOf(url, name), d, now, w);
  }

  lemma ConditionFails(t: Terms, console: Option<string>, d: Data, now: int, w: Window)
    requires Rate(t) > 0.0 && (w == t.short || w == t.long)
    requires Failed(Selected(d, t.selector), now, w.seconds) == 0
      || 2 * 30 * Count(Selected(d, t.selector), now, w.seconds) <= w.seconds || Rate(t) >= 1.0
    ensures !Condition(t, console, d, now)
  {
    NotBurning(Selected(d, t.selector), now, w.seconds, Rate(t));
  }

  /** The same probes, some of them turned from success to failure. */
  predicate Worse(a: seq<Sample>, b: seq<Sample>) {
    |a| == |b| && forall i :: 0 <= i < |a| ==> a[i].at == b[i].at && (b[i].success ==> a[i].success)
  }

  lemma {:induction false} WorseCounts(a: seq<Sample>, b: seq<Sample>, now: int, seconds: nat)
    requires Worse(a, b)
    ensures Count(a, now, seconds) == Count(b, now, seconds) && Failed(a, now, seconds) <= Failed(b, now, seconds)
  {
    if a != [] {
      assert a[0].at == b[0].at;
      forall i | 0 <= i < |a| - 1 ensures a[1..][i].at == b[1..][i].at && (b[1..][i].success ==> a[1..][i].success) {
        assert a[i + 1].at == b[i + 1].at;
      }
      WorseCounts(a[1..], b[1..], now, seconds);
    }
  }

  lemma BurningGrows(a: seq<Sample>, b: seq<Sample>, now: int, seconds: nat, rate: real, tighter: real)
    requires Worse(a, b) && tighter <= rate && Burning(a, now, seconds, rate)
    ensures Burning(b, now, seconds, tighter)
  {
    WorseCounts(a, b, now, seconds);
    BurnsMore(Failed(a, now, seconds), Failed(b, now, seconds), Count(a, now, seconds), seconds, rate, tighter);
  }

  lemma BurnsMore(bad: nat, worse: nat, n: nat, seconds: nat, rate: real, tighter: real)
    requires bad <= worse && tighter <= rate && Burns(bad, n, seconds, rate)
    ensures Burns(worse, n, seconds, tighter)
  {
    LowerRate(tighter, rate, n as real);
  }

  lemma LowerRate(tighter: real, rate: real, n: real)
    requires tighter <= rate && n >= 0.0
    ensures tighter * n <= rate * n
  {
    assert (rate - tighter) * n >= 0.0;
    assert (rate - tighter) * n == rate * n - tighter * n;
  }

  lemma ConditionGrows(t: Terms, u: Terms, console: Option<string>, d: Data, worse: Data, now: int)
    requires u.short == t.short && u.long == t.long && u.selector == t.selector && Rate(u) <= Rate(t)
    requires Worse(Selected(d, t.selector), Selected(worse, t.selector)) && worse.consoles == d.consoles
    requires Condition(t, console, d, now)
    ensures Condition(u, console, worse, now)
  {
    BurningGrows(Selected(d, t.selector), Selected(worse, t.selector), now, t.short.seconds, Rate(t), Rate(u));
    BurningGrows(Selected(d, t.selector), Selected(worse, t.selector), now, t.long.seconds, Rate(t), Rate(u));
  }

  /** Firing is monotone: turning successes into failures and raising the target keep an alert firing. */
  lemma FiringIsMonotone(r: BurnRule, url: string, percent: string, higher: string, name: Name, d: Data, worse: Data, now: int)
    requires Worse(Selected(d, Selector(url)), Selected(worse, Selector(url))) && worse.consoles == d.consoles
    ensures Read(r.burn).value >= 0.0 && Read(percent).value <= Read(higher).value && Fires(r, url, percent, name, d, now) ==>
      Fires(r, url, higher, name, worse, now)
  {
    var t, u := TermsOf(r, url, percent), TermsOf(r, url, higher);
    FiresExactly(r, url, percent, name, d, now);
    FiresExactly(r, url, higher, name, worse, now);
    if t.burn.value >= 0.0 && t.percent.value <= u.percent.value && Condition(t, ConsoleOf(url, name), d, now) {
      TermsOrdered(t, u);
      ConditionGrows(t, u, ConsoleOf(url, name), d, worse, now);
    }
  }

  lemma TermsOrdered(t: Terms, u: Terms)
    requires t.burn == u.burn && t.burn.value >= 0.0 && t.percent.value <= u.percent.value
    ensures Rate(u) <= Rate(t)
  {
    RatesOrdered(t.burn.value, t.percent.value, u.percent.value);
  }

  lemma RatesOrdered(burn: real, low: real, high: real)
    requires burn >= 0.0 && low <= high
    ensures burn * (1.0 - high) <= burn * (1.0 - low)
  {
    assert burn * (high - low) >= 0.0;
    assert burn * (high - low) == burn * (1.0 - low) - burn * (1.0 - high);
  }

  function Failures(n: nat): seq<Sample> { if n == 0 then [] else [Sample(0, false)] + Failures(n - 1) }

  lemma {:induction false} AllFailed(n: nat, seconds: nat)
    requires seconds > 0
    ensures Count(Failures(n), 0, seconds) == n && Failed(Failures(n), 0, seconds) == n
  {
    if n > 0 {
      AllFailed(n - 1, seconds);
      assert Failures(n)[1..] == Failures(n - 1);
    }
  }

  /** Some sample series makes the rule fire. */
  ghost predicate CanFire(r: BurnRule, url: string, percent: string, name: Name) {
    exists d: Data, now: int :: Fires(r, url, percent, name, d, now)
  }

  /** Exactly which rules can fire at all: those whose rate stays below one. */
  lemma CanFireExactly(r: BurnRule, url: string, percent: string, name: Name)
    ensures var t := TermsOf(r, url, percent);
      t.short.seconds > 0 && t.long.seconds > 0 && Rate(t) > 0.0 ==> (CanFire(r, url, percent, name) <==> Rate(t) < 1.0)
  {
    var t := TermsOf(r, url, percent);
    if t.short.seconds > 0 && t.long.seconds > 0 && Rate(t) > 0.0 {
      if Rate(t) < 1.0 {
        OutageFires(r, url, percent, name);
      } else {
        forall d: Data, now: int ensures !Fires(r, url, percent, name, d, now) {
          NeverFires(r, url, percent, name, d, now, t.short);
        }
      }
    }
  }

  lemma OutageFires(r: BurnRule, url: string, percent: string, name: Name)
    ensures var t := TermsOf(r, url, percent);
      t.short.seconds > 0 && t.long.seconds > 0 && Rate(t) < 1.0 ==> CanFire(r, url, percent, name)
  {
    var t := TermsOf(r, url, percent);
    if t.short.seconds > 0 && t.long.seconds > 0 && Rate(t) < 1.0 {
      var d := Outage(t, ConsoleOf(url, name));
      FiresExactly(r, url, percent, name, d, 0);
    }
  }

  lemma Outage(t: Terms, console: Option<string>) returns (d: Data)
    requires t.short.seconds > 0 && t.long.seconds > 0 && Rate(t) < 1.0
    ensures Condition(t, console, d, 0)
  {
    var n := t.short.seconds + t.long.seconds;
    d := Data(map[t.selector := Failures(n)], if console.Some? then map[console.value := 1] else map[]);
    AllFailed(n, t.short.seconds);
    AllFailed(n, t.long.seconds);
    OutageBurns(n, t.short.seconds, Rate(t));
    OutageBurns(n, t.long.seconds, Rate(t));
  }

  lemma OutageBurns(n: nat, seconds: nat, rate: real)
    requires rate < 1.0 && n >= seconds > 0
    ensures Burns(n, n, seconds, rate)
  {
    BelowAll(rate, n);
  }

  lemma BelowAll(rate: real, n: nat)
    requires rate < 1.0 && n > 0
    ensures n as real > rate * n as real
  {
    ScaledUp(1.0 - rate, n as real);
    assert (1.0 - rate) * n as real == n as real - rate * n as real;
  }

  lemma SecondsOf(n: nat, unit: char)
    ensures var s := Seconds(Itoa(n) + [unit]);
      s == (if unit == 's' then n else if unit == 'm' then n * 60 else if unit == 'h' then n * 3600 else if unit == 'd' then n * 86400 else 0)
  {
    PrintValue(n);
    var window := Itoa(n) + [unit];
    assert window[..|window| - 1] == Itoa(n);
  }

  lemma RuleWindows(i: nat)
    requires i < |BURN_RULES|
    ensures Seconds(BURN_RULES[i].shortWindow) == [5 * 60, 30 * 60, 2 * 3600, 6 * 3600][i]
    ensures Seconds(BURN_RULES[i].longWindow) == [3600, 6 * 3600, 86400, 3 * 86400][i]
  {
    SmallWindows();
    assert BURN_RULES[i].shortWindow == ["5m", "30m", "2h", "6h"][i];
    assert BURN_RULES[i].longWindow == ["1h", "6h", "1d", "3d"][i];
  }

  lemma SmallWindows()
    ensures Seconds("5m") == 300 && Seconds("30m") == 1800 && Seconds("2h") == 7200 && Seconds("6h") == 21600
    ensures Seconds("1h") == 3600 && Seconds("1d") == 86400 && Seconds("3d") == 259200
  {
    SmallNumbers();
    SecondsOf(5, 'm');
    SecondsOf(30, 'm');
    SecondsOf(2, 'h');
    SecondsOf(6, 'h');
    SecondsOf(1, 'h');
    SecondsOf(1, 'd');
    SecondsOf(3, 'd');
    assert "5" + ['m'] == "5m" && "30" + ['m'] == "30m" && "2" + ['h'] == "2h" && "6" + ['h'] == "6h";
    assert "1" + ['h'] == "1h" && "1" + ['d'] == "1d" && "3" + ['d'] == "3d";
  }

  lemma SmallNumbers()
    ensures Itoa(1) == "1" && Itoa(2) == "2" && Itoa(3) == "3" && Itoa(5) == "5" && Itoa(6) == "6" && Itoa(30) == "30"
  {
  }

  lemma RuleBurns(i: nat)
    requires i < |BURN_RULES|
    ensures Read(BURN_RULES[i].burn).value == [14.4, 6.0, 3.0, 1.0][i]
  {
    assert BURN_RULES[i].burn == ["14.40", "6", "3", "1"][i];
    if i == 0 { ReadFast(); } else { ReadDigit("631"[i - 1]); }
  }

  lemma ReadDigit(c: char)
    requires IsDigit(c)
    ensures Read([c]).value == DigitValue(c) as real
  {
    ReadInt(DigitValue(c));
    assert Itoa(DigitValue(c)) == [c];
  }

  lemma ReadFast()
    ensures Read("14.40").value == 14.4
  {
    FastDigits();
    ParseParts("14", "40");
    ParsePlain("14.40", (1440, 2));
    assert Pow10(1) == 10 && Pow10(2) == 10 * Pow10(1);
  }

  lemma FastDigits()
    ensures "14" + "." + "40" == "14.40" && "14" + "40" == "1440" && AllDigits("14") && AllDigits("40")
    ensures AllDigits("1440") && Value("1440") == 1440
  {
    assert "1440"[..3] == "144" && "144"[..2] == "14" && "14"[..1] == "1" && "1"[..0] == "";
    assert Value("1") == 1;
    assert Value("14") == 14;
    assert Value("144") == 144;
  }

  /** For every accepted target: the three slower rules can always fire, and the
      fastest one exactly when the target is above 100 - 100 / 14.4, about 93.06. */
  lemma WhichRulesCanFire(i: nat, target: string, percent: string, url: string, name: Name)
    requires i < |BURN_RULES| && IsValid(target) == Some(percent)
    ensures Rate(TermsOf(BURN_RULES[i], url, percent)) > 0.0
    ensures CanFire(BURN_RULES[i], url, percent, name) <==> (i == 0 ==> 14.4 * (100.0 - Read(target).value) < 100.0)
  {
    RuleWindows(i);
    RuleBurns(i);
    AcceptedCanFire(BURN_RULES[i], i, target, url, percent, name);
  }

  lemma AcceptedCanFire(r: BurnRule, i: nat, target: string, url: string, percent: string, name: Name)
    requires i < 4 && Read(r.burn).value == [14.4, 6.0, 3.0, 1.0][i] && IsValid(target) == Some(percent)
    requires Seconds(r.shortWindow) > 0 && Seconds(r.longWindow) > 0
    ensures Rate(TermsOf(r, url, percent)) > 0.0
    ensures CanFire(r, url, percent, name) <==> (i == 0 ==> 14.4 * (100.0 - Read(target).value) < 100.0)
  {
    BudgetIsPositive(target, percent);
    RuleCanFire(r, i, Read(target).value, url, percent, name);
  }

  lemma RuleCanFire(r: BurnRule, i: nat, target: real, url: string, percent: string, name: Name)
    requires i < 4 && Read(r.burn).value == [14.4, 6.0, 3.0, 1.0][i]
    requires Seconds(r.shortWindow) > 0 && Seconds(r.longWindow) > 0
    requires Read(percent).value == target / 100.0 && 0.0 < 1.0 - Read(percent).value < 0.1
    ensures Rate(TermsOf(r, url, percent)) > 0.0
    ensures CanFire(r, url, percent, name) <==> (i == 0 ==> 14.4 * (100.0 - target) < 100.0)
  {
    TermsBound(TermsOf(r, url, percent), i, target);
    CanFireExactly(r, url, percent, name);
  }

  lemma TermsBound(t: Terms, i: nat, target: real)
    requires i < 4 && t.burn.value == [14.4, 6.0, 3.0, 1.0][i]
    requires t.percent.value == target / 100.0 && 0.0 < 1.0 - t.percent.value < 0.1
    ensures Rate(t) > 0.0 && (Rate(t) < 1.0 <==> (i == 0 ==> 14.4 * (100.0 - target) < 100.0))
  {
    RateBounds(t.burn.value, t.percent.value, target);
  }

  lemma RateBounds(burn: real, scaled: real, target: real)
    requires burn == 14.4 || burn == 6.0 || burn == 3.0 || burn == 1.0
    requires scaled == target / 100.0 && 0.0 < 1.0 - scaled < 0.1
    ensures burn * (1.0 - scaled) > 0.0
    ensures burn * (1.0 - scaled) < 1.0 <==> (burn == 14.4 ==> 14.4 * (100.0 - target) < 100.0)
  {
  }

  // ----- the text means nothing else -----

  /** Literals are read exactly, ranges as durations. */
  const READER := Reader((text: string) => Read(text).value, (window: string) => Seconds(window))

  predicate NumberText(s: string) { s != "" && forall i :: 0 <= i < |s| ==> NumberChar(s[i]) }

  ghost predicate PlainTerms(t: Terms, r: Reader) {
    PlainNumber(ONE, r) && PlainNumber(ZERO, r) && PlainNumber(t.percent, r) && PlainNumber(t.burn, r)
    && PlainNumber(t.enoughShort, r) && PlainNumber(t.enoughLong, r) && Quoted(t.selector)
    && PlainWindow(t.short, r) && PlainWindow(t.long, r)
  }

  predicate PlainWindow(w: Window, r: Reader) { ']' !in w.text && w.seconds == r.seconds(w.text) }

  lemma ThresholdPlain(t: Terms, w: Window, r: Reader)
    requires PlainTerms(t, r) && PlainWindow(w, r)
    ensures Plain(Threshold(t, w), r)
  {
    PlainBin(Number(ONE), "", Minus, "", Number(t.percent), r);
    PlainParen(Bin(Number(ONE), "", Minus, "", Number(t.percent)), r);
    PlainBin(Number(t.burn), "", Times, "", Budget(t), r);
    PlainParen(Bin(Number(t.burn), "", Times, "", Budget(t)), r);
    PlainBin(SumOf(Successes, t.selector, w), "", Over, " ", SumOf(Samples, t.selector, w), r);
    PlainParen(Bin(SumOf(Successes, t.selector, w), "", Over, " ", SumOf(Samples, t.selector, w)), r);
    PlainBin(Number(ONE), "", Minus, "", Share(t, w), r);
    PlainBin(FailureRate(t, w), "", Above, " ", Allowed(t), r);
  }

  lemma EnoughPlain(t: Terms, w: Window, n: Decimal, r: Reader)
    requires PlainTerms(t, r) && PlainWindow(w, r) && PlainNumber(n, r)
    ensures Plain(Enough(t, w, n), r)
  {
    PlainBin(SumOf(Samples, t.selector, w), " ", Above, " ", Number(n), r);
  }

  lemma MeaningPlain(t: Terms, console: Option<string>, r: Reader)
    requires PlainTerms(t, r) && (console.Some? ==> NoQuote(console.value))
    ensures Plain(MeaningOf(t, console), r)
  {
    var a, b := Threshold(t, t.short), Enough(t, t.short, t.enoughShort);
    var c, d := Threshold(t, t.long), Enough(t, t.long, t.enoughLong);
    ThresholdPlain(t, t.short, r);
    ThresholdPlain(t, t.long, r);
    EnoughPlain(t, t.short, t.enoughShort, r);
    EnoughPlain(t, t.long, t.enoughLong, r);
    PlainBin(a, " ", And, " ", b, r);
    PlainBin(Both(a, " ", b), "\n", And, "\n", c, r);
    PlainBin(Both(Both(a, " ", b), "\n", c), " ", And, " ", d, r);
    if console.Some? {
      PlainBin(ConsoleCount(console.value), " ", Above, " ", Number(ZERO), r);
      PlainBin(Windows(t), "\n", And, "\n", ConsoleUp(console.value), r);
    }
  }

  lemma ReadIsPlain(text: string)
    requires NumberText(text)
    ensures PlainNumber(Read(text), READER)
  {
  }

  lemma CountIsPlain(window: string)
    ensures PlainNumber(Read(Itoa(NecessaryProbes(window))), READER)
  {
    NecessaryIsHalf(window, 0);
    PrintValue(NecessaryProbes(window));
    ReadIsPlain(Itoa(NecessaryProbes(window)));
  }

  lemma ConstantsArePlain()
    ensures PlainNumber(ONE, READER) && PlainNumber(ZERO, READER)
  {
    ConstantsAreRead();
    ReadIsPlain("1");
    ReadIsPlain("0");
  }

  lemma SelectorIsQuoted(url: string)
    requires NoQuote(url)
    ensures Quoted(Selector(url))
  {
    var p := URL_LABEL + "=";
    assert URL_LABEL + "=\"" == p + "\"";
    assert Selector(url) == p + "\"" + url + "\"";
  }

  /** A target that is accepted is rendered with digits and a point. */
  lemma AcceptedIsNumber(target: string, percent: string)
    requires IsValid(target) == Some(percent)
    ensures NumberText(percent)
  {
    AcceptsExactly(target);
    var d := ParseDec(target).value;
    var whole, fraction := PrintedParts(d.unscaled, d.scale + 2);
    assert percent == PrintDec(Slo.Times(d, ONE_HUNDREDTH)) == PrintUnsigned(d.unscaled, d.scale + 2);
    PointIsNumber(whole, fraction);
  }

  lemma PointIsNumber(whole: string, fraction: string)
    requires AllDigits(whole) && AllDigits(fraction)
    ensures NumberText(whole + "." + fraction)
  {
  }

  /** PromQL reads the rendered text in one way only: a plain expression that its
      grouping fits has this text exactly when it is the meaning. This asks that the URL holds
      no quote and that the rule's numbers are digits with points, as every accepted
      target's are. */
  lemma TextMeansOnly(r: BurnRule, url: string, percent: string, name: Name, e: Expr)
    requires NoQuote(url) && NumberText(percent) && NumberText(r.burn) && ']' !in r.shortWindow && ']' !in r.longWindow
    ensures Grouped(e) && Plain(e, READER) && Text(e) == Expression(r, url, percent, name) <==> e == Meaning(r, url, percent, name)
  {
    var t, console := TermsOf(r, url, percent), ConsoleOf(url, name);
    TermsArePlain(r, url, percent);
    ConsoleIsPlain(url, name);
    RendersMeaning(r, url, percent, name);
    OnlyMeaning(t, console, e, READER);
  }

  /** So it is for every rule of the operator and every accepted target. */
  lemma AcceptedTextMeansOnly(i: nat, target: string, url: string, percent: string, name: Name, e: Expr)
    requires i < |BURN_RULES| && IsValid(target) == Some(percent) && NoQuote(url)
    ensures Grouped(e) && Plain(e, READER) && Text(e) == Expression(BURN_RULES[i], url, percent, name)
      <==> e == Meaning(BURN_RULES[i], url, percent, name)
  {
    AcceptedIsNumber(target, percent);
    RuleTexts(i);
    TextMeansOnly(BURN_RULES[i], url, percent, name, e);
  }

  lemma RuleTexts(i: nat)
    requires i < |BURN_RULES|
    ensures NumberText(BURN_RULES[i].burn) && ']' !in BURN_RULES[i].shortWindow && ']' !in BURN_RULES[i].longWindow
  {
  }

  lemma OnlyMeaning(t: Terms, console: Option<string>, e: Expr, r: Reader)
    requires PlainTerms(t, r) && (console.Some? ==> NoQuote(console.value))
    ensures Grouped(e) && Plain(e, r) && Text(e) == Text(MeaningOf(t, console)) <==> e == MeaningOf(t, console)
  {
    MeaningPlain(t, console, r);
    GroupsAsMeant(t, console);
    if Grouped(e) && Plain(e, r) && Text(e) == Text(MeaningOf(t, console)) { TextDetermines(e, MeaningOf(t, console), r); }
  }

  lemma ConsoleIsPlain(url: string, name: Name)
    requires NoQuote(url)
    ensures ConsoleOf(url, name).Some? ==> NoQuote(ConsoleOf(url, name).value)
  {
  }

  lemma TermsArePlain(r: BurnRule, url: string, percent: string)
    requires NoQuote(url) && NumberText(percent) && NumberText(r.burn) && ']' !in r.shortWindow && ']' !in r.longWindow
    ensures PlainTerms(TermsOf(r, url, percent), READER)
  {
    ConstantsArePlain();
    ReadIsPlain(percent);
    ReadIsPlain(r.burn);
    CountIsPlain(r.shortWindow);
    CountIsPlain(r.longWindow);
    SelectorIsQuoted(url);
  }
}
