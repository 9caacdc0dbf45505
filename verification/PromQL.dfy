/** The part of PromQL that alerting rules are written in: its text, how the text
    groups, and what an expression gives over stored samples. */
module PromQL {
  import opened Base

  datatype Op = Minus | Over | Times | Above | And

  /** sum_over_time and count_over_time. */
  datatype Aggregate = Successes | Samples

  /** A number literal and a range, with what their texts stand for. */
  datatype Decimal = Decimal(text: string, value: real)

  datatype Window = Window(text: string, seconds: nat)

  /** `before` and `after` are the blanks around an operator. */
  datatype Expr =
    | Number(literal: Decimal)
    | SumOf(what: Aggregate, selector: string, window: Window)
    | ConsoleCount(url: string)
    | Paren(inner: Expr)
    | Bin(left: Expr, before: string, op: Op, after: string, right: Expr)

  function OpText(op: Op): string {
    match op
    case Minus => "-"
    case Over => "/"
    case Times => "*"
    case Above => ">"
    case And => "and"
  }

  function Text(e: Expr): string {
    match e
    case Number(literal) => literal.text
    case SumOf(what, selector, window) =>
      (if what.Successes? then "sum(sum_over_time(probe_success{" else "sum(count_over_time(probe_success{")
      + selector + "}[" + window.text + "]))"
    case ConsoleCount(url) => "count(console_url{url=\"" + url + "\"} == 1)"
    case Paren(inner) => "(" + Text(inner) + ")"
    case Bin(left, before, op, after, right) => Text(left) + before + OpText(op) + after + Text(right)
  }

  /** How tightly the operators bind; all of these associate to the left. */
  function Binding(op: Op): nat {
    match op
    case Times => 4
    case Over => 4
    case Minus => 3
    case Above => 2
    case And => 1
  }

  function Tightness(e: Expr): nat { if e.Bin? then Binding(e.op) else 5 }

  /** Without further parentheses the text groups the way the expression does. */
  predicate Grouped(e: Expr) {
    match e
    case Paren(inner) => Grouped(inner)
    case Bin(left, _, op, _, right) =>
      Grouped(left) && Grouped(right) && Tightness(left) >= Binding(op) && Tightness(right) > Binding(op)
    case _ => true
  }

  // ----- stored samples -----

  /** One probe result: probe_success is one or zero. Times are in seconds. */
  datatype Sample = Sample(at: int, success: bool)

  /** The samples of all series a selector selects, and how many console_url series are one for a URL. */
  datatype Data = Data(samples: map<string, seq<Sample>>, consoles: map<string, nat>)

  function Selected(d: Data, selector: string): seq<Sample> {
    if selector in d.samples then d.samples[selector] else []
  }

  predicate Within(s: Sample, now: int, seconds: nat) { now - seconds < s.at <= now }

  function Count(l: seq<Sample>, now: int, seconds: nat): nat {
    if l == [] then 0 else Count(l[1..], now, seconds) + (if Within(l[0], now, seconds) then 1 else 0)
  }

  function Successful(l: seq<Sample>, now: int, seconds: nat): nat {
    if l == [] then 0
    else Successful(l[1..], now, seconds) + (if Within(l[0], now, seconds) && l[0].success then 1 else 0)
  }

  function Failed(l: seq<Sample>, now: int, seconds: nat): nat {
    if l == [] then 0
    else Failed(l[1..], now, seconds) + (if Within(l[0], now, seconds) && !l[0].success then 1 else 0)
  }

  lemma {:induction false} Tally(l: seq<Sample>, now: int, seconds: nat)
    ensures Count(l, now, seconds) == Successful(l, now, seconds) + Failed(l, now, seconds)
  {
    if l != [] { Tally(l[1..], now, seconds); }
  }

  // ----- evaluation -----

  /** A number, or an instant vector of at most one element without labels. */
  datatype Reading = Scalar(number: real) | Vector(element: Option<real>)

  predicate Empty(v: Reading) { v.Vector? && v.element.None? }

  predicate Holds(v: Reading) { v.Vector? && v.element.Some? }

  function NumberOf(v: Reading): real
    requires !Empty(v)
  {
    if v.Scalar? then v.number else v.element.value
  }

  /** A comparison keeps the vector's element; PromQL allows none between two scalars here. */
  function Compare(a: Reading, b: Reading): Reading {
    if Empty(a) || Empty(b) || (a.Scalar? && b.Scalar?) || NumberOf(a) <= NumberOf(b) then Vector(None)
    else Vector(Some(NumberOf(if a.Vector? then a else b)))
  }

  function Conjoin(a: Reading, b: Reading): Reading { Vector(if Holds(a) && Holds(b) then a.element else None) }

  /** Arithmetic between two scalars gives a scalar, otherwise a vector with the elements matched. */
  function Lifted(a: Reading, b: Reading, x: real): Reading {
    if Empty(a) || Empty(b) then Vector(None) else if a.Scalar? && b.Scalar? then Scalar(x) else Vector(Some(x))
  }

  function Subtract(a: Reading, b: Reading): Reading {
    if Empty(a) || Empty(b) then Vector(None) else Lifted(a, b, NumberOf(a) - NumberOf(b))
  }

  function Multiply(a: Reading, b: Reading): Reading {
    if Empty(a) || Empty(b) then Vector(None) else Lifted(a, b, NumberOf(a) * NumberOf(b))
  }

  /** A division by zero does not arise: a window that has an element has a sample. */
  function Divide(a: Reading, b: Reading): Reading {
    if Empty(a) || Empty(b) then Vector(None)
    else Lifted(a, b, if NumberOf(b) == 0.0 then 0.0 else NumberOf(a) / NumberOf(b))
  }

  function Apply(op: Op, a: Reading, b: Reading): Reading {
    match op
    case And => Conjoin(a, b)
    case Above => Compare(a, b)
    case Minus => Subtract(a, b)
    case Times => Multiply(a, b)
    case Over => Divide(a, b)
  }

  /** The sum `x` over a window of `n` samples: no element without samples. */
  function Total(x: nat, n: nat): Reading { Vector(if n == 0 then None else Some(x as real)) }

  function Eval(e: Expr, d: Data, now: int): Reading {
    match e
    case Number(literal) => Scalar(literal.value)
    case SumOf(what, selector, window) =>
      var l, seconds := Selected(d, selector), window.seconds;
      Total(if what.Successes? then Successful(l, now, seconds) else Count(l, now, seconds), Count(l, now, seconds))
    case ConsoleCount(url) =>
      Vector(if url in d.consoles && d.consoles[url] > 0 then Some(d.consoles[url] as real) else None)
    case Paren(inner) => Eval(inner, d, now)
    case Bin(left, _, op, _, right) => Apply(op, Eval(left, d, now), Eval(right, d, now))
  }

  lemma BinText(left: Expr, before: string, op: Op, after: string, right: Expr)
    ensures Text(Bin(left, before, op, after, right)) == Text(left) + before + OpText(op) + after + Text(right)
  {
  }

  lemma BinGroups(left: Expr, before: string, op: Op, after: string, right: Expr)
    requires Grouped(left) && Grouped(right) && Tightness(left) >= Binding(op) && Tightness(right) > Binding(op)
    ensures Grouped(Bin(left, before, op, after, right))
  {
  }

  lemma BinValue(left: Expr, before: string, op: Op, after: string, right: Expr, d: Data, now: int)
    ensures Eval(Bin(left, before, op, after, right), d, now) == Apply(op, Eval(left, d, now), Eval(right, d, now))
  {
  }
}
