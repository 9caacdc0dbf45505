/** controllers/hostedcontrolplane/healthcheck.go: a young cluster is ready
    after five recorded successful health checks, counted in decimal in an
    annotation of a ConfigMap. */
module HealthCheck {
  import opened Base
  import opened Digits
  import opened KubeStore

  const REQUIRED_SUCCESSES := 5

  /** Three hours, in seconds. */
  const SKIP_AGE := 10800

  /** What a write to the ConfigMap recorded. */
  datatype Mark = Success | Reset

  /** The ConfigMap of one cluster, and the history of the marks written to it. */
  datatype CheckMap = CheckMap(present: bool, annotation: Option<string>, history: seq<Mark>)

  const NO_CHECKS := CheckMap(false, None, [])

  /** What one readiness check meets: the configuration, the clock, the answer of
      the livez endpoint and the fate of its three calls. */
  datatype CheckInput = CheckInput(skip: bool, createdAt: int, now: int, livez: bool,
                                   get: Fault, create: Fault, update: Fault)

  /** olderThan(hcp, 3h). */
  predicate Old(in_: CheckInput) { in_.createdAt < in_.now - SKIP_AGE }

  /** healthcheckConfigMapSuccesses. */
  function Successes(annotation: Option<string>): int {
    match annotation
    case None => 0
    case Some(text) =>
      match Atoi(text)
      case None => 0
      case Some(n) => n
  }

  function Recorded(c: CheckMap, mark: Mark): CheckMap {
    c.(annotation := if mark.Success? then Some(Itoa(Successes(c.annotation) + 1)) else None,
       history := c.history + [mark])
  }

  /** hcpReady; no answer stands for an error. */
  function Ready(c: CheckMap, in_: CheckInput): (CheckMap, Option<bool>) {
    if in_.skip || Old(in_) then (c, Some(true))
    else if !in_.get.NoFault? then (c, None)
    else if !c.present && in_.create.Lost? then (c, None)
    else if !c.present && in_.create.Applied? then (c.(present := true), None)
    else
      var c1 := c.(present := true);
      if Successes(c1.annotation) >= REQUIRED_SUCCESSES then (c1, Some(true))
      else if in_.update.Lost? then (c1, None)
      else
        var c2 := Recorded(c1, if in_.livez then Success else Reset);
        if in_.update.Applied? then (c2, None)
        else if !in_.livez then (c2, Some(false))
        else (c2, Some(Successes(c2.annotation) >= REQUIRED_SUCCESSES))
  }

  /** The length of the run of successes a history ends with. */
  function Streak(h: seq<Mark>): nat {
    if h == [] || h[|h| - 1].Reset? then 0 else 1 + Streak(h[..|h| - 1])
  }

  lemma {:induction false} StreakIsSuccesses(h: seq<Mark>)
    ensures Streak(h) <= |h|
    ensures forall i :: |h| - Streak(h) <= i < |h| ==> h[i].Success?
    ensures Streak(h) < |h| ==> h[|h| - Streak(h) - 1].Reset?
  {
    if h != [] && h[|h| - 1].Success? { StreakIsSuccesses(h[..|h| - 1]); }
  }

  lemma StreakExtends(h: seq<Mark>, mark: Mark)
    ensures Streak(h + [mark]) == if mark.Success? then Streak(h) + 1 else 0
  {
    assert (h + [mark])[..|h|] == h;
  }

  /** The annotation is the abstraction of the history. */
  predicate Refines(c: CheckMap) {
    && Successes(c.annotation) == Streak(c.history) <= REQUIRED_SUCCESSES
    && (!c.present ==> c.annotation.None? && c.history == [])
  }

  lemma ReadyRefines(c: CheckMap, in_: CheckInput)
    requires Refines(c)
    ensures Refines(Ready(c, in_).0)
  {
    var mark := if in_.livez then Success else Reset;
    if Successes(c.annotation) < REQUIRED_SUCCESSES { MarkRefines(c.(present := true), mark); }
    ReadyWrites(c, in_);
  }

  /** What a check leaves: the ConfigMap as it was, created, or with one mark recorded. */
  lemma ReadyWrites(c: CheckMap, in_: CheckInput)
    ensures var r, mark := Ready(c, in_).0, if in_.livez then Success else Reset;
      r == c || r == c.(present := true)
      || (Successes(c.annotation) < REQUIRED_SUCCESSES && r == Recorded(c.(present := true), mark))
  {
  }

  lemma MarkRefines(c: CheckMap, mark: Mark)
    requires Refines(c) && c.present && Successes(c.annotation) < REQUIRED_SUCCESSES
    ensures Refines(Recorded(c, mark))
  {
    StreakExtends(c.history, mark);
    if mark.Success? { SuccessCounts(c); }
  }

  /** A recorded success is read back as one more. */
  lemma SuccessCounts(c: CheckMap)
    requires 0 <= Successes(c.annotation) <= REQUIRED_SUCCESSES
    ensures Successes(Recorded(c, Success).annotation) == Successes(c.annotation) + 1
  {
    AtoiItoa(Successes(c.annotation) + 1);
  }

  /** The ConfigMap after any series of readiness checks. */
  function Run(c: CheckMap, ins: seq<CheckInput>): CheckMap {
    if ins == [] then c else Ready(Run(c, ins[..|ins| - 1]), ins[|ins| - 1]).0
  }

  /** Over every run without outside edits, the decimal annotation reads back as
      the number of successes recorded since the last recorded reset. */
  lemma {:induction false} AnnotationCountsHistory(ins: seq<CheckInput>)
    ensures var c := Run(NO_CHECKS, ins);
      Refines(c) && Successes(c.annotation) == Streak(c.history)
  {
    if ins != [] {
      AnnotationCountsHistory(ins[..|ins| - 1]);
      ReadyRefines(Run(NO_CHECKS, ins[..|ins| - 1]), ins[|ins| - 1]);
    }
  }

  /** A young cluster that is not skipped is only called ready after five
      recorded successes with no recorded reset between them. */
  lemma ReadyMeansFiveInARow(ins: seq<CheckInput>, in_: CheckInput)
    requires !in_.skip && !Old(in_)
    requires Ready(Run(NO_CHECKS, ins), in_).1 == Some(true)
    ensures var h := Ready(Run(NO_CHECKS, ins), in_).0.history;
      |h| >= 5 && forall i :: |h| - 5 <= i < |h| ==> h[i].Success?
  {
    AnnotationCountsHistory(ins + [in_]);
    assert (ins + [in_])[..|ins|] == ins;
    StreakIsSuccesses(Run(NO_CHECKS, ins + [in_]).history);
  }

  /** A counter that has reached five is a latch: no later check writes the
      ConfigMap, and each one that can read it answers ready. */
  lemma {:induction false} CounterLatch(c: CheckMap, ins: seq<CheckInput>, in_: CheckInput)
    requires c.present && Successes(c.annotation) >= REQUIRED_SUCCESSES
    ensures Run(c, ins) == c
    ensures in_.get.NoFault? ==> Ready(Run(c, ins), in_) == (c, Some(true))
  {
    if ins != [] { CounterLatch(c, ins[..|ins| - 1], in_); }
  }

  /** So is age: a cluster past the age limit stays ready at every later time,
      whatever happens to the calls, and nothing is written for it. */
  lemma AgeLatch(c: CheckMap, in_: CheckInput, later: CheckInput)
    requires Old(in_) && later.createdAt == in_.createdAt && later.now >= in_.now
    ensures Ready(c, later) == (c, Some(true))
  {
    assert Old(later);
  }

  /** The check gets as far as asking the livez endpoint. */
  predicate Asks(c: CheckMap, in_: CheckInput) {
    !in_.skip && !Old(in_) && in_.get.NoFault? && (c.present || in_.create.NoFault?)
    && Successes(c.annotation) < REQUIRED_SUCCESSES
  }

  /** What the endpoint answered, check after check. */
  function Answers(c: CheckMap, ins: seq<CheckInput>): seq<Mark> {
    if ins == [] then []
    else
      var before, last := ins[..|ins| - 1], ins[|ins| - 1];
      Answers(c, before) + (if !Asks(Run(c, before), last) then [] else if last.livez then [Success] else [Reset])
  }

  /** How many of those answers were never written. */
  function LostMarks(c: CheckMap, ins: seq<CheckInput>): nat {
    if ins == [] then 0
    else
      var before, last := ins[..|ins| - 1], ins[|ins| - 1];
      LostMarks(c, before) + (if Asks(Run(c, before), last) && last.update.Lost? then 1 else 0)
  }

  /** The whole history is the whole list of answers exactly when no write was lost, of a success or of a reset. */
  lemma {:induction false} HistoryIsAnswersIffNoneLost(c: CheckMap, ins: seq<CheckInput>)
    requires c.history == []
    ensures |Run(c, ins).history| + LostMarks(c, ins) == |Answers(c, ins)|
    ensures Run(c, ins).history == Answers(c, ins) <==> LostMarks(c, ins) == 0
  {
    if ins != [] {
      HistoryIsAnswersIffNoneLost(c, ins[..|ins| - 1]);
    }
  }

  /** The endpoint failed and the write of the reset was lost. */
  predicate LostReset(c: CheckMap, in_: CheckInput) { Asks(c, in_) && !in_.livez && in_.update.Lost? }

  /** Some check of `b` lost a reset. */
  predicate LosesReset(c: CheckMap, b: seq<CheckInput>) {
    exists k :: 0 <= k < |b| && LostReset(Run(c, b[..k]), b[k])
  }

  lemma LosesResetStep(c: CheckMap, b: seq<CheckInput>, last: CheckInput)
    ensures LosesReset(c, b + [last]) <==> LosesReset(c, b) || LostReset(Run(c, b), last)
  {
    var all := b + [last];
    assert all[..|b|] == b && all[|b|] == last;
    assert forall k :: 0 <= k < |b| ==> all[..k] == b[..k] && all[k] == b[k];
    if LosesReset(c, b) {
      var k :| 0 <= k < |b| && LostReset(Run(c, b[..k]), b[k]);
      assert LostReset(Run(c, all[..k]), all[k]);
    }
    if LostReset(Run(c, b), last) { assert LostReset(Run(c, all[..|b|]), all[|b|]); }
  }

  /** Every mark after the first `n` of a history is a success. */
  predicate OnlySuccesses(h: seq<Mark>, n: nat) { forall i :: n <= i < |h| ==> h[i].Success? }

  /** One check adds at most one mark: what the endpoint answered, unless the write was lost. */
  lemma CheckRecords(c: CheckMap, in_: CheckInput)
    ensures var mark := if in_.livez then Success else Reset;
      Ready(c, in_).0.history == c.history + (if Asks(c, in_) && !in_.update.Lost? then [mark] else [])
  {
  }

  lemma {:induction false} HistoryGrows(c: CheckMap, b: seq<CheckInput>)
    ensures |c.history| <= |Run(c, b).history|
  {
    if b != [] {
      HistoryGrows(c, b[..|b| - 1]);
      CheckRecords(Run(c, b[..|b| - 1]), b[|b| - 1]);
    }
  }

  /** Among checks that record successes only, the endpoint failed exactly in those whose reset was lost. */
  lemma {:induction false} FailuresAreLostResets(c: CheckMap, b: seq<CheckInput>)
    requires OnlySuccesses(Run(c, b).history, |c.history|)
    ensures Reset in Answers(c, b) <==> LosesReset(c, b)
  {
    if b != [] {
      var before, last := b[..|b| - 1], b[|b| - 1];
      assert b == before + [last];
      HistoryGrows(c, before);
      LastRecords(Run(c, before), last, |c.history|);
      FailuresAreLostResets(c, before);
      LosesResetStep(c, before, last);
      RunStep(c, before, last);
    }
  }

  lemma LastRecords(c: CheckMap, last: CheckInput, n: nat)
    requires n <= |c.history| && OnlySuccesses(Ready(c, last).0.history, n)
    ensures OnlySuccesses(c.history, n)
    ensures Asks(c, last) && !last.livez ==> last.update.Lost?
  {
    CheckRecords(c, last);
    var h := Ready(c, last).0.history;
    assert forall i :: n <= i < |c.history| ==> h[i] == c.history[i];
    assert |h| > |c.history| ==> h[|c.history|].Success?;
  }

  /** The number of successes recorded since the last reset; it is what the annotation says. */
  function Counted(ins: seq<CheckInput>): nat { Streak(Run(NO_CHECKS, ins).history) }

  /** Where the current count began: the longest beginning of the checks that leaves the counter at zero. */
  function CountFrom(ins: seq<CheckInput>): (i: nat)
    ensures i <= |ins| && Counted(ins[..i]) == 0
    ensures forall j :: i < j <= |ins| ==> Counted(ins[..j]) != 0
  {
    assert ins[..|ins|] == ins;
    if Counted(ins) == 0 then |ins|
    else
      var before := ins[..|ins| - 1];
      assert forall j :: 0 <= j <= |before| ==> before[..j] == ins[..j];
      CountFrom(before)
  }

  /** The marks recorded after the first `i` checks are the successes counted, and nothing else. */
  predicate CountedSince(ins: seq<CheckInput>, i: nat)
    requires i <= |ins|
  {
    var c := Run(NO_CHECKS, ins[..i]);
    var h := Run(c, ins[i..]).history;
    Run(c, ins[i..]) == Run(NO_CHECKS, ins) && |h| == |c.history| + Streak(h) && h[..|c.history|] == c.history
  }

  lemma {:induction false} CountIsSuccesses(ins: seq<CheckInput>)
    ensures CountedSince(ins, CountFrom(ins))
  {
    if Counted(ins) == 0 {
      CountedNone(ins);
    } else {
      var before, last := ins[..|ins| - 1], ins[|ins| - 1];
      assert ins == before + [last];
      CountIsSuccesses(before);
      CountedNext(before, last, CountFrom(before));
    }
  }

  lemma CountedNone(ins: seq<CheckInput>)
    requires Counted(ins) == 0
    ensures CountedSince(ins, |ins|)
  {
    assert ins[..|ins|] == ins && ins[|ins|..] == [];
    var h := Run(NO_CHECKS, ins).history;
    assert h[..|h|] == h;
  }

  lemma CountedNext(before: seq<CheckInput>, last: CheckInput, i: nat)
    requires i <= |before| && CountedSince(before, i) && Counted(before + [last]) != 0
    ensures CountedSince(before + [last], i)
  {
    var c := Run(NO_CHECKS, before[..i]);
    assert (before + [last])[..i] == before[..i] && (before + [last])[i..] == before[i..] + [last];
    RunStep(c, before[i..], last);
    RunStep(NO_CHECKS, before, last);
    CountedMore(Run(c, before[i..]), last, c.history);
  }

  lemma CountedMore(c: CheckMap, in_: CheckInput, h: seq<Mark>)
    requires |c.history| == |h| + Streak(c.history) && c.history[..|h|] == h && Streak(Ready(c, in_).0.history) != 0
    ensures var r := Ready(c, in_).0.history;
      |r| == |h| + Streak(r) && r[..|h|] == h
  {
    CountedStep(c, in_);
  }

  /** A check that does not leave the counter at zero records nothing, or one success that is counted. */
  lemma CountedStep(c: CheckMap, in_: CheckInput)
    requires Streak(Ready(c, in_).0.history) != 0
    ensures var r := Ready(c, in_).0;
      r.history == c.history || (r.history == c.history + [Success] && Streak(r.history) == Streak(c.history) + 1)
  {
    CheckRecords(c, in_);
    StreakExtends(c.history, if in_.livez then Success else Reset);
  }

  /** When the five counted health checks are consecutive. Whenever a young cluster
      that is not skipped is called ready, exactly five marks were recorded since the
      count began, all successes; and no answer of the endpoint since then was a
      failure exactly when no reset was lost since then. */
  lemma FiveAreConsecutiveIffNoResetLost(ins: seq<CheckInput>, in_: CheckInput)
    requires !in_.skip && !Old(in_) && Ready(Run(NO_CHECKS, ins), in_).1 == Some(true)
    ensures var all := ins + [in_];
      var c, b := Run(NO_CHECKS, all[..CountFrom(all)]), all[CountFrom(all)..];
      Run(NO_CHECKS, all).history == c.history + [Success, Success, Success, Success, Success]
      && (Reset !in Answers(c, b) <==> !LosesReset(c, b))
  {
    var all := ins + [in_];
    var c, b := Run(NO_CHECKS, all[..CountFrom(all)]), all[CountFrom(all)..];
    CountIsSuccesses(all);
    ReadyIsFive(ins, in_);
    StreakIsSuccesses(Run(NO_CHECKS, all).history);
    FailuresAreLostResets(c, b);
    FiveMore(Run(NO_CHECKS, all).history, c.history);
  }

  lemma FiveMore(h: seq<Mark>, before: seq<Mark>)
    requires |h| == |before| + 5 && h[..|before|] == before && OnlySuccesses(h, |before|)
    ensures h == before + [Success, Success, Success, Success, Success]
  {
  }

  lemma ReadyIsFive(ins: seq<CheckInput>, in_: CheckInput)
    requires !in_.skip && !Old(in_) && Ready(Run(NO_CHECKS, ins), in_).1 == Some(true)
    ensures Counted(ins + [in_]) == REQUIRED_SUCCESSES
  {
    RunStep(NO_CHECKS, ins, in_);
    AnnotationCountsHistory(ins + [in_]);
    ReadyCounts(Run(NO_CHECKS, ins), in_);
  }

  lemma ReadyCounts(c: CheckMap, in_: CheckInput)
    requires !in_.skip && !Old(in_) && Ready(c, in_).1 == Some(true)
    ensures Successes(Ready(c, in_).0.annotation) >= REQUIRED_SUCCESSES
  {
  }

  const GOOD := CheckInput(false, 0, 0, true, NoFault, NoFault, NoFault)
  const BAD := CheckInput(false, 0, 0, false, NoFault, NoFault, Lost)

  /** A lost reset breaks the row: a cluster is called ready although its
      endpoint failed between the five counted successes. */
  lemma LostResetHidesFailure() returns (ins: seq<CheckInput>)
    ensures Ready(Run(NO_CHECKS, ins), GOOD).1 == Some(true)
    ensures Answers(NO_CHECKS, ins) == [Success, Success, Reset, Success, Success]
  {
    ins := TwoGoodOneBad();
    ins := CountGood(ins, 2);
    ins := CountGood(ins, 3);
    LastGood(ins);
  }

  lemma TwoGoodOneBad() returns (ins: seq<CheckInput>)
    ensures Successes(Run(NO_CHECKS, ins).annotation) == 2 && Answers(NO_CHECKS, ins) == [Success, Success, Reset]
  {
    ins := NoneYet();
    ins := CountGood(ins, 0);
    ins := CountGood(ins, 1);
    ins := CountBad(ins, 2);
  }

  lemma NoneYet() returns (ins: seq<CheckInput>)
    ensures Successes(Run(NO_CHECKS, ins).annotation) == 0 && Answers(NO_CHECKS, ins) == []
  {
    ins := [];
  }

  /** A success is counted. */
  lemma CountGood(ins: seq<CheckInput>, n: nat) returns (more: seq<CheckInput>)
    requires Successes(Run(NO_CHECKS, ins).annotation) == n < REQUIRED_SUCCESSES
    ensures Successes(Run(NO_CHECKS, more).annotation) == n + 1
    ensures Answers(NO_CHECKS, more) == Answers(NO_CHECKS, ins) + [Success]
  {
    more := ins + [GOOD];
    RunStep(NO_CHECKS, ins, GOOD);
    AtoiItoa(n + 1);
  }

  /** A failure whose reset is lost changes nothing. */
  lemma CountBad(ins: seq<CheckInput>, n: nat) returns (more: seq<CheckInput>)
    requires Successes(Run(NO_CHECKS, ins).annotation) == n < REQUIRED_SUCCESSES
    ensures Successes(Run(NO_CHECKS, more).annotation) == n
    ensures Answers(NO_CHECKS, more) == Answers(NO_CHECKS, ins) + [Reset]
  {
    more := ins + [BAD];
    RunStep(NO_CHECKS, ins, BAD);
  }

  lemma LastGood(ins: seq<CheckInput>)
    requires Successes(Run(NO_CHECKS, ins).annotation) == 4
    ensures Ready(Run(NO_CHECKS, ins), GOOD).1 == Some(true)
  {
    AtoiItoa(5);
  }

  lemma RunStep(c: CheckMap, ins: seq<CheckInput>, in_: CheckInput)
    ensures Run(c, ins + [in_]) == Ready(Run(c, ins), in_).0
    ensures Answers(c, ins + [in_]) == Answers(c, ins)
      + (if !Asks(Run(c, ins), in_) then [] else if in_.livez then [Success] else [Reset])
    ensures Run(c, []) == c && Answers(c, []) == []
  {
    assert (ins + [in_])[..|ins|] == ins;
  }

  /** The ConfigMap written in place. */
  class Checker {
    var present: bool
    var annotation: Option<string>
    ghost var history: seq<Mark>

    ghost function Contents(): CheckMap
      reads this
    {
      CheckMap(present, annotation, history)
    }

    constructor ()
      ensures Contents() == NO_CHECKS
    {
      present, annotation, history := false, None, [];
    }

    method ResetSuccesses(fault: Fault) returns (ok: bool)
      modifies this
      ensures ok == fault.NoFault?
      ensures Contents() == if fault.Lost? then old(Contents()) else Recorded(old(Contents()), Reset)
    {
      if !fault.Lost? {
        annotation := None;
        history := history + [Reset];
      }
      ok := fault.NoFault?;
    }

    /** The caller's copy is incremented whether or not the write goes through. */
    method AddSuccess(fault: Fault) returns (copy: Option<string>, ok: bool)
      modifies this
      ensures ok == fault.NoFault? && copy == Some(Itoa(Successes(old(annotation)) + 1))
      ensures Contents() == if fault.Lost? then old(Contents()) else Recorded(old(Contents()), Success)
    {
      copy := Some(Itoa(Successes(annotation) + 1));
      if !fault.Lost? {
        annotation := copy;
        history := history + [Success];
      }
      ok := fault.NoFault?;
    }

    method HcpReady(in_: CheckInput) returns (ready: Option<bool>)
      modifies this
      ensures (Contents(), ready) == Ready(old(Contents()), in_)
    {
      if in_.skip { return Some(true); }
      if Old(in_) { return Some(true); }
      if !in_.get.NoFault? { return None; }
      if !present {
        present := !in_.create.Lost?;
        if !in_.create.NoFault? { return None; }
      }
      if Successes(annotation) >= REQUIRED_SUCCESSES { return Some(true); }
      if !in_.livez {
        var ok := ResetSuccesses(in_.update);
        return if ok then Some(false) else None;
      }
      var copy, ok := AddSuccess(in_.update);
      if !ok { return None; }
      ready := Some(Successes(copy) >= REQUIRED_SUCCESSES);
    }
  }
}
