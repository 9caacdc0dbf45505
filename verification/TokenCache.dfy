/** pkg/rhobs/client.go: the access token cache, double-checked under a read-write
    lock by any number of concurrent callers. One step is one lock operation, one
    read or write of a shared field, or one reading of the clock. The flow is the
    client credentials grant of RFC 6749, section 4.4; the lifetime a response
    announces counts from its generation, section 5.1. */
module TokenCache {
  import opened Base

  /** Times are in nanoseconds. */
  const SECOND := 1_000_000_000

  /** How long before the stored expiry a cached token is no longer used. */
  const MARGIN := 30 * SECOND

  /** The HTTP client's timeout, which covers the exchange up to the end of the body. */
  const TIMEOUT := 30 * SECOND

  const TWO_63 := 0x8000_0000_0000_0000

  /** A time.Duration is a signed 64-bit number of nanoseconds. */
  function Wrap(x: int): int { (x + TWO_63) % (2 * TWO_63) - TWO_63 }

  /** time.Duration(ExpiresIn) * time.Second. */
  function Lifetime(expiresIn: int): int { Wrap(expiresIn * SECOND) }

  // ----- callers and shared state -----

  /** How far a check of the cache has come. */
  datatype Check = Enter | SawToken | Timed(at: int) | Fresh(at: int, expiry: int) | Stale

  datatype Fetch = Fetch(start: int, issued: int, received: int, token: string, expiresIn: int)

  /** What a caller does next. `locked` tells the check under the write lock from the
      first one, which is made under the read lock. */
  datatype Pc =
    | Idle
    | Checking(locked: bool, check: Check)
    | Waiting
    | Fetching(start: int)
    | Received(fetch: Fetch)
    | TokenWritten(fetch: Fetch)
    | Clocked(fetch: Fetch, clock: int)
    | Returning
    | Leaving(locked: bool)

  /** A stored pair with the exchange it came from. */
  datatype Grant = Grant(fetch: Fetch, clock: int, expiry: int)

  /** A token request sent at `at`, when `after` pairs had been stored. */
  datatype Start = Start(at: int, after: nat)

  /** A token handed to a caller, with the expiry it was checked against or stored with. */
  datatype Answer = Answer(cached: bool, token: string, at: int, expiry: int, after: nat)

  datatype State = State(now: int, token: string, expiry: int, readers: set<nat>, writer: Option<nat>, pcs: map<nat, Pc>,
                         grants: seq<Grant>, starts: seq<Start>, answers: seq<Answer>)

  const INITIAL := State(0, "", 0, {}, None, map[], [], [], [])

  function PcOf(s: State, c: nat): Pc { if c in s.pcs then s.pcs[c] else Idle }

  function At(s: State, c: nat, pc: Pc): State { s.(pcs := s.pcs[c := pc]) }

  /** Time passes, a caller makes its next step, or its token request is answered with
      a token or in any other way. */
  datatype Event =
    | Elapsed(duration: nat)
    | Step(caller: nat)
    | Issued(caller: nat, issued: int, token: string, expiresIn: int)
    | Refused(caller: nat)

  function CheckStep(s: State, c: nat, locked: bool, check: Check): State {
    match check
    case Enter => At(s, c, Checking(locked, if s.token == "" then Stale else SawToken))
    case SawToken => At(s, c, Checking(locked, Timed(s.now)))
    case Timed(t) => At(s, c, Checking(locked, if t < s.expiry - MARGIN then Fresh(t, s.expiry) else Stale))
    case Fresh(t, e) =>
      At(s.(answers := s.answers + [Answer(true, s.token, t, e, |s.grants|)]), c, Leaving(locked))
    case Stale =>
      if locked then At(s.(starts := s.starts + [Start(s.now, |s.grants|)]), c, Fetching(s.now))
      else At(s.(readers := s.readers - {c}), c, Waiting)
  }

  /** The next step of one caller; a lock that is not free leaves it where it is. */
  function CallerStep(s: State, c: nat): State {
    match PcOf(s, c)
    case Idle => if s.writer.Some? then s else At(s.(readers := s.readers + {c}), c, Checking(false, Enter))
    case Checking(locked, check) => CheckStep(s, c, locked, check)
    case Waiting => if s.writer.Some? || s.readers != {} then s else At(s.(writer := Some(c)), c, Checking(true, Enter))
    case Fetching(_) => s
    case Received(fetch) => At(s.(token := fetch.token), c, TokenWritten(fetch))
    case TokenWritten(fetch) => At(s, c, Clocked(fetch, s.now))
    case Clocked(fetch, clock) =>
      var expiry := clock + Lifetime(fetch.expiresIn);
      At(s.(expiry := expiry, grants := s.grants + [Grant(fetch, clock, expiry)]), c, Returning)
    case Returning =>
      At(s.(answers := s.answers + [Answer(false, s.token, s.now, s.expiry, |s.grants|)]), c, Leaving(true))
    case Leaving(locked) =>
      if locked then At(s.(writer := None), c, Idle) else At(s.(readers := s.readers - {c}), c, Idle)
  }

  /** A token arrives with the body of a response generated during the exchange, in time. */
  predicate CanIssue(s: State, c: nat, issued: int, expiresIn: int) {
    PcOf(s, c).Fetching? && -TWO_63 <= expiresIn < TWO_63
    && PcOf(s, c).start <= issued <= s.now <= PcOf(s, c).start + TIMEOUT
  }

  function Next(s: State, e: Event): State {
    match e
    case Elapsed(d) => s.(now := s.now + d)
    case Step(c) => CallerStep(s, c)
    case Issued(c, issued, token, expiresIn) =>
      if !CanIssue(s, c, issued, expiresIn) then s
      else At(s, c, Received(Fetch(PcOf(s, c).start, issued, s.now, token, expiresIn)))
    case Refused(c) => if PcOf(s, c).Fetching? then At(s, c, Leaving(true)) else s
  }

  function Run(events: seq<Event>): State {
    if events == [] then INITIAL else Next(Run(events[..|events| - 1]), events[|events| - 1])
  }

  // ----- the invariant -----

  predicate Reads(pc: Pc) { (pc.Checking? || pc.Leaving?) && !pc.locked }

  predicate Writes(pc: Pc) {
    ((pc.Checking? || pc.Leaving?) && pc.locked)
    || pc.Fetching? || pc.Received? || pc.TokenWritten? || pc.Clocked? || pc.Returning?
  }

  ghost predicate LocksHeld(s: State) {
    (forall c: nat :: Reads(PcOf(s, c)) <==> c in s.readers)
    && (forall c: nat :: Writes(PcOf(s, c)) <==> s.writer == Some(c))
    && (s.writer.Some? ==> s.readers == {})
  }

  /** Between the two writes of a pair the fields do not belong together. */
  predicate Torn(s: State) {
    s.writer.Some? && (PcOf(s, s.writer.value).TokenWritten? || PcOf(s, s.writer.value).Clocked?)
  }

  /** The fields hold the last stored pair. */
  predicate PairIsLast(s: State) {
    if s.grants == [] then s.token == ""
    else s.token == s.grants[|s.grants| - 1].fetch.token && s.expiry == s.grants[|s.grants| - 1].expiry
  }

  /** At this time no stored token of the first `n` is usable any more. */
  predicate Spent(grants: seq<Grant>, n: nat, at: int) {
    forall i :: 0 <= i < n <= |grants| && grants[i].fetch.token != "" ==> at >= grants[i].expiry - MARGIN
  }

  predicate InTime(f: Fetch) {
    f.start <= f.issued <= f.received <= f.start + TIMEOUT && -TWO_63 <= f.expiresIn < TWO_63
  }

  predicate GrantOk(g: Grant) {
    InTime(g.fetch) && g.fetch.received <= g.clock && g.expiry == g.clock + Lifetime(g.fetch.expiresIn)
  }

  function LastClock(grants: seq<Grant>): int { if grants == [] then 0 else grants[|grants| - 1].clock }

  /** The answer is the pair that was last stored when it was given; a cached one was
      still outside the margin. */
  predicate AnswerOk(grants: seq<Grant>, a: Answer) {
    0 < a.after <= |grants| && a.token == grants[a.after - 1].fetch.token && a.expiry == grants[a.after - 1].expiry
    && (a.cached ==> a.token != "" && grants[a.after - 1].clock <= a.at < a.expiry - MARGIN)
  }

  predicate PcOk(s: State, pc: Pc) {
    match pc
    case Checking(locked, check) =>
      (match check
       case Enter => true
       case SawToken => s.token != ""
       case Timed(t) => s.token != "" && LastClock(s.grants) <= t <= s.now
       case Fresh(t, e) => s.token != "" && LastClock(s.grants) <= t < e - MARGIN && e == s.expiry
       case Stale => s.token == "" || s.now >= s.expiry - MARGIN)
    case Fetching(start) => start <= s.now && Spent(s.grants, |s.grants|, start)
    case Received(f) => InTime(f) && f.received <= s.now && Spent(s.grants, |s.grants|, f.start)
    case TokenWritten(f) => InTime(f) && f.received <= s.now && Spent(s.grants, |s.grants|, f.start) && s.token == f.token
    case Clocked(f, clock) =>
      InTime(f) && f.received <= clock <= s.now && Spent(s.grants, |s.grants|, f.start) && s.token == f.token
    case Returning => s.grants != []
    case _ => true
  }

  ghost predicate History(s: State) {
    (forall i :: 0 <= i < |s.grants| ==> GrantOk(s.grants[i]))
    && (forall k :: 0 <= k < |s.answers| ==> AnswerOk(s.grants, s.answers[k]))
    && (forall k :: 0 <= k < |s.starts| ==> s.starts[k].after <= |s.grants| && Spent(s.grants, s.starts[k].after, s.starts[k].at))
    && Spent(s.grants, if s.grants == [] then 0 else |s.grants| - 1, s.now)
    && LastClock(s.grants) <= s.now
  }

  ghost predicate Inv(s: State) {
    LocksHeld(s) && (forall c: nat :: PcOk(s, PcOf(s, c))) && (!Torn(s) ==> PairIsLast(s)) && History(s)
  }

  // ----- every step keeps it -----

  lemma ElapsedKeeps(s: State, d: nat)
    requires Inv(s)
    ensures Inv(Next(s, Elapsed(d)))
  {
    var t := Next(s, Elapsed(d));
    forall c: nat ensures PcOf(t, c) == PcOf(s, c) && PcOk(t, PcOf(t, c)) { assert PcOk(s, PcOf(s, c)); }
  }

  /** A step that changes only its caller's place and, perhaps, the answers and starts. */
  lemma PlaceKeeps(s: State, t: State, c: nat, pc: Pc)
    requires Inv(s) && t == At(s, c, pc).(answers := t.answers, starts := t.starts)
    requires Reads(pc) == Reads(PcOf(s, c)) && Writes(pc) == Writes(PcOf(s, c)) && PcOk(t, pc)
    requires !pc.TokenWritten? && (pc.Clocked? <==> PcOf(s, c).TokenWritten?) && !PcOf(s, c).Clocked?
    requires History(t)
    ensures Inv(t)
  {
    forall d: nat ensures PcOf(t, d) == (if d == c then pc else PcOf(s, d)) && PcOk(t, PcOf(t, d)) {
      if d != c { assert PcOk(s, PcOf(s, d)); }
    }
  }

  /** What a check reads and records is right. */
  lemma CheckSound(s: State, c: nat, locked: bool, check: Check)
    requires History(s) && PairIsLast(s) && PcOk(s, Checking(locked, check)) && (check.Stale? ==> locked)
    ensures var t := CheckStep(s, c, locked, check);
      PcOk(t, PcOf(t, c)) && History(t)
  {
    var t := CheckStep(s, c, locked, check);
    if check.Fresh? {
      AnswerRecorded(s, check.at, check.expiry);
    } else if check.Stale? {
      assert Spent(s.grants, |s.grants|, s.now);
    }
  }

  lemma AnswerRecorded(s: State, at: int, expiry: int)
    requires PairIsLast(s) && PcOk(s, Checking(false, Fresh(at, expiry)))
    ensures AnswerOk(s.grants, Answer(true, s.token, at, expiry, |s.grants|))
  {
  }

  lemma CheckKeeps(s: State, c: nat)
    requires Inv(s) && PcOf(s, c).Checking? && !(PcOf(s, c).check.Stale? && !PcOf(s, c).locked)
    ensures Inv(CallerStep(s, c))
  {
    var t, pc := CallerStep(s, c), PcOf(s, c);
    assert PcOk(s, pc) && !Torn(s) by {
      assert Writes(pc) <==> s.writer == Some(c);
      assert Reads(pc) <==> c in s.readers;
    }
    CheckSound(s, c, pc.locked, pc.check);
    PlaceKeeps(s, t, c, PcOf(t, c));
  }

  /** The locks after one caller moved from `s` to `pc`. */
  predicate LocksMove(s: State, t: State, c: nat, pc: Pc) {
    t == At(s, c, pc).(readers := t.readers, writer := t.writer)
    && t.readers == (if Reads(pc) then s.readers + {c} else s.readers - {c})
    && t.writer == (if Writes(pc) then Some(c) else if Writes(PcOf(s, c)) then None else s.writer)
    && (Writes(pc) ==> s.writer.None? && s.readers == {}) && (Reads(pc) ==> s.writer.None?)
  }

  lemma LocksStayHeld(s: State, t: State, c: nat, pc: Pc)
    requires LocksHeld(s) && LocksMove(s, t, c, pc)
    ensures LocksHeld(t)
  {
    assert Writes(PcOf(s, c)) <==> s.writer == Some(c);
    forall d: nat ensures Reads(PcOf(t, d)) <==> d in t.readers {
      assert Reads(PcOf(s, d)) <==> d in s.readers;
    }
    forall d: nat ensures Writes(PcOf(t, d)) <==> t.writer == Some(d) {
      assert Writes(PcOf(s, d)) <==> s.writer == Some(d);
    }
  }

  /** A step that takes or gives back a lock. */
  lemma LockKeeps(s: State, t: State, c: nat, pc: Pc)
    requires Inv(s) && LocksMove(s, t, c, pc)
    requires PcOf(s, c).Idle? || PcOf(s, c).Waiting? || PcOf(s, c).Leaving? || PcOf(s, c).Checking?
    requires pc == Idle || pc == Waiting || (pc.Checking? && pc.check == Enter)
    ensures Inv(t)
  {
    LocksStayHeld(s, t, c, pc);
    forall d: nat ensures PcOf(t, d) == (if d == c then pc else PcOf(s, d)) && PcOk(t, PcOf(t, d)) {
      assert PcOk(s, PcOf(s, d));
    }
    LockNotTorn(s, t, c, pc);
  }

  lemma LockNotTorn(s: State, t: State, c: nat, pc: Pc)
    requires LocksHeld(s) && LocksMove(s, t, c, pc)
    requires !PcOf(s, c).TokenWritten? && !PcOf(s, c).Clocked? && !pc.TokenWritten? && !pc.Clocked?
    ensures Torn(t) ==> Torn(s)
    ensures Torn(s) ==> Torn(t)
  {
    assert Writes(PcOf(s, c)) <==> s.writer == Some(c);
  }

  /** While a caller writes, no other caller is inside the locks. */
  lemma Alone(s: State, c: nat, d: nat)
    requires Inv(s) && Writes(PcOf(s, c)) && d != c
    ensures PcOf(s, d).Idle? || PcOf(s, d).Waiting?
  {
    assert Writes(PcOf(s, c)) <==> s.writer == Some(c);
    assert Writes(PcOf(s, d)) <==> s.writer == Some(d);
    assert Reads(PcOf(s, d)) <==> d in s.readers;
  }

  /** A step of the caller that writes. */
  lemma WriterKeeps(s: State, t: State, c: nat, pc: Pc)
    requires Inv(s) && Writes(PcOf(s, c)) && Writes(pc)
    requires t == At(s, c, pc).(token := t.token, expiry := t.expiry, grants := t.grants, answers := t.answers)
    requires PcOk(t, pc) && History(t) && (pc.TokenWritten? || pc.Clocked? || PairIsLast(t))
    ensures Inv(t)
  {
    assert Writes(PcOf(s, c)) <==> s.writer == Some(c);
    forall d: nat ensures PcOf(t, d) == (if d == c then pc else PcOf(s, d)) && PcOk(t, PcOf(t, d)) {
      if d != c { Alone(s, c, d); }
    }
    forall d: nat ensures Reads(PcOf(t, d)) <==> d in t.readers {
      if d != c { assert Reads(PcOf(s, d)) <==> d in s.readers; }
    }
    forall d: nat ensures Writes(PcOf(t, d)) <==> t.writer == Some(d) {
      if d != c { assert Writes(PcOf(s, d)) <==> s.writer == Some(d); }
    }
  }

  /** Storing a pair keeps what earlier answers and starts were given by. */
  lemma PairStored(s: State, t: State, g: Grant)
    requires History(s) && GrantOk(g) && g.clock <= s.now && Spent(s.grants, |s.grants|, s.now)
    requires t == s.(grants := s.grants + [g], expiry := t.expiry, pcs := t.pcs)
    ensures History(t)
  {
    forall k | 0 <= k < |t.answers| ensures AnswerOk(t.grants, t.answers[k]) { assert AnswerOk(s.grants, s.answers[k]); }
    forall k | 0 <= k < |t.starts| ensures t.starts[k].after <= |t.grants| && Spent(t.grants, t.starts[k].after, t.starts[k].at) {
      assert Spent(s.grants, s.starts[k].after, s.starts[k].at);
    }
  }

  lemma StoringKeeps(s: State, c: nat)
    requires Inv(s) && (PcOf(s, c).Received? || PcOf(s, c).TokenWritten? || PcOf(s, c).Clocked? || PcOf(s, c).Returning?)
    ensures Inv(CallerStep(s, c))
  {
    var t, pc := CallerStep(s, c), PcOf(s, c);
    assert PcOk(s, pc) && s.writer == Some(c) by { assert Writes(pc) <==> s.writer == Some(c); }
    if pc.Clocked? { PairStored(s, t, t.grants[|s.grants|]); }
    assert History(t);
    WriterKeeps(s, t, c, PcOf(t, c));
  }

  lemma NextKeeps(s: State, e: Event)
    requires Inv(s)
    ensures Inv(Next(s, e))
  {
    match e
    case Elapsed(d) => ElapsedKeeps(s, d);
    case Issued(c, issued, _, expiresIn) =>
      if CanIssue(s, c, issued, expiresIn) {
        assert PcOk(s, PcOf(s, c));
        PlaceKeeps(s, Next(s, e), c, PcOf(Next(s, e), c));
      }
    case Refused(c) =>
      if PcOf(s, c).Fetching? { PlaceKeeps(s, Next(s, e), c, Leaving(true)); }
    case Step(c) =>
      var pc := PcOf(s, c);
      if pc.Checking? && !(pc.check.Stale? && !pc.locked) {
        CheckKeeps(s, c);
      } else if pc.Received? || pc.TokenWritten? || pc.Clocked? || pc.Returning? {
        StoringKeeps(s, c);
      } else if CallerStep(s, c) != s {
        ReleaseKeeps(s, c);
      }
  }

  lemma ReleaseKeeps(s: State, c: nat)
    requires Inv(s) && CallerStep(s, c) != s
    requires PcOf(s, c).Idle? || PcOf(s, c).Waiting? || PcOf(s, c).Leaving? || PcOf(s, c) == Checking(false, Stale)
    ensures Inv(CallerStep(s, c))
  {
    assert Writes(PcOf(s, c)) <==> s.writer == Some(c);
    assert Reads(PcOf(s, c)) <==> c in s.readers;
    LockKeeps(s, CallerStep(s, c), c, PcOf(CallerStep(s, c), c));
  }

  lemma {:induction false} RunKeeps(events: seq<Event>)
    ensures Inv(Run(events))
  {
    if events != [] {
      RunKeeps(events[..|events| - 1]);
      NextKeeps(Run(events[..|events| - 1]), events[|events| - 1]);
    }
  }

  // ----- what callers get -----

  /** The pair is never torn: whatever the interleaving, every token handed out comes
      with the expiry it was stored with, and they are the pair stored last. */
  lemma PairNeverTorn(events: seq<Event>, k: nat)
    requires k < |Run(events).answers|
    ensures var s, a := Run(events), Run(events).answers[k];
      0 < a.after <= |s.grants| && a.token == s.grants[a.after - 1].fetch.token && a.expiry == s.grants[a.after - 1].expiry
  {
    RunKeeps(events);
    assert AnswerOk(Run(events).grants, Run(events).answers[k]);
  }

  /** When the server takes the token of a grant to expire. */
  function TrueExpiry(g: Grant): int { g.fetch.issued + g.fetch.expiresIn * SECOND }

  /** The wrapped lifetime is never longer than the announced one exactly when the
      announced one does not fall below the least duration. */
  lemma WrapShortens(x: int)
    ensures Wrap(x) <= x <==> x >= -TWO_63
  {
  }

  /** A cached token is served only before its true expiry, up to the time the client
      takes between reading the body and reading the clock: the margin makes up for
      an exchange as long as the HTTP timeout allows. */
  lemma CachedIsFresh(events: seq<Event>, k: nat)
    requires k < |Run(events).answers| && Run(events).answers[k].cached
    ensures var s, a := Run(events), Run(events).answers[k];
      0 < a.after <= |s.grants|
      && (var g := s.grants[a.after - 1];
          g.fetch.expiresIn * SECOND >= -TWO_63 ==> a.at < TrueExpiry(g) + (g.clock - g.fetch.received))
  {
    RunKeeps(events);
    var s, a := Run(events), Run(events).answers[k];
    assert AnswerOk(s.grants, a);
    var g := s.grants[a.after - 1];
    assert GrantOk(g);
    WrapShortens(g.fetch.expiresIn * SECOND);
  }

  /** No fetch begins while a fetched token is outside the margin: after a pair with a
      token is stored, every later token request is sent at its expiry less the margin
      or later. */
  lemma NoEarlyFetch(events: seq<Event>, k: nat, i: nat)
    requires k < |Run(events).starts| && i < Run(events).starts[k].after
    ensures var s := Run(events);
      i < |s.grants| && (s.grants[i].fetch.token != "" ==> s.starts[k].at >= s.grants[i].expiry - MARGIN)
  {
    RunKeeps(events);
    assert Spent(Run(events).grants, Run(events).starts[k].after, Run(events).starts[k].at);
  }

  // ----- one caller on its own -----

  lemma RunStep(events: seq<Event>, e: Event)
    ensures Run(events + [e]) == Next(Run(events), e)
  {
    assert (events + [e])[..|events|] == events;
  }

  /** A lifetime is safe when no run serves its token, fetched without local delay, after its true expiry. */
  ghost predicate NeverServedLate(expiresIn: int) {
    forall events, k :: 0 <= k < |Run(events).answers| ==> ServedInTime(Run(events), Run(events).answers[k], expiresIn)
  }

  predicate ServedInTime(s: State, a: Answer, expiresIn: int) {
    a.cached && 0 < a.after <= |s.grants| && s.grants[a.after - 1].fetch.expiresIn == expiresIn
    && s.grants[a.after - 1].clock == s.grants[a.after - 1].fetch.received ==>
      a.at < TrueExpiry(s.grants[a.after - 1])
  }

  /** A caller makes its next step. */
  lemma OneStep(events: seq<Event>, c: nat) returns (more: seq<Event>)
    ensures Run(more) == CallerStep(Run(events), c)
  {
    RunStep(events, Step(c));
    more := events + [Step(c)];
  }

  /** Alone and at one moment, caller 0 finds the cache empty and sends a request. */
  lemma FirstFetch() returns (events: seq<Event>)
    ensures var s := Run(events);
      PcOf(s, 0) == Fetching(0) && s.now == 0 && s.grants == [] && s.answers == [] && s.readers == {} && s.writer == Some(0)
  {
    events := OneStep([], 0);
    events := CheckRuns(events, 0, false);
    events := OneStep(events, 0);
    events := OneStep(events, 0);
    events := SecondCheckFails(events);
  }

  lemma SecondCheckFails(events: seq<Event>) returns (more: seq<Event>)
    requires var s := Run(events);
      PcOf(s, 0) == Checking(true, Enter) && s.token == "" && s.now == 0
      && s.grants == [] && s.answers == [] && s.readers == {} && s.writer == Some(0)
    ensures var s := Run(more);
      PcOf(s, 0) == Fetching(0) && s.now == 0 && s.grants == [] && s.answers == [] && s.readers == {} && s.writer == Some(0)
  {
    more := CheckRuns(events, 0, true);
    more := OneStep(more, 0);
  }

  /** The rest of that refresh: the answer is stored and given. */
  lemma FirstStored(expiresIn: int) returns (events: seq<Event>)
    requires -TWO_63 <= expiresIn < TWO_63
    ensures var s := Run(events);
      Free(s, 0) && s.now == 0 && |s.answers| == 1
      && s.grants == [Grant(Fetch(0, 0, 0, "token", expiresIn), 0, Lifetime(expiresIn))]
      && Held(s) == Cached("token", Lifetime(expiresIn))
  {
    var sent := FirstFetch();
    var e := Issued(0, 0, "token", expiresIn);
    RunStep(sent, e);
    events := StoreRuns(sent + [e], 0, Fetch(0, 0, 0, "token", expiresIn));
  }

  /** A second call at the same moment is served from the cache. */
  lemma ServedAtOnce(expiresIn: int) returns (events: seq<Event>)
    requires -TWO_63 <= expiresIn < TWO_63 && Lifetime(expiresIn) > MARGIN
    ensures var s := Run(events);
      |s.answers| == 2 && s.answers[1] == Answer(true, "token", 0, Lifetime(expiresIn), 1)
      && s.grants == [Grant(Fetch(0, 0, 0, "token", expiresIn), 0, Lifetime(expiresIn))]
  {
    events := FirstStored(expiresIn);
    events := OneStep(events, 0);
    events := CheckRuns(events, 0, false);
    events := HitRuns(events, 0, false);
  }

  /** Exactly which lifetimes are safe: those that do not fall below the least
      duration, and among the others those whose wrapped value is inside the margin. */
  lemma SafeLifetimes(expiresIn: int)
    requires -TWO_63 <= expiresIn < TWO_63
    ensures NeverServedLate(expiresIn) <==> expiresIn * SECOND >= -TWO_63 || Lifetime(expiresIn) <= MARGIN
  {
    WrapShortens(expiresIn * SECOND);
    if expiresIn * SECOND >= -TWO_63 || Lifetime(expiresIn) <= MARGIN {
      forall events, k | 0 <= k < |Run(events).answers| ensures ServedInTime(Run(events), Run(events).answers[k], expiresIn) {
        CachedInTime(events, k, expiresIn);
      }
    } else {
      var events := ServedAtOnce(expiresIn);
      assert !ServedInTime(Run(events), Run(events).answers[1], expiresIn);
    }
  }

  lemma CachedInTime(events: seq<Event>, k: nat, expiresIn: int)
    requires k < |Run(events).answers| && (expiresIn * SECOND >= -TWO_63 || Lifetime(expiresIn) <= MARGIN)
    ensures ServedInTime(Run(events), Run(events).answers[k], expiresIn)
  {
    var s, a := Run(events), Run(events).answers[k];
    if a.cached {
      RunKeeps(events);
      assert AnswerOk(s.grants, a);
      CachedIsFresh(events, k);
    }
  }

  // ----- one call without interleaving -----

  /** How the token endpoint answers: with a token, or in any other way. */
  datatype Exchange = NoToken | Token(token: string, expiresIn: int)

  datatype Cached = Cached(token: string, expiry: int)

  predicate Usable(c: Cached, at: int) { c.token != "" && at < c.expiry - MARGIN }

  /** One whole call: the clock at both checks and after the exchange. No answer stands for an error. */
  function Call(c: Cached, first: int, second: int, exchange: Exchange, after: int): (Cached, Option<string>) {
    if Usable(c, first) || Usable(c, second) then (c, Some(c.token))
    else
      match exchange
      case NoToken => (c, None)
      case Token(token, expiresIn) => (Cached(token, after + Lifetime(expiresIn)), Some(token))
  }

  /** The cache as an object, its lock left to the step machine. */
  class Cache {
    var accessToken: string
    var tokenExpiry: int

    function Contents(): Cached
      reads this
    {
      Cached(accessToken, tokenExpiry)
    }

    constructor ()
      ensures Contents() == Cached("", 0)
    {
      accessToken, tokenExpiry := "", 0;
    }

    method GetAccessToken(first: int, second: int, exchange: Exchange, after: int) returns (answer: Option<string>)
      modifies this
      ensures (Contents(), answer) == Call(old(Contents()), first, second, exchange, after)
    {
      if accessToken != "" && first < tokenExpiry - MARGIN { return Some(accessToken); }
      answer := RefreshAccessToken(second, exchange, after);
    }

    method RefreshAccessToken(second: int, exchange: Exchange, after: int) returns (answer: Option<string>)
      modifies this
      ensures !Usable(old(Contents()), second) ==> (Contents(), answer) == Call(old(Contents()), second, second, exchange, after)
      ensures Usable(old(Contents()), second) ==> Contents() == old(Contents()) && answer == Some(old(accessToken))
    {
      if accessToken != "" && second < tokenExpiry - MARGIN { return Some(accessToken); }
      if exchange.NoToken? { return None; }
      accessToken := exchange.token;
      tokenExpiry := after + Lifetime(exchange.expiresIn);
      answer := Some(accessToken);
    }
  }

  /** The call's answer is the one recorded since, if there is one. */
  predicate Answered(s: State, t: State, answer: Option<string>) {
    if answer.None? then t.answers == s.answers
    else |t.answers| == |s.answers| + 1 && t.answers[|s.answers|].token == answer.value
  }

  predicate Free(s: State, c: nat) { PcOf(s, c).Idle? && s.writer.None? && s.readers == {} }

  function Held(s: State): Cached { Cached(s.token, s.expiry) }

  /** The steps of one check of the cache. */
  lemma CheckRuns(events: seq<Event>, c: nat, locked: bool) returns (more: seq<Event>)
    requires PcOf(Run(events), c) == Checking(locked, Enter)
    ensures var s := Run(events);
      Run(more) == At(s, c, Checking(locked, if Usable(Held(s), s.now) then Fresh(s.now, s.expiry) else Stale))
  {
    var s := Run(events);
    more := OneStep(events, c);
    if s.token != "" {
      more := OneStep(more, c);
      assert Run(more) == At(s, c, Checking(locked, Timed(s.now)));
      more := OneStep(more, c);
    }
  }

  /** A usable token is answered and the lock given back. */
  lemma HitRuns(events: seq<Event>, c: nat, locked: bool) returns (more: seq<Event>)
    requires PcOf(Run(events), c) == Checking(locked, Fresh(Run(events).now, Run(events).expiry))
    requires Run(events).readers == (if locked then {} else {c}) && Run(events).writer == (if locked then Some(c) else None)
    ensures var s, t := Run(events), Run(more);
      Free(t, c) && Held(t) == Held(s) && t.grants == s.grants
      && t.answers == s.answers + [Answer(true, s.token, s.now, s.expiry, |s.grants|)]
  {
    more := OneStep(events, c);
    more := OneStep(more, c);
  }

  /** The call under the write lock, from the check to the end. */
  lemma RefreshRuns(events: seq<Event>, c: nat, exchange: Exchange, wait: nat, lag: nat) returns (more: seq<Event>)
    requires PcOf(Run(events), c) == Checking(true, Enter) && Run(events).writer == Some(c) && Run(events).readers == {}
    requires exchange.Token? ==> wait <= TIMEOUT && -TWO_63 <= exchange.expiresIn < TWO_63
    ensures var s, t := Run(events), Run(more);
      var (cache, answer) := Call(Held(s), s.now, s.now, exchange, s.now + wait + lag);
      Free(t, c) && Held(t) == cache && Answered(s, t, answer)
  {
    var s := Run(events);
    more := CheckRuns(events, c, true);
    if Usable(Held(s), s.now) {
      more := HitRuns(more, c, true);
    } else {
      RunStep(more, Step(c));
      more := more + [Step(c)];
      RunStep(more, Elapsed(wait));
      more := more + [Elapsed(wait)];
      more := ExchangeRuns(more, c, exchange, lag);
    }
  }

  /** A received token is stored with its expiry. */
  lemma PairRuns(events: seq<Event>, c: nat, fetch: Fetch) returns (more: seq<Event>)
    requires PcOf(Run(events), c) == Received(fetch)
    ensures var s, t, expiry := Run(events), Run(more), Run(events).now + Lifetime(fetch.expiresIn);
      t == At(s.(token := fetch.token, expiry := expiry, grants := s.grants + [Grant(fetch, s.now, expiry)]), c, Returning)
  {
    var s := Run(events);
    more := OneStep(events, c);
    assert Run(more) == At(s.(token := fetch.token), c, TokenWritten(fetch));
    more := OneStep(more, c);
    assert Run(more) == At(s.(token := fetch.token), c, Clocked(fetch, s.now));
    more := OneStep(more, c);
  }

  /** A received token is stored, answered, and the lock given back. */
  lemma StoreRuns(events: seq<Event>, c: nat, fetch: Fetch) returns (more: seq<Event>)
    requires PcOf(Run(events), c) == Received(fetch) && Run(events).writer == Some(c) && Run(events).readers == {}
    ensures var s, t, expiry := Run(events), Run(more), Run(events).now + Lifetime(fetch.expiresIn);
      Free(t, c) && t.now == s.now && Held(t) == Cached(fetch.token, expiry)
      && t.grants == s.grants + [Grant(fetch, s.now, expiry)]
      && |t.answers| == |s.answers| + 1 && t.answers[|s.answers|].token == fetch.token
  {
    more := PairRuns(events, c, fetch);
    more := OneStep(more, c);
    more := OneStep(more, c);
  }

  lemma ExchangeRuns(events: seq<Event>, c: nat, exchange: Exchange, lag: nat) returns (more: seq<Event>)
    requires PcOf(Run(events), c).Fetching? && Run(events).writer == Some(c) && Run(events).readers == {}
    requires exchange.Token? ==> CanIssue(Run(events), c, Run(events).now, exchange.expiresIn)
    ensures var s, t := Run(events), Run(more);
      Free(t, c)
      && (if exchange.NoToken? then Held(t) == Held(s) && t.answers == s.answers
          else Held(t) == Cached(exchange.token, s.now + lag + Lifetime(exchange.expiresIn))
               && |t.answers| == |s.answers| + 1 && t.answers[|s.answers|].token == exchange.token)
  {
    var s := Run(events);
    if exchange.NoToken? {
      RunStep(events, Refused(c));
      more := OneStep(events + [Refused(c)], c);
    } else {
      var e := Issued(c, s.now, exchange.token, exchange.expiresIn);
      RunStep(events, e);
      more := events + [e];
      RunStep(more, Elapsed(lag));
      more := more + [Elapsed(lag)];
      more := StoreRuns(more, c, Fetch(PcOf(s, c).start, s.now, s.now, exchange.token, exchange.expiresIn));
    }
  }

  /** Every uninterrupted call of the object is a run of the step machine: same cache
      afterwards, same answer. */
  lemma CallIsARun(events: seq<Event>, c: nat, pause: nat, exchange: Exchange, wait: nat, lag: nat) returns (more: seq<Event>)
    requires Free(Run(events), c)
    requires exchange.Token? ==> wait <= TIMEOUT && -TWO_63 <= exchange.expiresIn < TWO_63
    ensures var s, t := Run(events), Run(more);
      var (cache, answer) := Call(Held(s), s.now, s.now + pause, exchange, s.now + pause + wait + lag);
      Free(t, c) && Held(t) == cache && Answered(s, t, answer)
  {
    var s := Run(events);
    more := OneStep(events, c);
    more := CheckRuns(more, c, false);
    if Usable(Held(s), s.now) {
      more := HitRuns(more, c, false);
    } else {
      more := LockRuns(more, c, pause);
      more := RefreshRuns(more, c, exchange, wait, lag);
    }
  }

  /** The read lock is given back and, after a pause, the write lock taken. */
  lemma LockRuns(events: seq<Event>, c: nat, pause: nat) returns (more: seq<Event>)
    requires PcOf(Run(events), c) == Checking(false, Stale) && Run(events).readers == {c} && Run(events).writer.None?
    ensures var s := Run(events);
      Run(more) == At(s.(now := s.now + pause, readers := {}, writer := Some(c)), c, Checking(true, Enter))
  {
    var s := Run(events);
    more := OneStep(events, c);
    assert {c} - {c} == {};
    assert Run(more) == At(s.(readers := {}), c, Waiting);
    RunStep(more, Elapsed(pause));
    more := more + [Elapsed(pause)];
    assert Run(more) == At(s.(now := s.now + pause, readers := {}), c, Waiting);
    more := OneStep(more, c);
  }
}
