/**
The request governor of `AvanzaClient` (`client/base.py`, `_pace_request_start`,
`_note_rate_limit`, `_send_request`): a semaphore, a pacing lock and a rate-limit
cooldown shared by any number of concurrent tasks.

One event is one stretch of code between two awaits; any task may be cancelled
where it is suspended.  Times are rational seconds on the loop clock.
*/
module Governor {
  import opened Wrappers

  type Task = nat

  datatype Config = Config(interval: real, maxInFlight: nat, cooldown: real) {
    /** What the constructor accepts. */
    predicate Valid() {
      interval >= 0.0 && cooldown >= 0.0 && maxInFlight >= 1
    }
  }

  /** Where a task is suspended: semaphore, pacing lock, pacing sleep (holding the lock), request. */
  datatype Phase = Queued | Admitted | Pacing | Sending

  /** One look at the clock: time until the second reading, and the random jitter. */
  datatype Look = Look(lag: real, jitter: real)

  datatype Event =
    | Arrive(t: Task)
    | Admit(t: Task)
    | TakeLock(t: Task, look: Look)
    | WakeUp(t: Task, look: Look)
    | NoteRateLimit(retryAfter: Option<nat>)
    | Finish(t: Task)
    | Cancel(t: Task)
    | Tick(elapsed: real)

  /** `starts` is the history of granted request starts. */
  datatype State = State(now: real, nextStart: real, rateLimitUntil: real, lock: Option<Task>,
                         phases: map<Task, Phase>, starts: seq<real>)

  const INITIAL := State(0.0, 0.0, 0.0, None, map[], [])

  function Later(a: real, b: real): real {
    if a <= b then b else a
  }

  function InFlight(phases: map<Task, Phase>): set<Task> {
    set t | t in phases && phases[t] != Queued
  }

  predicate At(s: State, t: Task, phase: Phase) {
    t in s.phases && s.phases[t] == phase
  }

  predicate Enabled(c: Config, s: State, e: Event) {
    match e
    case Arrive(t) => t !in s.phases
    case Admit(t) => At(s, t, Queued) && |InFlight(s.phases)| < c.maxInFlight
    case TakeLock(t, look) => At(s, t, Admitted) && s.lock == None && look.lag >= 0.0 && look.jitter >= 0.0
    case WakeUp(t, look) => At(s, t, Pacing) && look.lag >= 0.0 && look.jitter >= 0.0
    case NoteRateLimit(_) => true
    case Finish(t) => At(s, t, Sending)
    case Cancel(t) => t in s.phases
    case Tick(elapsed) => elapsed >= 0.0
  }

  /** The pacing loop from a clock reading to the next await. */
  function PaceLook(c: Config, s: State, t: Task, look: Look): State {
    if Later(s.nextStart, s.rateLimitUntil) - s.now <= 0.0 then
      var start := s.now + look.lag;
      s.(now := start, nextStart := start + c.interval + look.jitter, lock := None,
         phases := s.phases[t := Sending], starts := s.starts + [start])
    else
      s.(lock := Some(t), phases := s.phases[t := Pacing])
  }

  function Step(c: Config, s: State, e: Event): State {
    if !Enabled(c, s, e) then s
    else
      match e
      case Arrive(t) => s.(phases := s.phases[t := Queued])
      case Admit(t) => s.(phases := s.phases[t := Admitted])
      case TakeLock(t, look) => PaceLook(c, s, t, look)
      case WakeUp(t, look) => PaceLook(c, s, t, look)
      case NoteRateLimit(retryAfter) =>
        var delay := if retryAfter.Some? then retryAfter.value as real else c.cooldown;
        s.(rateLimitUntil := Later(s.rateLimitUntil, s.now + Later(0.0, delay)))
      case Finish(t) => s.(phases := s.phases - {t})
      case Cancel(t) =>
        s.(phases := s.phases - {t}, lock := if s.lock == Some(t) then None else s.lock)
      case Tick(elapsed) => s.(now := s.now + elapsed)
  }

  function Run(c: Config, events: seq<Event>): State {
    if events == [] then INITIAL
    else Step(c, Run(c, events[..|events| - 1]), events[|events| - 1])
  }

  // ---- what every run keeps ----

  /** Starts are an interval apart and the next one is held back from the last. */
  ghost predicate Spaced(c: Config, s: State) {
    && (s.starts != [] ==> s.nextStart >= s.starts[|s.starts| - 1] + c.interval && s.now >= s.starts[|s.starts| - 1])
    && (forall i | 0 <= i < |s.starts| - 1 :: s.starts[i + 1] - s.starts[i] >= c.interval)
  }

  /** The pacing lock is held exactly by the sleeping task, and the semaphore is not oversubscribed. */
  ghost predicate Occupied(c: Config, s: State) {
    && (forall t: Task :: At(s, t, Pacing) <==> s.lock == Some(t))
    && |InFlight(s.phases)| <= c.maxInFlight
  }

  lemma {:induction false} RunIsSpaced(c: Config, events: seq<Event>)
    requires c.Valid()
    ensures Spaced(c, Run(c, events))
  {
    if events != [] {
      RunIsSpaced(c, events[..|events| - 1]);
    }
  }

  lemma InFlightAfter(phases: map<Task, Phase>, t: Task, phase: Phase)
    ensures phase != Queued ==> InFlight(phases[t := phase]) == InFlight(phases) + {t}
    ensures phase == Queued ==> InFlight(phases[t := phase]) == InFlight(phases) - {t}
    ensures InFlight(phases - {t}) == InFlight(phases) - {t}
    ensures t in phases && phases[t] != Queued ==> t in InFlight(phases)
  {
  }

  lemma Sizes(tasks: set<Task>, t: Task)
    ensures |tasks - {t}| <= |tasks| && |tasks + {t}| <= |tasks| + 1
    ensures t in tasks ==> tasks + {t} == tasks
  {
    if t in tasks {
      assert tasks == (tasks - {t}) + {t};
    } else {
      assert tasks - {t} == tasks;
    }
  }

  lemma PaceIsOccupied(c: Config, s: State, t: Task, look: Look)
    requires Occupied(c, s) && (s.lock == None || s.lock == Some(t)) && t in InFlight(s.phases)
    ensures Occupied(c, PaceLook(c, s, t, look))
  {
    InFlightAfter(s.phases, t, Sending);
    InFlightAfter(s.phases, t, Pacing);
    Sizes(InFlight(s.phases), t);
  }

  lemma LeavingIsOccupied(c: Config, s: State, t: Task)
    requires Occupied(c, s)
    ensures Occupied(c, s.(phases := s.phases - {t}, lock := if s.lock == Some(t) then None else s.lock))
  {
    InFlightAfter(s.phases, t, Queued);
    Sizes(InFlight(s.phases), t);
  }

  lemma AdmitIsOccupied(c: Config, s: State, t: Task)
    requires Occupied(c, s) && At(s, t, Queued) && |InFlight(s.phases)| < c.maxInFlight
    ensures Occupied(c, s.(phases := s.phases[t := Admitted]))
  {
    InFlightAfter(s.phases, t, Admitted);
    Sizes(InFlight(s.phases), t);
  }

  lemma ArriveIsOccupied(c: Config, s: State, t: Task)
    requires Occupied(c, s) && t !in s.phases
    ensures Occupied(c, s.(phases := s.phases[t := Queued]))
  {
    InFlightAfter(s.phases, t, Queued);
    Sizes(InFlight(s.phases), t);
  }

  lemma StepIsOccupied(c: Config, s: State, e: Event)
    requires Occupied(c, s)
    ensures Occupied(c, Step(c, s, e))
  {
    if Enabled(c, s, e) {
      match e
      case Arrive(t) => ArriveIsOccupied(c, s, t);
      case Admit(t) => AdmitIsOccupied(c, s, t);
      case TakeLock(t, look) => PaceIsOccupied(c, s, t, look);
      case WakeUp(t, look) => PaceIsOccupied(c, s, t, look);
      case NoteRateLimit(_) =>
      case Finish(t) => assert At(s, t, Sending); LeavingIsOccupied(c, s, t);
      case Cancel(t) => LeavingIsOccupied(c, s, t);
      case Tick(_) =>
    }
  }

  /**
  At most `max_in_flight_requests` requests are past the semaphore and at most one
  task paces, whoever is cancelled.
  */
  lemma {:induction false} InFlightBounded(c: Config, events: seq<Event>)
    requires c.Valid()
    ensures Occupied(c, Run(c, events))
  {
    if events == [] {
      assert InFlight(map[]) == {};
    } else {
      InFlightBounded(c, events[..|events| - 1]);
      StepIsOccupied(c, Run(c, events[..|events| - 1]), events[|events| - 1]);
    }
  }

  lemma OneMoreInterval(n: nat, interval: real)
    ensures (n + 1) as real * interval == n as real * interval + interval
  {
  }

  lemma {:induction false} Spread(interval: real, starts: seq<real>, i: nat, j: nat)
    requires i <= j < |starts|
    requires forall k | 0 <= k < |starts| - 1 :: starts[k + 1] - starts[k] >= interval
    ensures starts[j] - starts[i] >= (j - i) as real * interval
  {
    if i < j {
      Spread(interval, starts, i, j - 1);
      assert starts[j - 1 + 1] - starts[j - 1] >= interval;
      OneMoreInterval(j - 1 - i, interval);
    }
  }

  /** Starts `i` and `j` of any run are at least `(j - i)` intervals apart. */
  lemma StartsSpread(c: Config, events: seq<Event>, starts: seq<real>, i: nat, j: nat)
    requires c.Valid() && starts == Run(c, events).starts && i <= j < |starts|
    ensures starts[j] - starts[i] >= (j - i) as real * c.interval
  {
    assert forall k | 0 <= k < |starts| - 1 :: starts[k + 1] - starts[k] >= c.interval by {
      RunIsSpaced(c, events);
    }
    Spread(c.interval, starts, i, j);
  }

  /** The starts that fall into the closed window. */
  function InWindow(starts: seq<real>, from: real, width: real): nat {
    if starts == [] then 0
    else InWindow(starts[..|starts| - 1], from, width)
         + if from <= starts[|starts| - 1] <= from + width then 1 else 0
  }

  /** Counting from any start inside the window, the later ones in it are one interval apart each. */
  lemma {:induction false} WindowSpan(interval: real, starts: seq<real>, from: real, width: real)
    requires interval > 0.0 && width >= 0.0
    requires forall k | 0 <= k < |starts| - 1 :: starts[k + 1] - starts[k] >= interval
    ensures InWindow(starts, from, width) > 0 ==>
      exists i, j :: 0 <= i <= j < |starts| && from <= starts[i] && starts[j] <= from + width
                     && InWindow(starts, from, width) == j - i + 1
    ensures starts != [] && starts[|starts| - 1] < from ==> InWindow(starts, from, width) == 0
    ensures starts != [] && from <= starts[|starts| - 1] <= from + width ==>
      InWindow(starts, from, width) <= |starts| && from <= starts[|starts| - InWindow(starts, from, width)]
  {
    if starts != [] {
      var last := |starts| - 1;
      var init := starts[..last];
      WindowSpan(interval, init, from, width);
      if last > 0 { assert starts[last - 1 + 1] - starts[last - 1] >= interval; }
      if from <= starts[last] <= from + width {
        var n := InWindow(starts, from, width);
        assert from <= starts[|starts| - n];
        assert 0 <= |starts| - n <= last < |starts|;
      } else if InWindow(init, from, width) > 0 {
        var i, j :| 0 <= i <= j < |init| && from <= init[i] && init[j] <= from + width
                    && InWindow(init, from, width) == j - i + 1;
        assert starts[i] == init[i] && starts[j] == init[j];
      }
    }
  }

  lemma WindowEnds(interval: real, starts: seq<real>, from: real, width: real) returns (i: nat, j: nat)
    requires interval > 0.0 && width >= 0.0 && InWindow(starts, from, width) > 0
    requires forall k | 0 <= k < |starts| - 1 :: starts[k + 1] - starts[k] >= interval
    ensures i <= j < |starts| && InWindow(starts, from, width) == j - i + 1
    ensures starts[j] - starts[i] <= width
  {
    WindowSpan(interval, starts, from, width);
    i, j :| 0 <= i <= j < |starts| && from <= starts[i] && starts[j] <= from + width
            && InWindow(starts, from, width) == j - i + 1;
  }

  /** A window of width `W` holds at most `floor(W / interval) + 1` request starts. */
  lemma RateBound(c: Config, events: seq<Event>, from: real, width: real)
    requires c.Valid() && c.interval > 0.0 && width >= 0.0
    ensures InWindow(Run(c, events).starts, from, width) <= (width / c.interval).Floor + 1
  {
    RunIsSpaced(c, events);
    WindowBound(c.interval, Run(c, events).starts, from, width);
  }

  lemma WindowBound(interval: real, starts: seq<real>, from: real, width: real)
    requires interval > 0.0 && width >= 0.0
    requires forall k | 0 <= k < |starts| - 1 :: starts[k + 1] - starts[k] >= interval
    ensures InWindow(starts, from, width) <= (width / interval).Floor + 1
  {
    QuotientBound(0, interval, width);
    if InWindow(starts, from, width) > 0 {
      var i, j := WindowEnds(interval, starts, from, width);
      Spread(interval, starts, i, j);
      QuotientBound(j - i, interval, width);
    }
  }

  lemma QuotientBound(n: nat, interval: real, width: real)
    requires interval > 0.0 && n as real * interval <= width
    ensures n <= (width / interval).Floor
  {
    assert width / interval >= n as real;
  }

  /** The cooldown never moves back, and no start after it was noted precedes it. */
  lemma {:induction false} CooldownHolds(c: Config, before: seq<Event>, after: seq<Event>)
    requires c.Valid()
    ensures var s := Run(c, before); var t := Run(c, before + after);
      && t.rateLimitUntil >= s.rateLimitUntil
      && |s.starts| <= |t.starts| && t.starts[..|s.starts|] == s.starts
      && forall i | |s.starts| <= i < |t.starts| :: t.starts[i] >= s.rateLimitUntil
  {
    if after == [] {
      assert before + after == before;
    } else {
      var last := |after| - 1;
      CooldownHolds(c, before, after[..last]);
      assert (before + after)[..|before + after| - 1] == before + after[..last];
    }
  }

  // ---- the events and the clock alone ----

  /** How long a 429 holds requests back: the seconds it gives, or the configured cooldown. */
  function HoldBack(c: Config, retryAfter: Option<nat>): real {
    match retryAfter
    case Some(seconds) => seconds as real
    case None => c.cooldown
  }

  lemma RunSnoc(c: Config, events: seq<Event>, e: Event)
    ensures Run(c, events + [e]) == Step(c, Run(c, events), e)
  {
    assert (events + [e])[..|events|] == events;
  }

  /**
  The cooldown.  After a 429 at any point of any run, no request starts before the time
  the 429 was noted plus the seconds it gave, or plus the configured cooldown.
  */
  lemma RateLimitHolds(c: Config, before: seq<Event>, retryAfter: Option<nat>, after: seq<Event>)
    requires c.Valid()
    ensures var s := Run(c, before); var t := Run(c, before + [NoteRateLimit(retryAfter)] + after);
      && |s.starts| <= |t.starts| && t.starts[..|s.starts|] == s.starts
      && forall i | |s.starts| <= i < |t.starts| :: t.starts[i] >= s.now + HoldBack(c, retryAfter)
  {
    RunSnoc(c, before, NoteRateLimit(retryAfter));
    CooldownHolds(c, before + [NoteRateLimit(retryAfter)], after);
  }

  /** The latest of the times until which the 429s of the history hold requests back. */
  function HeldUntil(c: Config, events: seq<Event>): real {
    if events == [] then 0.0
    else
      var e, before := events[|events| - 1], events[..|events| - 1];
      if e.NoteRateLimit? && Run(c, before).now + HoldBack(c, e.retryAfter) > HeldUntil(c, before)
      then Run(c, before).now + HoldBack(c, e.retryAfter)
      else HeldUntil(c, before)
  }

  /** The interval and the jitter that were added to the last start of the history. */
  function PacedUntil(c: Config, events: seq<Event>): real {
    if events == [] then 0.0
    else
      var e, before := events[|events| - 1], events[..|events| - 1];
      var was, now := Run(c, before).starts, Run(c, events).starts;
      if |now| > |was| && (e.TakeLock? || e.WakeUp?) then now[|now| - 1] + c.interval + e.look.jitter
      else PacedUntil(c, before)
  }

  /** The governor remembers exactly the latest 429 and the last start. */
  lemma {:induction false} RemembersHistory(c: Config, events: seq<Event>)
    requires c.Valid()
    ensures Run(c, events).rateLimitUntil == HeldUntil(c, events)
    ensures Run(c, events).nextStart == PacedUntil(c, events)
  {
    if events != [] {
      RemembersHistory(c, events[..|events| - 1]);
    }
  }

  /** A look at the clock by the task that gets or holds the pacing lock. */
  predicate Looks(s: State, e: Event, t: Task, look: Look) {
    && (e == TakeLock(t, look) || e == WakeUp(t, look)) && look.lag >= 0.0 && look.jitter >= 0.0
    && t in s.phases
    && s.phases[t] == (if e.TakeLock? then Admitted else Pacing)
    && (e.TakeLock? ==> s.lock == None)
  }

  /**
  A task that looks at the clock starts its request if and only if every 429 so far and
  the pacing of the last start have passed; otherwise it sleeps holding the pacing lock.
  */
  lemma StartsIffDue(c: Config, events: seq<Event>, e: Event, t: Task, look: Look)
    requires c.Valid() && Looks(Run(c, events), e, t, look)
    ensures var s, n := Run(c, events), Run(c, events + [e]);
            && t in n.phases
            && if HeldUntil(c, events) <= s.now && PacedUntil(c, events) <= s.now then
                 n.starts == s.starts + [s.now + look.lag] && n.now == s.now + look.lag
                 && n.phases[t] == Sending && n.lock == None
               else n.starts == s.starts && n.now == s.now && n.phases[t] == Pacing && n.lock == Some(t)
  {
    hide Run, HeldUntil, PacedUntil;
    RunSnoc(c, events, e);
    RemembersHistory(c, events);
  }

  /**
  Progress.  In any run, a task that arrives while the pacing lock is free and a slot is
  left, once every hold has passed, is admitted, starts at its look and leaves.
  */
  lemma RequestRuns(c: Config, events: seq<Event>, t: Task, look: Look) returns (all: seq<Event>)
    requires c.Valid() && look.lag >= 0.0 && look.jitter >= 0.0
    requires var s := Run(c, events);
             && t !in s.phases && s.lock == None && |InFlight(s.phases)| < c.maxInFlight
             && HeldUntil(c, events) <= s.now && PacedUntil(c, events) <= s.now
    ensures all == events + [Arrive(t), Admit(t), TakeLock(t, look), Finish(t)]
    ensures var s, n := Run(c, events), Run(c, all);
            && n.starts == s.starts + [s.now + look.lag] && n.phases == s.phases && n.lock == None
            && n.nextStart == s.now + look.lag + c.interval + look.jitter
  {
    hide Run, HeldUntil, PacedUntil;
    var s := Run(c, events);
    RemembersHistory(c, events);
    RequestIsAdmitted(c, events, t);
    RunSnoc(c, events + [Arrive(t)] + [Admit(t)], TakeLock(t, look));
    all := events + [Arrive(t)] + [Admit(t)] + [TakeLock(t, look)] + [Finish(t)];
    RunSnoc(c, events + [Arrive(t)] + [Admit(t)] + [TakeLock(t, look)], Finish(t));
    assert s.phases[t := Admitted][t := Sending] - {t} == s.phases;
  }

  lemma RequestIsAdmitted(c: Config, events: seq<Event>, t: Task)
    requires t !in Run(c, events).phases && |InFlight(Run(c, events).phases)| < c.maxInFlight
    ensures Run(c, events + [Arrive(t)] + [Admit(t)]) == Run(c, events).(phases := Run(c, events).phases[t := Admitted])
  {
    hide Run;
    var s := Run(c, events);
    RunSnoc(c, events, Arrive(t));
    RunSnoc(c, events + [Arrive(t)], Admit(t));
    InFlightAfter(s.phases, t, Queued);
    assert InFlight(s.phases) - {t} == InFlight(s.phases);
    assert s.phases[t := Queued][t := Admitted] == s.phases[t := Admitted];
  }

  /** A task that is held back starts when it wakes after the last hold has passed. */
  lemma HeldTaskStarts(c: Config, events: seq<Event>, t: Task, look: Look, elapsed: real)
    requires c.Valid() && look.lag >= 0.0 && look.jitter >= 0.0 && elapsed >= 0.0
    requires t in Run(c, events).phases && Run(c, events).phases[t] == Pacing
    requires HeldUntil(c, events) <= Run(c, events).now + elapsed && PacedUntil(c, events) <= Run(c, events).now + elapsed
    ensures Run(c, events + [Tick(elapsed)] + [WakeUp(t, look)]).starts
         == Run(c, events).starts + [Run(c, events).now + elapsed + look.lag]
  {
    hide Run, HeldUntil, PacedUntil;
    RunSnoc(c, events, Tick(elapsed));
    RunSnoc(c, events + [Tick(elapsed)], WakeUp(t, look));
    RemembersHistory(c, events);
  }

  // ---- the object ----

  class AvanzaClient {
    const config: Config
    var now: real
    var nextRequestStart: real
    var rateLimitUntil: real
    var paceLock: Option<Task>
    var phases: map<Task, Phase>
    var starts: seq<real>

    ghost function View(): State
      reads this
    {
      State(now, nextRequestStart, rateLimitUntil, paceLock, phases, starts)
    }

    constructor (config: Config)
      requires config.Valid()
      ensures this.config == config && View() == INITIAL
    {
      this.config := config;
      now, nextRequestStart, rateLimitUntil := 0.0, 0.0, 0.0;
      paceLock, phases, starts := None, map[], [];
    }

    /** `_pace_request_start` from a clock reading to its return or its sleep. */
    method Pace(t: Task, look: Look)
      modifies this
      ensures View() == PaceLook(config, old(View()), t, look)
    {
      var notBefore := Later(nextRequestStart, rateLimitUntil);
      var delay := notBefore - now;
      if delay <= 0.0 {
        now := now + look.lag;
        nextRequestStart := now + config.interval + look.jitter;
        starts := starts + [now];
        paceLock := None;
        phases := phases[t := Sending];
      } else {
        paceLock := Some(t);
        phases := phases[t := Pacing];
      }
    }

    /** `_note_rate_limit`. */
    method NoteLimit(retryAfter: Option<nat>)
      modifies this
      ensures View() == Step(config, old(View()), NoteRateLimit(retryAfter))
      ensures View() == old(View()).(rateLimitUntil := rateLimitUntil)
      ensures config.Valid() ==> rateLimitUntil >= old(rateLimitUntil) && rateLimitUntil >= now + HoldBack(config, retryAfter)
      ensures config.Valid() ==> rateLimitUntil == old(rateLimitUntil) || rateLimitUntil == now + HoldBack(config, retryAfter)
    {
      var delay := config.cooldown;
      if retryAfter.Some? {
        delay := retryAfter.value as real;
      }
      rateLimitUntil := Later(rateLimitUntil, now + Later(0.0, delay));
    }

    /** Run one event of one task. */
    method Handle(e: Event)
      modifies this
      ensures View() == Step(config, old(View()), e)
    {
      if Enabled(config, State(now, nextRequestStart, rateLimitUntil, paceLock, phases, []), e) {
        match e
        case Arrive(t) => phases := phases[t := Queued];
        case Admit(t) => phases := phases[t := Admitted];
        case TakeLock(t, look) => Pace(t, look);
        case WakeUp(t, look) => Pace(t, look);
        case NoteRateLimit(retryAfter) => NoteLimit(retryAfter);
        case Finish(t) => phases := phases - {t};
        case Cancel(t) =>
          phases := phases - {t};
          if paceLock == Some(t) {
            paceLock := None;
          }
        case Tick(elapsed) => now := now + elapsed;
      }
    }

    /**
    A fresh client that runs any events: its starts are an interval apart, at most
    `max_in_flight_requests` requests are past the semaphore, it remembers the latest 429
    and the last start, and no start that follows `before` precedes a cooldown noted by
    then; nor, when `after` begins with a 429, the seconds that 429 gives or the cooldown.
    */
    method Replay(before: seq<Event>, after: seq<Event>) returns (noted: real, at: real, since: nat)
      requires config.Valid() && View() == INITIAL
      modifies this
      ensures View() == Run(config, before + after)
      ensures noted == HeldUntil(config, before) && at == Run(config, before).now && since == |Run(config, before).starts|
      ensures rateLimitUntil == HeldUntil(config, before + after) && nextRequestStart == PacedUntil(config, before + after)
      ensures forall i | 0 <= i < |starts| - 1 :: starts[i + 1] - starts[i] >= config.interval
      ensures |InFlight(phases)| <= config.maxInFlight
      ensures since <= |starts| && rateLimitUntil >= noted && forall i | since <= i < |starts| :: starts[i] >= noted
      ensures after != [] && after[0].NoteRateLimit? ==>
                forall i | since <= i < |starts| :: starts[i] >= at + HoldBack(config, after[0].retryAfter)
    {
      hide Step;
      var all := before + after;
      noted, at, since := 0.0, 0.0, 0;
      for i := 0 to |all| + 1
        invariant View() == Run(config, all[..if i <= |all| then i else |all|])
        invariant i > |before| ==>
                    && noted == Run(config, before).rateLimitUntil && at == Run(config, before).now
                    && since == |Run(config, before).starts|
      {
        if i == |before| {
          assert all[..|before|] == before;
          noted, at, since := rateLimitUntil, now, |starts|;
        }
        if i < |all| {
          assert all[..i + 1][..i] == all[..i];
          Handle(all[i]);
        }
      }
      assert all[..|all|] == all;
      RunIsSpaced(config, all);
      InFlightBounded(config, all);
      CooldownHolds(config, before, after);
      RemembersHistory(config, before);
      RemembersHistory(config, all);
      if after != [] && after[0].NoteRateLimit? {
        assert before + [after[0]] + after[1..] == all;
        RateLimitHolds(config, before, after[0].retryAfter, after[1..]);
      }
    }
  }
}
