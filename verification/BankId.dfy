/**
One BankID login attempt (`client/bankid.py`, `BankIDClient`).

`start`, `restart`, `collect`, `validate_session`, `cancel` and `logout` may
overlap freely; each is suspended only inside a request or, for the last two, while
draining the calls it made obsolete.  Times are rational seconds.
*/
module BankId {
  import opened Wrappers

  type Task = nat
  type Session = nat

  datatype Config = Config(requestTimeout: real, attemptTimeout: real) {
    predicate Valid() {
      requestTimeout > 0.0 && attemptTimeout > 0.0
    }
  }

  datatype Call = Start | Restart | Collect | Validate | Cancel | Logout

  /** Which request of a call is in flight. */
  datatype Stage =
    | Starting | Restarting | Collecting | FirstInfo(customers: nat) | SelectingCustomer | SecondInfo | Validating
    | CleaningUp(stale: set<Task>)
    | Draining(stale: set<Task>, failed: bool)

  /** A suspended call: its stage, when its timeout ends, and whether that is bounded by the attempt. */
  datatype Pending = Pending(stage: Stage, end: real, bounded: bool)

  /** What a request answers, as far as the code distinguishes it. */
  datatype Reply =
    | Body(ok: bool)
    | CollectState(outcome: CollectOutcome)
    | Info(verified: bool, session: Session)
    | Broken

  datatype CollectOutcome = StillPending | UserDenied | Expired | Complete(customers: nat) | Unknown

  datatype Event =
    | Begin(t: Task, call: Call)
    | Answer(t: Task, reply: Reply)
    | TimeOut(t: Task)
    | Drained(t: Task)
    | Close
    | Tick(elapsed: real)

  /** What the callers observed. */
  datatype Outcome =
    | Value(t: Task)
    | LoggedIn(t: Task, session: Session)
    | Raised(t: Task)
    | Cleaned(t: Task)

  datatype Client = Client(now: real, deadline: Option<real>, hasTransaction: bool, cancelled: bool, closed: bool,
                           calls: map<Task, Pending>, log: seq<Outcome>)

  const NEW := Client(0.0, None, false, false, false, map[], [])

  function Finish(s: Client, t: Task, outcome: Outcome): Client {
    s.(calls := s.calls - {t}, log := s.log + [outcome])
  }

  function SmallerOf(a: real, b: real): real {
    if a <= b then a else b
  }

  /** `_request` up to its await: refuse, or send with a timeout. */
  function Send(c: Config, s: Client, t: Task, stage: Stage, cleanup: bool, bounded: bool): Client {
    if s.closed || (!cleanup && s.cancelled) then Finish(s, t, Raised(t))
    else if !bounded then s.(calls := s.calls[t := Pending(stage, s.now + c.requestTimeout, false)])
    else if s.deadline.None? then Finish(s, t, Raised(t))
    else
      var timeout := SmallerOf(c.requestTimeout, s.deadline.value - s.now);
      if timeout <= 0.0 then Finish(s, t, Raised(t))
      else s.(calls := s.calls[t := Pending(stage, s.now + timeout, true)])
  }

  function BeginCall(c: Config, s: Client, t: Task, call: Call): Client {
    match call
    case Start =>
      if s.deadline.Some? || s.closed || s.cancelled then Finish(s, t, Raised(t))
      else Send(c, s.(deadline := Some(s.now + c.attemptTimeout)), t, Starting, false, true)
    case Restart =>
      if s.closed || s.cancelled || !s.hasTransaction then Finish(s, t, Raised(t))
      else Send(c, s, t, Restarting, false, true)
    case Collect =>
      if s.closed || s.cancelled || !s.hasTransaction then Finish(s, t, Raised(t))
      else Send(c, s, t, Collecting, false, true)
    case Validate =>
      if s.deadline.Some? || s.closed || s.cancelled then Finish(s, t, Raised(t))
      else Send(c, s, t, Validating, false, false)
    case Cancel =>
      if s.cancelled then Finish(s, t, Cleaned(t))
      else if s.closed then Finish(s, t, Raised(t))
      else
        var gone := s.(cancelled := true);
        if s.hasTransaction then Send(c, gone, t, CleaningUp(InRequest(s)), true, false)
        else Drain(gone, t, InRequest(s), false)
    case Logout =>
      if s.closed then Finish(s, t, Raised(t))
      else Send(c, s.(cancelled := true), t, CleaningUp(InRequest(s)), true, false)
  }

  /** The calls `_inflight` holds: those suspended inside a request. */
  function InRequest(s: Client): set<Task> {
    set t | t in s.calls && !s.calls[t].stage.Draining?
  }

  /** The cleanup request is over: wait for the calls it made obsolete, then return or re-raise. */
  function Drain(s: Client, t: Task, stale: set<Task>, failed: bool): Client {
    if stale == {} then Finish(s, t, if failed then Raised(t) else Cleaned(t))
    else s.(calls := s.calls[t := Pending(Draining(stale, failed), s.now, false)])
  }

  function AnswerCall(c: Config, s: Client, t: Task, stage: Stage, reply: Reply): Client {
    if stage.Draining? then s
    else if stage.CleaningUp? then Drain(s, t, stage.stale, reply.Broken?)
    else if s.closed || s.cancelled || reply.Broken? then Finish(s, t, Raised(t))
    else
      match stage
      case Starting =>
        if reply.Body? && reply.ok then Finish(s.(hasTransaction := true), t, Value(t)) else Finish(s, t, Raised(t))
      case Restarting =>
        if reply.Body? && reply.ok then Finish(s, t, Value(t)) else Finish(s, t, Raised(t))
      case Collecting =>
        if !reply.CollectState? || reply.outcome.Unknown? then Finish(s, t, Raised(t))
        else if reply.outcome.Complete? then Send(c, s, t, FirstInfo(reply.outcome.customers), false, true)
        else Finish(s, t, Value(t))
      case FirstInfo(customers) =>
        if !reply.Info? then Finish(s, t, Raised(t))
        else if reply.verified then Finish(s, t, LoggedIn(t, reply.session))
        else if customers != 1 then Finish(s, t, Raised(t))
        else Send(c, s, t, SelectingCustomer, false, true)
      case SelectingCustomer => Send(c, s, t, SecondInfo, false, true)
      case SecondInfo =>
        if reply.Info? && reply.verified then Finish(s, t, LoggedIn(t, reply.session)) else Finish(s, t, Raised(t))
      case Validating =>
        if !reply.Info? then Finish(s, t, Raised(t))
        else if reply.verified then Finish(s, t, LoggedIn(t, reply.session))
        else Finish(s, t, Value(t))
      case _ => s
  }

  /** Events that are not enabled change nothing. */
  function Step(c: Config, s: Client, e: Event): Client {
    match e
    case Begin(t, call) => if t in s.calls then s else BeginCall(c, s, t, call)
    case Answer(t, reply) => if t in s.calls then AnswerCall(c, s, t, s.calls[t].stage, reply) else s
    case TimeOut(t) =>
      if t !in s.calls || s.calls[t].stage.Draining? || s.now < s.calls[t].end then s
      else if s.calls[t].stage.CleaningUp? then Drain(s, t, s.calls[t].stage.stale, true)
      else Finish(s, t, Raised(t))
    case Drained(t) =>
      if t in s.calls && s.calls[t].stage.Draining? && s.calls[t].stage.stale !! s.calls.Keys
      then Finish(s, t, if s.calls[t].stage.failed then Raised(t) else Cleaned(t))
      else s
    case Close => s.(closed := true)
    case Tick(elapsed) => if elapsed >= 0.0 then s.(now := s.now + elapsed) else s
  }

  function Run(c: Config, s: Client, events: seq<Event>): Client {
    if events == [] then s else Step(c, Run(c, s, events[..|events| - 1]), events[|events| - 1])
  }

  // ---- what every run keeps ----

  predicate Gives(outcome: Outcome) {
    outcome.Value? || outcome.LoggedIn?
  }

  lemma CancelledStep(c: Config, s: Client, e: Event)
    requires s.cancelled
    ensures var n := Step(c, s, e);
      n.cancelled && |s.log| <= |n.log| && n.log[..|s.log|] == s.log
      && forall i | |s.log| <= i < |n.log| :: !Gives(n.log[i])
  {
  }

  /**
  Once `cancel` (or `logout`) has taken effect, no pending or later start, restart,
  collect or validation returns a value or a session, in any interleaving.
  */
  lemma {:induction false} CancelIsFinal(c: Config, before: seq<Event>, after: seq<Event>)
    requires Run(c, NEW, before).cancelled
    ensures var s := Run(c, NEW, before); var n := Run(c, s, after);
      n.cancelled && |s.log| <= |n.log| && n.log[..|s.log|] == s.log
      && forall i | |s.log| <= i < |n.log| :: !Gives(n.log[i])
    decreases |after|
  {
    if after != [] {
      var s := Run(c, NEW, before);
      var m := Run(c, s, after[..|after| - 1]);
      var n := Run(c, s, after);
      CancelIsFinal(c, before, after[..|after| - 1]);
      CancelledStep(c, m, after[|after| - 1]);
      assert n.log[..|s.log|] == n.log[..|m.log|][..|s.log|];
      forall i | |s.log| <= i < |n.log| ensures !Gives(n.log[i]) {
        if i < |m.log| { assert n.log[i] == n.log[..|m.log|][i]; }
      }
    }
  }

  /** Requests of the attempt end by its deadline; others by the plain request timeout. */
  ghost predicate Timely(c: Config, s: Client) {
    && (forall t | t in s.calls && s.calls[t].bounded ::
          s.deadline.Some? && s.calls[t].end <= s.deadline.value && s.calls[t].end <= s.now + c.requestTimeout)
    && (forall t | t in s.calls :: !s.calls[t].bounded <==> Unbounded(s.calls[t].stage))
    && (s.deadline.Some? ==> s.deadline.value <= s.now + c.attemptTimeout)
  }

  lemma {:induction false} RunTimely(c: Config, s: Client, events: seq<Event>)
    requires c.Valid() && Timely(c, s)
    ensures Timely(c, Run(c, s, events)) && s.log <= Run(c, s, events).log
  {
    if events != [] {
      var before := Run(c, s, events[..|events| - 1]);
      RunTimely(c, s, events[..|events| - 1]);
      TimelyStep(c, before, events[|events| - 1]);
      LogExtends(c, before, events[|events| - 1]);
    }
  }

  /** In every run attempt-bounded requests end by the deadline and within the request timeout. */
  lemma RequestsEndByDeadline(c: Config, events: seq<Event>)
    requires c.Valid()
    ensures Timely(c, Run(c, NEW, events))
  {
    RunTimely(c, NEW, events);
  }

  predicate Unbounded(stage: Stage) {
    stage.Validating? || stage.CleaningUp? || stage.Draining?
  }

  lemma SendIsTimely(c: Config, s: Client, t: Task, stage: Stage, cleanup: bool, bounded: bool)
    requires c.Valid() && Timely(c, s) && (bounded <==> !Unbounded(stage))
    ensures Timely(c, Send(c, s, t, stage, cleanup, bounded))
    ensures Send(c, s, t, stage, cleanup, bounded).deadline == s.deadline
  {
  }

  lemma BeginIsTimely(c: Config, s: Client, t: Task, call: Call)
    requires c.Valid() && Timely(c, s)
    ensures Timely(c, BeginCall(c, s, t, call))
    ensures s.deadline.Some? ==> BeginCall(c, s, t, call).deadline == s.deadline
  {
  }

  lemma FinishIsTimely(c: Config, s: Client, t: Task, outcome: Outcome)
    requires Timely(c, s)
    ensures Timely(c, Finish(s, t, outcome))
  {
  }

  lemma DrainIsTimely(c: Config, s: Client, t: Task, stale: set<Task>, failed: bool)
    requires Timely(c, s)
    ensures Timely(c, Drain(s, t, stale, failed))
  {
  }

  lemma AnswerIsTimely(c: Config, s: Client, t: Task, stage: Stage, reply: Reply)
    requires c.Valid() && Timely(c, s)
    ensures Timely(c, AnswerCall(c, s, t, stage, reply))
    ensures AnswerCall(c, s, t, stage, reply).deadline == s.deadline
  {
    var r := AnswerCall(c, s, t, stage, reply);
    var stale := if stage.CleaningUp? then stage.stale else {};
    DrainIsTimely(c, s, t, stale, reply.Broken?);
    FinishIsTimely(c, s, t, Raised(t));
    FinishIsTimely(c, s, t, Value(t));
    FinishIsTimely(c, s.(hasTransaction := true), t, Value(t));
    if reply.Info? { FinishIsTimely(c, s, t, LoggedIn(t, reply.session)); }
    var next := if stage.Collecting? && reply.CollectState? && reply.outcome.Complete?
                then FirstInfo(reply.outcome.customers) else if stage.FirstInfo? then SelectingCustomer else SecondInfo;
    SendIsTimely(c, s, t, next, false, true);
    AnswerShape(c, s, t, stage, reply, next, stale);
  }

  /** An answered call ends, drains, or sends its next request. */
  lemma AnswerShape(c: Config, s: Client, t: Task, stage: Stage, reply: Reply, next: Stage, stale: set<Task>)
    requires stale == if stage.CleaningUp? then stage.stale else {}
    requires next == if stage.Collecting? && reply.CollectState? && reply.outcome.Complete?
                     then FirstInfo(reply.outcome.customers)
                     else if stage.FirstInfo? then SelectingCustomer else SecondInfo
    ensures var r := AnswerCall(c, s, t, stage, reply);
      || r == s
      || r == Drain(s, t, stale, reply.Broken?)
      || r == Finish(s, t, Raised(t))
      || r == Finish(s, t, Value(t))
      || r == Finish(s.(hasTransaction := true), t, Value(t))
      || (reply.Info? && r == Finish(s, t, LoggedIn(t, reply.session)))
      || r == Send(c, s, t, next, false, true)
  {
  }

  /** The attempt's deadline, once set, never moves, and the timeouts respect it. */
  lemma TimelyStep(c: Config, s: Client, e: Event)
    requires c.Valid() && Timely(c, s)
    ensures Timely(c, Step(c, s, e))
    ensures s.deadline.Some? ==> Step(c, s, e).deadline == s.deadline
  {
    match e
    case Begin(t, call) => BeginIsTimely(c, s, t, call);
    case Answer(t, reply) => if t in s.calls { AnswerIsTimely(c, s, t, s.calls[t].stage, reply); }
    case TimeOut(t) =>
      FinishIsTimely(c, s, t, Raised(t));
      if t in s.calls && s.calls[t].stage.CleaningUp? { DrainIsTimely(c, s, t, s.calls[t].stage.stale, true); }
    case Drained(t) =>
      FinishIsTimely(c, s, t, Raised(t));
      FinishIsTimely(c, s, t, Cleaned(t));
    case Close =>
    case Tick(_) =>
  }

  // ---- cleanup waits ----

  /** This cleanup is still under way. */
  predicate CleaningUpAfter(s: Client, t: Task, stale: set<Task>) {
    t in s.calls && match s.calls[t].stage {
      case CleaningUp(x) => x == stale
      case Draining(x, _) => x == stale
      case _ => false
    }
  }

  /** The call was not ended between the two histories. */
  ghost predicate NoOutcome(before: seq<Outcome>, now: seq<Outcome>, t: Task) {
    |before| <= |now| && forall i | |before| <= i < |now| :: now[i].t != t
  }

  /** One step ends a cleanup only if every call it made obsolete has ended by then. */
  lemma CleanupStep(c: Config, s: Client, e: Event, t: Task, stale: set<Task>)
    requires CleaningUpAfter(s, t, stale)
    ensures var n := Step(c, s, e);
            || (CleaningUpAfter(n, t, stale) && NoOutcome(s.log, n.log, t))
            || stale !! n.calls.Keys
  {
  }

  /** A cancel that takes effect, or a logout, made every call in flight obsolete and is under way or over. */
  lemma CleanupBegins(c: Config, s: Client, t: Task, call: Call)
    requires c.Valid() && t !in s.calls && !s.closed
    requires call.Logout? || (call.Cancel? && !s.cancelled)
    ensures var n := Step(c, s, Begin(t, call));
            || (CleaningUpAfter(n, t, InRequest(s)) && n.log == s.log)
            || InRequest(s) == {}
  {
  }

  lemma NoOutcomeJoins(x: seq<Outcome>, y: seq<Outcome>, z: seq<Outcome>, t: Task)
    requires NoOutcome(x, y, t) && NoOutcome(y, z, t) && y <= z
    ensures NoOutcome(x, z, t)
  {
    forall i | |x| <= i < |z| ensures z[i].t != t {
      if i < |y| { assert z[i] == y[i]; }
    }
  }

  lemma LogExtends(c: Config, s: Client, e: Event)
    ensures s.log <= Step(c, s, e).log
  {
  }

  /** None of these calls is pending. */
  predicate AllEnded(s: Client, stale: set<Task>) {
    stale !! s.calls.Keys
  }

  /** The cleanup is still under way and its outcome has not been observed. */
  ghost predicate StillCleaning(s: Client, since: seq<Outcome>, t: Task, stale: set<Task>) {
    CleaningUpAfter(s, t, stale) && NoOutcome(since, s.log, t)
  }

  /** At some moment of the run none of these calls was pending. */
  ghost predicate EndedMeanwhile(c: Config, begun: Client, after: seq<Event>, stale: set<Task>) {
    exists k | 0 <= k <= |after| :: AllEnded(Run(c, begun, after[..k]), stale)
  }

  lemma StillCleaningStep(c: Config, s: Client, e: Event, since: seq<Outcome>, t: Task, stale: set<Task>)
    requires StillCleaning(s, since, t, stale)
    ensures StillCleaning(Step(c, s, e), since, t, stale) || AllEnded(Step(c, s, e), stale)
  {
    CleanupStep(c, s, e, t, stale);
    LogExtends(c, s, e);
    if NoOutcome(s.log, Step(c, s, e).log, t) { NoOutcomeJoins(since, s.log, Step(c, s, e).log, t); }
  }

  lemma EndedLater(c: Config, begun: Client, after: seq<Event>, stale: set<Task>)
    requires after != [] && EndedMeanwhile(c, begun, after[..|after| - 1], stale)
    ensures EndedMeanwhile(c, begun, after, stale)
  {
    var prior := after[..|after| - 1];
    var k :| 0 <= k <= |prior| && AllEnded(Run(c, begun, prior[..k]), stale);
    assert prior[..k] == after[..k];
  }

  /**
  A cancel that takes effect, or a logout, does not return or raise while a call that was
  in flight at its start is pending: in every run, when its outcome has been observed
  there was a moment since its start at which all of those calls had ended.
  */
  lemma {:induction false} CleanupOutlastsStale(c: Config, s: Client, t: Task, call: Call, begun: Client, after: seq<Event>)
    requires c.Valid() && t !in s.calls && !s.closed && begun == Step(c, s, Begin(t, call))
    requires call.Logout? || (call.Cancel? && !s.cancelled)
    ensures StillCleaning(Run(c, begun, after), s.log, t, InRequest(s)) || EndedMeanwhile(c, begun, after, InRequest(s))
    decreases |after|
  {
    hide Step, CleaningUpAfter, NoOutcome, InRequest, StillCleaning, AllEnded;
    if after == [] {
      CleanupIsOn(c, s, t, call);
      assert after[..0] == after;
    } else {
      var m := Run(c, begun, after[..|after| - 1]);
      CleanupOutlastsStale(c, s, t, call, begun, after[..|after| - 1]);
      if EndedMeanwhile(c, begun, after[..|after| - 1], InRequest(s)) {
        EndedLater(c, begun, after, InRequest(s));
      } else {
        StillCleaningStep(c, m, after[|after| - 1], s.log, t, InRequest(s));
        assert after[..|after|] == after;
      }
    }
  }

  lemma CleanupIsOn(c: Config, s: Client, t: Task, call: Call)
    requires c.Valid() && t !in s.calls && !s.closed
    requires call.Logout? || (call.Cancel? && !s.cancelled)
    ensures var n := Step(c, s, Begin(t, call));
            StillCleaning(n, s.log, t, InRequest(s)) || AllEnded(n, InRequest(s))
  {
    CleanupBegins(c, s, t, call);
  }

  // ---- the object ----

  class BankIDClient {
    const config: Config
    var now: real
    var deadline: Option<real>
    var hasTransaction: bool
    var cancelled: bool
    var closed: bool
    var calls: map<Task, Pending>
    var log: seq<Outcome>

    ghost function View(): Client
      reads this
    {
      Client(now, deadline, hasTransaction, cancelled, closed, calls, log)
    }

    constructor (config: Config)
      requires config.Valid()
      ensures this.config == config && View() == NEW
    {
      this.config := config;
      now, deadline, hasTransaction, cancelled, closed := 0.0, None, false, false, false;
      calls, log := map[], [];
    }

    method End(t: Task, outcome: Outcome)
      modifies this`calls, this`log
      ensures View() == Finish(old(View()), t, outcome)
    {
      calls := calls - {t};
      log := log + [outcome];
    }

    method Request(t: Task, stage: Stage, cleanup: bool, bounded: bool)
      modifies this`calls, this`log
      ensures View() == Send(config, old(View()), t, stage, cleanup, bounded)
    {
      if closed || (!cleanup && cancelled) {
        End(t, Raised(t));
        return;
      }
      var timeout := config.requestTimeout;
      if bounded {
        if deadline.None? {
          End(t, Raised(t));
          return;
        }
        timeout := SmallerOf(timeout, deadline.value - now);
        if timeout <= 0.0 {
          End(t, Raised(t));
          return;
        }
      }
      calls := calls[t := Pending(stage, now + timeout, bounded)];
    }

    method AwaitStale(t: Task, stale: set<Task>, failed: bool)
      modifies this`calls, this`log
      ensures View() == Drain(old(View()), t, stale, failed)
    {
      if stale == {} {
        End(t, if failed then Raised(t) else Cleaned(t));
      } else {
        calls := calls[t := Pending(Draining(stale, failed), now, false)];
      }
    }

    method BeginOne(t: Task, call: Call)
      modifies this
      ensures View() == BeginCall(config, old(View()), t, call)
    {
      match call
      case Start =>
        if deadline.Some? || closed || cancelled {
          End(t, Raised(t));
        } else {
          deadline := Some(now + config.attemptTimeout);
          Request(t, Starting, false, true);
        }
      case Restart =>
        if closed || cancelled || !hasTransaction {
          End(t, Raised(t));
        } else {
          Request(t, Restarting, false, true);
        }
      case Collect =>
        if closed || cancelled || !hasTransaction {
          End(t, Raised(t));
        } else {
          Request(t, Collecting, false, true);
        }
      case Validate =>
        if deadline.Some? || closed || cancelled {
          End(t, Raised(t));
        } else {
          Request(t, Validating, false, false);
        }
      case Cancel =>
        if cancelled {
          End(t, Cleaned(t));
        } else if closed {
          End(t, Raised(t));
        } else {
          var stale := set u | u in calls && !calls[u].stage.Draining?;
          cancelled := true;
          if hasTransaction {
            Request(t, CleaningUp(stale), true, false);
          } else {
            AwaitStale(t, stale, false);
          }
        }
      case Logout =>
        if closed {
          End(t, Raised(t));
        } else {
          var stale := set u | u in calls && !calls[u].stage.Draining?;
          cancelled := true;
          Request(t, CleaningUp(stale), true, false);
        }
    }

    method AnswerOne(t: Task, stage: Stage, reply: Reply)
      modifies this
      ensures View() == AnswerCall(config, old(View()), t, stage, reply)
    {
      if stage.Draining? {
        return;
      }
      if stage.CleaningUp? {
        AwaitStale(t, stage.stale, reply.Broken?);
        return;
      }
      if closed || cancelled || reply.Broken? {
        End(t, Raised(t));
        return;
      }
      match stage
      case Starting =>
        if reply.Body? && reply.ok {
          hasTransaction := true;
          End(t, Value(t));
        } else {
          End(t, Raised(t));
        }
      case Restarting => End(t, if reply.Body? && reply.ok then Value(t) else Raised(t));
      case Collecting =>
        if !reply.CollectState? || reply.outcome.Unknown? {
          End(t, Raised(t));
        } else if reply.outcome.Complete? {
          Request(t, FirstInfo(reply.outcome.customers), false, true);
        } else {
          End(t, Value(t));
        }
      case FirstInfo(customers) =>
        if !reply.Info? {
          End(t, Raised(t));
        } else if reply.verified {
          End(t, LoggedIn(t, reply.session));
        } else if customers != 1 {
          End(t, Raised(t));
        } else {
          Request(t, SelectingCustomer, false, true);
        }
      case SelectingCustomer => Request(t, SecondInfo, false, true);
      case SecondInfo =>
        End(t, if reply.Info? && reply.verified then LoggedIn(t, reply.session) else Raised(t));
      case Validating =>
        if !reply.Info? {
          End(t, Raised(t));
        } else if reply.verified {
          End(t, LoggedIn(t, reply.session));
        } else {
          End(t, Value(t));
        }
      case _ =>
    }

    /** The timeout of a request fires. */
    method TimedOut(t: Task)
      modifies this`calls, this`log
      ensures View() == Step(config, old(View()), TimeOut(t))
    {
      if t in calls && !calls[t].stage.Draining? && now >= calls[t].end {
        if calls[t].stage.CleaningUp? {
          AwaitStale(t, calls[t].stage.stale, true);
        } else {
          End(t, Raised(t));
        }
      }
    }

    /** A draining cleanup finds the calls it made obsolete gone. */
    method StaleGone(t: Task)
      modifies this`calls, this`log
      ensures View() == Step(config, old(View()), Drained(t))
    {
      if t in calls && calls[t].stage.Draining? && calls[t].stage.stale !! calls.Keys {
        End(t, if calls[t].stage.failed then Raised(t) else Cleaned(t));
      }
    }

    method Handle(e: Event)
      modifies this
      ensures View() == Step(config, old(View()), e)
    {
      match e
      case Begin(t, call) =>
        if t !in calls { BeginOne(t, call); }
      case Answer(t, reply) =>
        if t in calls { AnswerOne(t, calls[t].stage, reply); }
      case TimeOut(t) => TimedOut(t);
      case Drained(t) => StaleGone(t);
      case Close => closed := true;
      case Tick(elapsed) =>
        if elapsed >= 0.0 { now := now + elapsed; }
    }

    method Replay(events: seq<Event>)
      modifies this
      ensures View() == Run(config, old(View()), events)
    {
      for i := 0 to |events|
        invariant View() == Run(config, old(View()), events[..i])
      {
        assert events[..i + 1][..i] == events[..i];
        Handle(events[i]);
      }
      assert events[..|events|] == events;
    }

    /**
    A fresh client that runs `before` and `after`: if it was cancelled in between, nothing
    logged since gives a value or a session; and every bounded request ends by the deadline.
    */
    method CancelAndReplay(before: seq<Event>, after: seq<Event>) returns (wasCancelled: bool, since: nat)
      requires config.Valid() && View() == NEW
      modifies this
      ensures since <= |log|
      ensures wasCancelled ==> cancelled && forall i | since <= i < |log| :: !Gives(log[i])
      ensures forall t | t in calls && calls[t].bounded :: deadline.Some? && calls[t].end <= deadline.value
    {
      Replay(before);
      wasCancelled, since := cancelled, |log|;
      RequestsEndByDeadline(config, before);
      if wasCancelled { CancelIsFinal(config, before, after); }
      RunTimely(config, View(), after);
      Replay(after);
    }
  }
}
