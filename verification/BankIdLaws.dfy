/**
Where sessions come from in a BankID attempt and how long its requests may take: a
session is handed out exactly for an answer that shows a verified customer, and every
request ends with its own timeout or with the attempt, whichever comes first.
*/
module BankIdLaws {
  import opened Wrappers
  import opened BankId

  // ---- sessions ----

  /** A call that is asking who is logged in, while nobody cancelled or closed the attempt. */
  predicate Asking(s: Client, t: Task) {
    && !s.cancelled && !s.closed && t in s.calls
    && (s.calls[t].stage.FirstInfo? || s.calls[t].stage.SecondInfo? || s.calls[t].stage.Validating?)
  }

  /** A session is handed out exactly for an answer with a verified customer to a call that asks for it. */
  lemma VerifiedIff(c: Config, s: Client, e: Event, t: Task, v: Session)
    ensures Step(c, s, e).log == s.log + [LoggedIn(t, v)] <==> e == Answer(t, Info(true, v)) && Asking(s, t)
    ensures Step(c, s, e).log == s.log || |Step(c, s, e).log| == |s.log| + 1
    ensures s.log <= Step(c, s, e).log
  {
    LogGrows(c, s, e);
    if Step(c, s, e).log == s.log + [LoggedIn(t, v)] {
      assert Step(c, s, e).log[|s.log|] == LoggedIn(t, v);
      OnlyVerified(c, s, e, t, v);
    }
    if e == Answer(t, Info(true, v)) && Asking(s, t) { VerifiedLogsIn(c, s, t, v); }
  }

  lemma LogGrows(c: Config, s: Client, e: Event)
    ensures Step(c, s, e).log == s.log || |Step(c, s, e).log| == |s.log| + 1
    ensures s.log <= Step(c, s, e).log
  {
  }

  lemma OnlyVerified(c: Config, s: Client, e: Event, t: Task, v: Session)
    requires |Step(c, s, e).log| == |s.log| + 1 && Step(c, s, e).log[|s.log|] == LoggedIn(t, v)
    ensures e == Answer(t, Info(true, v)) && Asking(s, t)
  {
  }

  lemma VerifiedLogsIn(c: Config, s: Client, t: Task, v: Session)
    requires Asking(s, t)
    ensures var n := Step(c, s, Answer(t, Info(true, v)));
            n.log == s.log + [LoggedIn(t, v)] && t !in n.calls && n.calls == s.calls - {t}
  {
  }

  /** The run's event `k` is the verified answer to `t`, which was asking. */
  ghost predicate AnsweredAt(c: Config, events: seq<Event>, k: nat, t: Task, v: Session) {
    k < |events| && events[k] == Answer(t, Info(true, v)) && Asking(Run(c, NEW, events[..k]), t)
  }

  /** In every run every session handed out is one that some answer showed to belong to a verified customer. */
  lemma {:induction false} SessionsAreVerified(c: Config, events: seq<Event>, i: nat, t: Task, v: Session) returns (k: nat)
    requires i < |Run(c, NEW, events).log| && Run(c, NEW, events).log[i] == LoggedIn(t, v)
    ensures AnsweredAt(c, events, k, t, v)
  {
    hide Step, Asking;
    var last := |events| - 1;
    var s, n := Run(c, NEW, events[..last]), Run(c, NEW, events);
    LogGrows(c, s, events[last]);
    if i < |s.log| {
      k := SessionsAreVerified(c, events[..last], i, t, v);
      assert events[..last][..k] == events[..k];
    } else {
      k := last;
      OnlyVerified(c, s, events[last], t, v);
    }
  }

  // ---- timeouts ----

  /** A request of the attempt, as opposed to a validation or a cleanup. */
  predicate OfAttempt(stage: Stage) {
    stage.Starting? || stage.Restarting? || stage.Collecting? || stage.FirstInfo? || stage.SelectingCustomer? || stage.SecondInfo?
  }

  /** The event sends a request of call `t`. */
  predicate Sends(s: Client, n: Client, t: Task) {
    && t in n.calls && !n.calls[t].stage.Draining?
    && (t !in s.calls || n.calls[t].stage != s.calls[t].stage)
  }

  /** The request may take `limit` from now, or until the end of the attempt if that is sooner. */
  predicate EndsInTime(n: Client, t: Task, limit: real)
    requires t in n.calls
  {
    var p := n.calls[t];
    if OfAttempt(p.stage) then
      && n.deadline.Some? && p.end > n.now
      && p.end <= n.now + limit && p.end <= n.deadline.value
      && (p.end == n.now + limit || p.end == n.deadline.value)
    else p.end == n.now + limit
  }

  lemma SendTimes(c: Config, s: Client, t: Task, stage: Stage, cleanup: bool, bounded: bool)
    requires bounded <==> OfAttempt(stage)
    ensures var n := Send(c, s, t, stage, cleanup, bounded);
            && n.now == s.now && n.deadline == s.deadline
            && (t in n.calls ==> n.calls[t].stage == stage && EndsInTime(n, t, c.requestTimeout))
            && forall u | u != t :: (u in n.calls <==> u in s.calls) && (u in s.calls ==> n.calls[u] == s.calls[u])
  {
  }

  lemma BeginSends(c: Config, s: Client, u: Task, call: Call, t: Task)
    requires u !in s.calls && Sends(s, BeginCall(c, s, u, call), t)
    ensures EndsInTime(BeginCall(c, s, u, call), t, c.requestTimeout)
  {
    hide Send, EndsInTime;
    match call
    case Start => SendTimes(c, s.(deadline := Some(s.now + c.attemptTimeout)), u, Starting, false, true);
    case Restart => SendTimes(c, s, u, Restarting, false, true);
    case Collect => SendTimes(c, s, u, Collecting, false, true);
    case Validate => SendTimes(c, s, u, Validating, false, false);
    case Cancel => SendTimes(c, s.(cancelled := true), u, CleaningUp(InRequest(s)), true, false);
    case Logout => SendTimes(c, s.(cancelled := true), u, CleaningUp(InRequest(s)), true, false);
  }

  lemma AnswerSends(c: Config, s: Client, u: Task, reply: Reply, t: Task)
    requires u in s.calls && Sends(s, AnswerCall(c, s, u, s.calls[u].stage, reply), t)
    ensures EndsInTime(AnswerCall(c, s, u, s.calls[u].stage, reply), t, c.requestTimeout)
  {
    hide Send, EndsInTime;
    if reply.CollectState? && reply.outcome.Complete? {
      SendTimes(c, s, u, FirstInfo(reply.outcome.customers), false, true);
    }
    SendTimes(c, s, u, SelectingCustomer, false, true);
    SendTimes(c, s, u, SecondInfo, false, true);
  }

  /** Every request is sent with its own timeout or what is left of the attempt, whichever ends first. */
  lemma RequestsEndInTime(c: Config, s: Client, e: Event, t: Task)
    requires Sends(s, Step(c, s, e), t)
    ensures EndsInTime(Step(c, s, e), t, c.requestTimeout)
  {
    hide BeginCall, AnswerCall, EndsInTime;
    if e.Begin? && e.t !in s.calls {
      BeginSends(c, s, e.t, e.call, t);
    } else if e.Answer? && e.t in s.calls {
      AnswerSends(c, s, e.t, e.reply, t);
    }
  }

  /** A timeout fires when the request's time is over and not before; it raises, or lets a cleanup go on. */
  lemma TimeoutFires(c: Config, s: Client, t: Task)
    requires t in s.calls && !s.calls[t].stage.Draining? && !s.calls[t].stage.CleaningUp?
    ensures Step(c, s, TimeOut(t)) == if s.now < s.calls[t].end then s
                                      else s.(calls := s.calls - {t}, log := s.log + [Raised(t)])
  {
  }

  // ---- cleanups ----

  /** A cleanup makes obsolete exactly the calls whose requests are in flight, and tells the upstream if there is a transaction. */
  lemma CleanupNamesInFlight(c: Config, s: Client, t: Task, call: Call)
    requires c.Valid() && t !in s.calls && !s.closed && (call == Logout || (call == Cancel && !s.cancelled))
    ensures forall u :: u in InRequest(s) <==> u in s.calls && !s.calls[u].stage.Draining?
    ensures var n := Step(c, s, Begin(t, call));
            && n.cancelled
            && (call == Logout || s.hasTransaction ==> t in n.calls && n.calls[t].stage == CleaningUp(InRequest(s)))
            && (call == Cancel && !s.hasTransaction && InRequest(s) != {} ==>
                  t in n.calls && n.calls[t].stage == Draining(InRequest(s), false))
            && (call == Cancel && !s.hasTransaction && InRequest(s) == {} ==> n.log == s.log + [Cleaned(t)])
  {
  }

  // ---- whole flows ----

  lemma RunNothing(c: Config, s: Client)
    ensures Run(c, s, []) == s
  {
  }

  lemma OneMoreEvent(c: Config, start: Client, events: seq<Event>, s: Client, e: Event)
    returns (longer: seq<Event>, n: Client)
    requires Run(c, start, events) == s
    ensures longer == events + [e] && n == Step(c, s, e) && Run(c, start, longer) == n
  {
    longer, n := events + [e], Step(c, s, e);
    assert longer[..|events|] == events;
  }

  /** A started attempt: the transaction is there and the attempt ends after its timeout. */
  lemma AttemptStarts(c: Config, s: Client) returns (events: seq<Event>, n: Client)
    requires c.Valid() && s.deadline.None? && !s.closed && !s.cancelled && s.calls == map[]
    ensures events == [Begin(1, Start), Answer(1, Body(true))] && n == Run(c, s, events)
    ensures n == s.(deadline := Some(s.now + c.attemptTimeout), hasTransaction := true, log := s.log + [Value(1)])
  {
    hide Run;
    RunNothing(c, s);
    events, n := OneMoreEvent(c, s, [], s, Begin(1, Start));
    events, n := OneMoreEvent(c, s, events, n, Answer(1, Body(true)));
    assert n.calls == map[];
  }

  /** A poll that finds the order complete for a single customer. */
  lemma PollCompletes(c: Config, start: Client, before: seq<Event>, s: Client) returns (events: seq<Event>, n: Client)
    requires c.Valid() && s == Run(c, start, before)
    requires s.calls == map[] && s.hasTransaction && !s.closed && !s.cancelled && s.deadline.Some? && s.now < s.deadline.value
    ensures events == before + [Begin(2, Collect), Answer(2, CollectState(Complete(1)))] && n == Run(c, start, events)
    ensures n == s.(calls := n.calls) && n.calls.Keys == {2} && n.calls[2].stage == FirstInfo(1)
  {
    hide Run;
    events, n := OneMoreEvent(c, start, before, s, Begin(2, Collect));
    events, n := OneMoreEvent(c, start, events, n, Answer(2, CollectState(Complete(1))));
  }

  /** Selecting the single customer of an order whose first answer showed nobody verified. */
  lemma CustomerIsSelected(c: Config, start: Client, before: seq<Event>, s: Client, any: Session, ok: bool)
    returns (events: seq<Event>, n: Client)
    requires c.Valid() && s == Run(c, start, before)
    requires s.calls.Keys == {2} && s.calls[2].stage == FirstInfo(1)
    requires !s.closed && !s.cancelled && s.deadline.Some? && s.now < s.deadline.value
    ensures events == before + [Answer(2, Info(false, any)), Answer(2, Body(ok))] && n == Run(c, start, events)
    ensures n == s.(calls := n.calls) && n.calls.Keys == {2} && n.calls[2].stage == SecondInfo
  {
    hide Run;
    events, n := OneMoreEvent(c, start, before, s, Answer(2, Info(false, any)));
    events, n := OneMoreEvent(c, start, events, n, Answer(2, Body(ok)));
  }

  /**
  A whole login: a new attempt that is started, polled to completion and shown a verified
  customer, at once or after selecting the single customer, hands out that session.
  */
  lemma WholeLogin(c: Config, v: Session, selecting: bool, ok: bool) returns (events: seq<Event>, n: Client)
    requires c.Valid()
    ensures n == Run(c, NEW, events) && n.log == [Value(1), LoggedIn(2, v)] && n.calls == map[]
    ensures events == [Begin(1, Start), Answer(1, Body(true)), Begin(2, Collect), Answer(2, CollectState(Complete(1)))]
                      + (if selecting then [Answer(2, Info(false, v)), Answer(2, Body(ok))] else [])
                      + [Answer(2, Info(true, v))]
  {
    hide Run, Step;
    events, n := AttemptStarts(c, NEW);
    events, n := PollCompletes(c, NEW, events, n);
    if selecting {
      events, n := CustomerIsSelected(c, NEW, events, n, v, ok);
    }
    VerifiedLogsIn(c, n, 2, v);
    var asked := n;
    events, n := OneMoreEvent(c, NEW, events, n, Answer(2, Info(true, v)));
    assert n.calls.Keys == asked.calls.Keys - {2};
  }

  /** A whole cancel or logout of a started attempt at rest: the upstream is told, and the caller is told it is cleaned. */
  lemma WholeCancel(c: Config, s: Client, call: Call, reply: Reply) returns (events: seq<Event>, n: Client)
    requires c.Valid() && s.calls == map[] && s.hasTransaction && !s.closed && !s.cancelled
    requires call == Cancel || call == Logout
    ensures events == [Begin(3, call), Answer(3, reply)] && n == Run(c, s, events)
    ensures n == s.(cancelled := true, log := s.log + [if reply == Broken then Raised(3) else Cleaned(3)])
  {
    hide Run;
    RunNothing(c, s);
    events, n := OneMoreEvent(c, s, [], s, Begin(3, call));
    assert InRequest(s) == {};
    assert n.calls == map[3 := Pending(CleaningUp({}), s.now + c.requestTimeout, false)];
    events, n := OneMoreEvent(c, s, events, n, Answer(3, reply));
    assert n.calls == map[];
  }

  /** A whole validation of a client without an attempt: the session if its customer is verified, a plain value if not. */
  lemma WholeValidation(c: Config, s: Client, verified: bool, v: Session) returns (events: seq<Event>, n: Client)
    requires c.Valid() && s.calls == map[] && s.deadline.None? && !s.closed && !s.cancelled
    ensures events == [Begin(4, Validate), Answer(4, Info(verified, v))] && n == Run(c, s, events)
    ensures n == s.(log := s.log + [if verified then LoggedIn(4, v) else Value(4)])
  {
    hide Run;
    RunNothing(c, s);
    events, n := OneMoreEvent(c, s, [], s, Begin(4, Validate));
    events, n := OneMoreEvent(c, s, events, n, Answer(4, Info(verified, v)));
    assert n.calls == map[];
  }
}
