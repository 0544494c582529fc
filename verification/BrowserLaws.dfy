/**
What a run of calls leaves behind: the session, the attempt and the stored session are
read off the history, a login or restore that is answered well ends with a session, and
an eviction is undone by the next account read.
*/
module BrowserLaws {
  import opened Wrappers
  import opened Browser
  import opened BrowserProofs

  // ---- the history tells who is logged in ----

  predicate Grew(s: Auth, n: Auth) {
    |n.log| > |s.log|
  }

  /** The event ends the session without installing another one. */
  predicate Forgets(s: Auth, e: Event) {
    && e.Resume? && e.t in s.calls
    && match s.calls[e.t]
       case DisconnectWait => s.lock.None?
       case InvalidateWait => s.lock.None?
       case EvictWait => s.lock.None?
       case FinishWait(a, _, session) => s.lock.None? && s.attempt == Some(a) && session.None?
       case FinishSaving(_, _) => e.answer.Stored? && !e.answer.ok
       case _ => false
  }

  /** The event ends the current attempt. */
  predicate Drops(s: Auth, e: Event) {
    && e.Resume? && e.t in s.calls
    && match s.calls[e.t]
       case DisconnectWait => s.lock.None?
       case CancelWait => s.lock.None?
       case ApproveFailWait(a, _) => s.lock.None? && s.attempt == Some(a)
       case FinishWait(a, outcome, session) =>
         s.lock.None? && s.attempt == Some(a) && !(outcome == Connected && session.Some? && s.hasStore)
       case FinishSaving(_, _) => e.answer.Stored? && (e.answer.ok ==> e.answer.applied)
       case _ => false
  }

  /** The event removes the stored session. */
  predicate Deletes(s: Auth, e: Event) {
    || (e.LateDelete? && s.late.deletes > 0)
    || (&& e.Resume? && e.t in s.calls && e.answer.Stored? && e.answer.applied
        && (s.calls[e.t].RestoreDeleting? || s.calls[e.t].DisconnectDeleting? || s.calls[e.t].InvalidateDeleting?))
  }

  predicate LogsSave(s: Auth, n: Auth) {
    Grew(s, n) && n.log[|s.log|].Saved?
  }

  predicate LogsInstall(s: Auth, n: Auth) {
    Grew(s, n) && n.log[|n.log| - 1].Installed?
  }

  predicate LogsAttempt(s: Auth, n: Auth) {
    Grew(s, n) && n.log[|n.log| - 1].Created?
  }

  /** The session an event leaves after `was`: the one it installed, none if it ended it. */
  function SessionAfter(s: Auth, e: Event, n: Auth, was: Option<Session>): Option<Session> {
    if LogsInstall(s, n) then Some(n.log[|n.log| - 1].session) else if Forgets(s, e) then None else was
  }

  function AttemptAfter(s: Auth, e: Event, n: Auth, was: Option<AttemptId>): Option<AttemptId> {
    if LogsAttempt(s, n) then Some(n.log[|n.log| - 1].a) else if Drops(s, e) then None else was
  }

  function StoreAfter(s: Auth, e: Event, n: Auth, was: Option<Session>): Option<Session> {
    if LogsSave(s, n) then Some(n.log[|s.log|].session) else if Deletes(s, e) then None else was
  }

  /** The last installed session, unless something ended it since. */
  function SessionHistory(start: Auth, events: seq<Event>): Option<Session> {
    if events == [] then start.session
    else
      var before := events[..|events| - 1];
      SessionAfter(Run(start, before), events[|events| - 1], Run(start, events), SessionHistory(start, before))
  }

  /** The last created attempt, unless something ended it since. */
  function AttemptHistory(start: Auth, events: seq<Event>): Option<AttemptId> {
    if events == [] then start.attempt
    else
      var before := events[..|events| - 1];
      AttemptAfter(Run(start, before), events[|events| - 1], Run(start, events), AttemptHistory(start, before))
  }

  /** The last saved session, unless something deleted it since. */
  function StoreHistory(start: Auth, events: seq<Event>): Option<Session> {
    if events == [] then start.store
    else
      var before := events[..|events| - 1];
      StoreAfter(Run(start, before), events[|events| - 1], Run(start, events), StoreHistory(start, before))
  }

  /** What one event does to the session, the attempt and the store. */
  ghost predicate Tells(s: Auth, e: Event, n: Auth) {
    && n.session == SessionAfter(s, e, n, s.session)
    && n.attempt == AttemptAfter(s, e, n, s.attempt)
    && n.store == StoreAfter(s, e, n, s.store)
  }

  lemma EndRestoreFrame(s: Auth, t: Task, after: Then)
    ensures var n := EndRestore(s, t, after);
            n.session == s.session && n.attempt == s.attempt && n.store == s.store && n.log == s.log
  {
  }

  lemma RestoreTells(s: Auth, t: Task, answer: Answer)
    requires t in s.calls && InRestore(s.calls[t])
    ensures Tells(s, Resume(t, answer), RestoreSection(s, t, s.calls[t], answer))
  {
    hide EndRestore;
    match s.calls[t]
    case RestoreWait(after) => EndRestoreFrame(s, t, after);
    case RestoreLoading(after) =>
      EndRestoreFrame(s.(mode := Failed), t, after);
      EndRestoreFrame(s.(mode := Disconnected), t, after);
    case RestoreValidating(after, _) => EndRestoreFrame(s.(mode := Failed), t, after);
    case RestoreDeleting(after) =>
      if answer.Stored? {
        EndRestoreFrame(s.(store := if answer.applied then None else s.store,
                           mode := if answer.ok then Disconnected else Failed), t, after);
      }
    case RestoreSaving(after, v) => SaveTells(s, t, after, v, answer);
  }

  lemma SaveTells(s: Auth, t: Task, after: Then, v: Session, answer: Answer)
    requires t in s.calls && s.calls[t] == RestoreSaving(after, v)
    ensures Tells(s, Resume(t, answer), RestoreSection(s, t, s.calls[t], answer))
  {
    hide EndRestore;
    if answer.Stored? {
      var saved := if answer.applied then s.(store := Some(v), log := s.log + [Saved(FromStore, v)]) else s;
      EndRestoreFrame(saved.(session := Some(v), mode := Connected, log := saved.log + [Installed(FromStore, v)]), t, after);
      EndRestoreFrame(saved.(mode := Failed), t, after);
    }
  }

  lemma ApproveTells(s: Auth, t: Task, answer: Answer)
    requires t in s.calls && InApprove(s.calls[t])
    ensures Tells(s, Resume(t, answer), ApproveSection(s, t, s.calls[t], answer))
  {
  }

  lemma PollTells(s: Auth, t: Task, answer: Answer)
    requires t in s.calls && InPoll(s.calls[t])
    ensures Tells(s, Resume(t, answer), PollSection(s, t, s.calls[t], answer))
  {
    hide PollSection, Tells;
    if s.calls[t].FinishSaving? {
      SavingTells(s, t, s.calls[t].a, s.calls[t].material, answer);
    } else if s.calls[t].FinishWait? {
      FinishTells(s, t, s.calls[t].a, s.calls[t].outcome, s.calls[t].session, answer);
    } else {
      CollectingTells(s, t, answer);
    }
  }

  lemma CollectingTells(s: Auth, t: Task, answer: Answer)
    requires t in s.calls && (s.calls[t].PollWait? || s.calls[t].PollCollecting?)
    ensures Tells(s, Resume(t, answer), PollSection(s, t, s.calls[t], answer))
  {
    hide Settle;
    var n := PollSection(s, t, s.calls[t], answer);
    assert n.log == s.log && n.session == s.session && n.attempt == s.attempt && n.store == s.store;
  }

  lemma FinishTells(s: Auth, t: Task, a: AttemptId, outcome: AuthState, session: Option<Session>, answer: Answer)
    requires t in s.calls && s.calls[t] == FinishWait(a, outcome, session)
    ensures Tells(s, Resume(t, answer), PollSection(s, t, s.calls[t], answer))
  {
    var n := PollSection(s, t, s.calls[t], answer);
    assert n.store == s.store && !LogsSave(s, n) && !LogsAttempt(s, n);
  }

  lemma SavingTells(s: Auth, t: Task, a: AttemptId, v: Session, answer: Answer)
    requires t in s.calls && s.calls[t] == FinishSaving(a, v)
    ensures Tells(s, Resume(t, answer), PollSection(s, t, s.calls[t], answer))
  {
    var n := PollSection(s, t, s.calls[t], answer);
    if answer == Stored(true, true) {
      assert n.log == s.log + [Saved(FromAttempt(a), v), Installed(FromAttempt(a), v)];
    } else if answer.Stored? && !answer.ok {
      assert n.log == s.log + if answer.applied then [Saved(FromAttempt(a), v)] else [];
    } else {
      assert n == s;
    }
  }

  lemma RemoveTells(s: Auth, t: Task, answer: Answer)
    requires t in s.calls && InRemove(s.calls[t])
    ensures Tells(s, Resume(t, answer), RemoveSection(s, t, s.calls[t], answer))
  {
  }

  lemma ViewTells(s: Auth, t: Task, answer: Answer)
    requires t in s.calls
    requires var p := s.calls[t]; !InRestore(p) && !InApprove(p) && !InPoll(p) && !InRemove(p)
    ensures Tells(s, Resume(t, answer), ViewSection(s, t, s.calls[t], answer))
  {
    hide ViewSection;
    ViewLogsNothing(s, t, answer);
  }

  lemma ViewLogsNothing(s: Auth, t: Task, answer: Answer)
    requires t in s.calls
    ensures var n := ViewSection(s, t, s.calls[t], answer);
            && n.log == s.log && n.session == s.session && n.store == s.store
            && n.attempt == if s.calls[t].CancelWait? && s.lock.None? then None else s.attempt
  {
  }

  lemma StepTells(s: Auth, e: Event)
    ensures Tells(s, e, Step(s, e))
  {
    if e.Resume? && e.t in s.calls {
      hide RestoreSection, ApproveSection, PollSection, RemoveSection, ViewSection, Tells;
      var p := s.calls[e.t];
      if InRestore(p) { RestoreTells(s, e.t, e.answer); }
      else if InApprove(p) { ApproveTells(s, e.t, e.answer); }
      else if InPoll(p) { PollTells(s, e.t, e.answer); }
      else if InRemove(p) { RemoveTells(s, e.t, e.answer); }
      else { ViewTells(s, e.t, e.answer); }
    }
  }

  /**
  After every run the session is the last installed one unless a disconnect, an
  invalidation, an eviction, a failed save or an unsuccessful attempt ended it since; the
  attempt is the last created one unless it was settled, cancelled or disconnected since;
  and the store holds the last save unless it was deleted since.
  */
  lemma {:induction false} HistoryTells(start: Auth, events: seq<Event>)
    ensures Run(start, events).session == SessionHistory(start, events)
    ensures Run(start, events).attempt == AttemptHistory(start, events)
    ensures Run(start, events).store == StoreHistory(start, events)
  {
    if events != [] {
      hide Step, SessionAfter, AttemptAfter, StoreAfter;
      HistoryTells(start, events[..|events| - 1]);
      StepTells(Run(start, events[..|events| - 1]), events[|events| - 1]);
    }
  }

  // ---- a login that is answered well ends with a session ----

  /** The event runs or cancels the call `t`. */
  predicate Names(e: Event, t: Task) {
    (e.Begin? || e.Resume? || e.Abort?) && e.t == t
  }

  /** The events run or cancel other calls only, in any order, or land late writes. */
  predicate Others(events: seq<Event>, t: Task) {
    forall i | 0 <= i < |events| :: !Names(events[i], t)
  }

  /** The call `t` is where it was. */
  predicate Waits(s: Auth, n: Auth, t: Task) {
    && n.hasStore == s.hasStore && (t in n.calls <==> t in s.calls)
    && (t in s.calls ==> n.calls[t] == s.calls[t])
  }

  lemma EndingKeepsOthers(s: Auth, u: Task, after: Then, t: Task)
    requires t != u
    ensures Waits(s, End(s, u), t) && Waits(s, EndRestore(s, u, after), t)
  {
  }

  lemma RestoreSectionKeepsOthers(s: Auth, u: Task, p: Point, answer: Answer, t: Task)
    requires t != u
    ensures Waits(s, RestoreSection(s, u, p, answer), t)
  {
    hide EndRestore;
    forall n: Auth, after | n.hasStore == s.hasStore && n.calls == s.calls ensures Waits(s, EndRestore(n, u, after), t) {
      EndingKeepsOthers(n, u, after, t);
    }
  }

  lemma ApproveSectionKeepsOthers(s: Auth, u: Task, p: Point, answer: Answer, t: Task)
    requires t != u
    ensures Waits(s, ApproveSection(s, u, p, answer), t)
  {
  }

  lemma PollSectionKeepsOthers(s: Auth, u: Task, p: Point, answer: Answer, t: Task)
    requires t != u
    ensures Waits(s, PollSection(s, u, p, answer), t)
  {
  }

  lemma RemoveSectionKeepsOthers(s: Auth, u: Task, p: Point, answer: Answer, t: Task)
    requires t != u
    ensures Waits(s, RemoveSection(s, u, p, answer), t)
  {
  }

  lemma ViewSectionKeepsOthers(s: Auth, u: Task, p: Point, answer: Answer, t: Task)
    requires t != u
    ensures Waits(s, ViewSection(s, u, p, answer), t)
  {
  }

  /** Nobody else touches a suspended call. */
  lemma OthersKeepCall(s: Auth, e: Event, t: Task)
    requires !Names(e, t)
    ensures Waits(s, Step(s, e), t)
  {
    hide RestoreSection, ApproveSection, PollSection, RemoveSection, ViewSection;
    if e.Resume? && e.t in s.calls {
      RestoreSectionKeepsOthers(s, e.t, s.calls[e.t], e.answer, t);
      ApproveSectionKeepsOthers(s, e.t, s.calls[e.t], e.answer, t);
      PollSectionKeepsOthers(s, e.t, s.calls[e.t], e.answer, t);
      RemoveSectionKeepsOthers(s, e.t, s.calls[e.t], e.answer, t);
      ViewSectionKeepsOthers(s, e.t, s.calls[e.t], e.answer, t);
    }
  }

  lemma {:induction false} OthersKeepCalls(s: Auth, events: seq<Event>, t: Task)
    requires Others(events, t) && t in s.calls
    ensures t in Run(s, events).calls && Run(s, events).calls[t] == s.calls[t]
    ensures Run(s, events).hasStore == s.hasStore
  {
    if events != [] {
      hide Step;
      OthersKeepCalls(s, events[..|events| - 1], t);
      OthersKeepCall(Run(s, events[..|events| - 1]), events[|events| - 1], t);
    }
  }

  /** `v` is installed for the attempt, and saved when there is a store. */
  ghost predicate LoggedIn(n: Auth, v: Session) {
    && n.session == Some(v) && n.mode == Connected && n.attempt == None
    && (n.hasStore ==> n.store == Some(v))
  }

  /** A session collected for an attempt that is still current when the lock is free is installed, or goes to the store first. */
  lemma CollectedIsFinished(s: Auth, t: Task, a: AttemptId, v: Session)
    requires t in s.calls && s.calls[t] == FinishWait(a, Connected, Some(v))
    requires s.lock.None? && s.attempt == Some(a)
    ensures var n := Step(s, Resume(t, Go));
            && n.hasStore == s.hasStore && n.late == s.late
            && (if s.hasStore then t in n.calls && n.calls[t] == FinishSaving(a, v) && n.log == s.log
                else LoggedIn(n, v) && t !in n.calls && n.log == s.log + [Installed(FromAttempt(a), v)])
  {
  }

  /** A saved session is installed; a failed save leaves no session. */
  lemma SavedIsInstalled(s: Auth, t: Task, a: AttemptId, v: Session, answer: Answer)
    requires Inv(s) && t in s.calls && s.calls[t] == FinishSaving(a, v)
    requires answer == Stored(true, true) || answer == Stored(true, false) || answer == Stored(false, false)
    ensures var n := Step(s, Resume(t, answer));
            && n.hasStore && n.attempt == None && t !in n.calls && n.lock == None
            && (if answer == Stored(true, true)
                then LoggedIn(n, v) && n.log == s.log + [Saved(FromAttempt(a), v), Installed(FromAttempt(a), v)]
                else n.session == None && n.mode == Failed && n.store == if answer.applied then Some(v) else s.store)
  {
  }

  /**
  A login completes.  In any run, let a poll collect a session for an attempt, and let
  other calls run in between as they like: if the attempt is still current when the poll
  gets the lock and the save, if there is a store, succeeds, the session is installed,
  the attempt is over, the state is connected and the store holds that session.
  */
  lemma LoginCompletes(hasStore: bool, stored: Option<Session>, before: seq<Event>, t: Task, a: AttemptId, v: Session,
                       between: seq<Event>, saving: seq<Event>, waiting: Auth, done: Auth)
    requires Others(between, t) && Others(saving, t)
    requires var s := Run(Initial(hasStore, stored), before); t in s.calls && s.calls[t] == PollCollecting(a)
    requires waiting == Run(Step(Run(Initial(hasStore, stored), before), Resume(t, Collected(Connected, Some(v)))), between)
    requires waiting.lock.None? && waiting.attempt == Some(a)
    requires var n := Step(waiting, Resume(t, Go));
             done == if hasStore then Step(Run(n, saving), Resume(t, Stored(true, true))) else n
    ensures done.session == Some(v) && done.attempt == None && done.mode == Connected
    ensures hasStore ==> done.store == Some(v)
  {
    var s := Run(Initial(hasStore, stored), before);
    RunKeepsStore(Initial(hasStore, stored), before);
    RunKeepsInv(Initial(hasStore, stored), before);
    var collected := Step(s, Resume(t, Collected(Connected, Some(v))));
    assert collected == Move(s, t, FinishWait(a, Connected, Some(v)));
    FinishLogin(s, collected, t, a, v, between, saving, waiting, done);
  }

  lemma FinishLogin(s: Auth, collected: Auth, t: Task, a: AttemptId, v: Session, between: seq<Event>, saving: seq<Event>,
                    waiting: Auth, done: Auth)
    requires Inv(s) && collected == Step(s, Resume(t, Collected(Connected, Some(v)))) && collected.hasStore == s.hasStore
    requires t in collected.calls && collected.calls[t] == FinishWait(a, Connected, Some(v))
    requires Others(between, t) && Others(saving, t) && waiting == Run(collected, between)
    requires waiting.lock.None? && waiting.attempt == Some(a)
    requires var n := Step(waiting, Resume(t, Go));
             done == if s.hasStore then Step(Run(n, saving), Resume(t, Stored(true, true))) else n
    ensures LoggedIn(done, v) && done.hasStore == s.hasStore
  {
    hide Step, Inv, LoggedIn;
    StepKeepsInv(s, Resume(t, Collected(Connected, Some(v))));
    RunKeepsInv(collected, between);
    OthersKeepCalls(collected, between, t);
    CollectedIsFinished(waiting, t, a, v);
    if s.hasStore {
      var n := Step(waiting, Resume(t, Go));
      StepKeepsInv(waiting, Resume(t, Go));
      RunKeepsInv(n, saving);
      OthersKeepCalls(n, saving, t);
      SavedIsInstalled(Run(n, saving), t, a, v, Stored(true, true));
    }
  }

  /** The run leaves call `t` collecting for an attempt that is still current when it next finds the lock free. */
  predicate CollectsForCurrent(start: Auth, before: seq<Event>, t: Task, v: Session, between: seq<Event>) {
    var s := Run(start, before);
    && t in s.calls && s.calls[t].PollCollecting?
    && var waiting := Run(Step(s, Resume(t, Collected(Connected, Some(v)))), between);
       waiting.lock.None? && waiting.attempt == Some(s.calls[t].a)
  }

  lemma InitialInv(hasStore: bool, stored: Option<Session>)
    ensures Inv(Initial(hasStore, stored))
  {
  }

  lemma StepKeepsStore(s: Auth, e: Event)
    ensures Step(s, e).hasStore == s.hasStore
  {
  }

  lemma {:induction false} RunKeepsStore(s: Auth, events: seq<Event>)
    ensures Run(s, events).hasStore == s.hasStore
  {
    if events != [] {
      RunKeepsStore(s, events[..|events| - 1]);
      StepKeepsStore(Run(s, events[..|events| - 1]), events[|events| - 1]);
    }
  }

  // ---- restore ----

  /** Where a restore goes on after it is over. */
  predicate GoesOn(n: Auth, t: Task, after: Then) {
    match after
    case Return => t !in n.calls
    case ThenDisconnect => t in n.calls && n.calls[t] == DisconnectWait
    case ThenOpen(d) => t in n.calls && n.calls[t] == OpenWait(d)
    case ThenEnsure => t in n.calls && n.calls[t] == EnsureWait
  }

  /** A restore whose validated session is saved installs it; a failed save leaves the session as it was. */
  lemma RestoredIsInstalled(s: Auth, t: Task, after: Then, v: Session, answer: Answer)
    requires Inv(s) && t in s.calls && s.calls[t] == RestoreSaving(after, v)
    requires answer == Stored(true, true) || answer == Stored(true, false) || answer == Stored(false, false)
    ensures var n := Step(s, Resume(t, answer));
            && n.attempt == s.attempt && n.lock == None && GoesOn(n, t, after)
            && (if answer == Stored(true, true)
                then n.session == Some(v) && n.mode == Connected && n.store == Some(v)
                  && n.log == s.log + [Saved(FromStore, v), Installed(FromStore, v)]
                else n.session == s.session && n.mode == Failed && n.store == if answer.applied then Some(v) else s.store)
  {
  }

  lemma RestoreLooks(s: Auth, t: Task, after: Then)
    requires s.hasStore && s.lock.None? && s.session.None? && t in s.calls && s.calls[t] == RestoreWait(after)
    ensures Step(s, Resume(t, Go)) == s.(calls := s.calls[t := RestoreLoading(after)], lock := Some(t))
  {
  }

  lemma LoadedIsValidated(s: Auth, t: Task, after: Then, saved: Session)
    requires t in s.calls && s.calls[t] == RestoreLoading(after) && s.store == Some(saved)
    ensures Step(s, Resume(t, Loaded(true))) == s.(calls := s.calls[t := RestoreValidating(after, saved)], lock := Some(t))
  {
  }

  /** The loaded session is what is validated. */
  lemma RestoreLoads(s: Auth, t: Task, after: Then, saved: Session) returns (events: seq<Event>, n: Auth)
    requires s.hasStore && s.store == Some(saved) && s.lock.None? && s.session.None?
    requires t in s.calls && s.calls[t] == RestoreWait(after)
    ensures events == [Resume(t, Go), Resume(t, Loaded(true))] && n == Run(s, events)
    ensures n == s.(calls := s.calls[t := RestoreValidating(after, saved)], lock := Some(t))
  {
    hide Run, Step;
    RunNothing(s);
    RestoreLooks(s, t, after);
    events, n := OneMoreEvent(s, [], s, Resume(t, Go));
    LoadedIsValidated(n, t, after, saved);
    events, n := OneMoreEvent(s, events, n, Resume(t, Loaded(true)));
    assert n.calls == s.calls[t := RestoreValidating(after, saved)];
  }

  /**
  A whole restore.  From any reachable state with a stored session, a free lock and
  nobody logged in: a session that validates to `v` and is saved leaves `v` installed and
  stored; one that is no longer valid is deleted and nobody is logged in.
  */
  lemma RestoreCompletes(s: Auth, t: Task, after: Then, saved: Session, verdict: Option<Session>)
    returns (events: seq<Event>, n: Auth)
    requires Inv(s) && s.hasStore && s.store == Some(saved) && s.lock.None? && s.session.None?
    requires t in s.calls && s.calls[t] == RestoreWait(after)
    ensures events == [Resume(t, Go), Resume(t, Loaded(true)), Resume(t, Validated(verdict)), Resume(t, Stored(true, true))]
    ensures n == Run(s, events)
    ensures n.session == verdict && n.store == verdict && n.attempt == s.attempt && n.lock == None
    ensures n.mode == (if verdict.Some? then Connected else Disconnected) && GoesOn(n, t, after) && n.late == s.late
  {
    hide Run;
    events, n := RestoreLoads(s, t, after, saved);
    RunKeepsInv(s, events);
    StepKeepsInv(n, Resume(t, Validated(verdict)));
    var validating := n;
    events, n := OneMoreEvent(s, events, n, Resume(t, Validated(verdict)));
    if verdict.Some? {
      assert n.calls[t] == RestoreSaving(after, verdict.value);
      RestoredIsInstalled(n, t, after, verdict.value, Stored(true, true));
    } else {
      assert n.calls[t] == RestoreDeleting(after);
      InvalidIsDeleted(n, t, after);
    }
    LateStays(n, t, Stored(true, true));
    events, n := OneMoreEvent(s, events, n, Resume(t, Stored(true, true)));
  }

  /** A restore that cannot load or validate fails and changes nothing else; one that finds nothing is disconnected. */
  lemma RestoreFails(s: Auth, t: Task, after: Then, saved: Session, outcome: AuthState)
    requires t in s.calls && s.lock == Some(t)
    ensures s.calls[t] == RestoreLoading(after) ==>
              var n := Step(s, Resume(t, Loaded(false)));
              n.mode == Failed && n.session == s.session && n.store == s.store && n.lock == None && GoesOn(n, t, after)
    ensures s.calls[t] == RestoreLoading(after) && s.store == None ==>
              var n := Step(s, Resume(t, Loaded(true)));
              n.mode == Disconnected && n.session == s.session && n.store == None && n.lock == None && GoesOn(n, t, after)
    ensures s.calls[t] == RestoreValidating(after, saved) ==>
              var n := Step(s, Resume(t, Refused(outcome)));
              n.mode == Failed && n.session == s.session && n.store == s.store && n.lock == None && GoesOn(n, t, after)
  {
  }

  lemma InvalidIsDeleted(s: Auth, t: Task, after: Then)
    requires Inv(s) && t in s.calls && s.calls[t] == RestoreDeleting(after)
    ensures var n := Step(s, Resume(t, Stored(true, true)));
            && n.attempt == s.attempt && n.lock == None && GoesOn(n, t, after)
            && n.session == s.session && n.store == None && n.mode == Disconnected
  {
  }

  lemma LateStays(s: Auth, t: Task, answer: Answer)
    ensures Step(s, Resume(t, answer)).late == s.late
  {
    if t in s.calls { SectionFrame(s, t, s.calls[t], answer); }
  }

  // ---- cancelled calls ----

  /** A cancelled call leaves the lock; the store write it was waiting for stays on its way and may land at any time. */
  lemma CancelledWriteStays(s: Auth, t: Task)
    requires t in s.calls
    ensures var n := Step(s, Abort(t));
            && t !in n.calls && n.lock != Some(t) && n.session == s.session && n.attempt == s.attempt
            && n.store == s.store && n.mode == s.mode && n.log == s.log
            && n.late == match s.calls[t]
                         case RestoreSaving(_, v) => Late(s.late.saves + [(FromStore, v)], s.late.deletes)
                         case FinishSaving(a, v) => Late(s.late.saves + [(FromAttempt(a), v)], s.late.deletes)
                         case RestoreDeleting(_) => Late(s.late.saves, s.late.deletes + 1)
                         case DisconnectDeleting => Late(s.late.saves, s.late.deletes + 1)
                         case InvalidateDeleting => Late(s.late.saves, s.late.deletes + 1)
                         case _ => s.late
  {
  }

  /** A late save or delete changes the store and nothing that is in memory. */
  lemma LateWriteLands(s: Auth, i: nat)
    ensures i < |s.late.saves| ==>
              var n := Step(s, LateSave(i));
              n.store == Some(s.late.saves[i].1) && n.log == s.log + [Saved(s.late.saves[i].0, s.late.saves[i].1)]
              && n.session == s.session && n.mode == s.mode && |n.late.saves| == |s.late.saves| - 1
    ensures s.late.deletes > 0 ==>
              Step(s, LateDelete) == s.(store := None, late := Late(s.late.saves, s.late.deletes - 1))
  {
  }

  // ---- whole flows, one call after another ----

  /** No call is running. */
  predicate AtRest(s: Auth) {
    s.calls == map[] && s.lock.None?
  }

  lemma RunNothing(s: Auth)
    ensures Run(s, []) == s
  {
  }

  lemma PageListens(s: Auth, d: bool) returns (events: seq<Event>, n: Auth)
    requires AtRest(s) && s.mode != Idle && if d then s.session.Some? else s.mode != Connected
    ensures events == [Begin(1, Open(d)), Resume(1, Go)] && n == Run(s, events)
    ensures n == s.(calls := map[1 := OpenListening(d)], lock := Some(1))
  {
    hide Run, RestoreSection, ApproveSection, PollSection, RemoveSection;
    RunNothing(s);
    events, n := OneMoreEvent(s, [], s, Begin(1, Open(d)));
    assert n.calls == map[1 := OpenWait(d)];
    events, n := OneMoreEvent(s, events, n, Resume(1, Go));
    assert n.calls == map[1 := OpenListening(d)];
  }

  /** The approval page opens. */
  lemma PageOpens(s: Auth) returns (events: seq<Event>, n: Auth)
    requires AtRest(s) && s.mode != Connected && s.mode != Idle
    ensures events == [Begin(1, Open(false)), Resume(1, Go), Resume(1, Listening(true, true)), Resume(1, Opened(true))]
    ensures n == Run(s, events) && n == s.(mode := AwaitingApproval)
  {
    hide Run, RestoreSection, ApproveSection, PollSection, RemoveSection;
    events, n := PageListens(s, false);
    events, n := OneMoreEvent(s, events, n, Resume(1, Listening(true, true)));
    assert n.calls == map[1 := Opening(false)];
    events, n := OneMoreEvent(s, events, n, Resume(1, Opened(true)));
    assert n.calls == map[];
  }

  /** The approval creates an attempt and starts it. */
  lemma ApprovalStarts(start: Auth, before: seq<Event>, s: Auth) returns (events: seq<Event>, n: Auth)
    requires s == Run(start, before) && AtRest(s) && s.mode == AwaitingApproval
    ensures events == before + [Begin(2, Approve), Resume(2, Go), Resume(2, Started), Resume(2, Go)]
    ensures n == Run(start, events)
    ensures n == s.(mode := Scanning, attempt := Some(s.nextAttempt), nextAttempt := s.nextAttempt + 1,
                    log := s.log + [Created(s.nextAttempt)])
  {
    hide Run, RestoreSection, ViewSection, PollSection, RemoveSection;
    var a := s.nextAttempt;
    events, n := OneMoreEvent(start, before, s, Begin(2, Approve));
    assert n == s.(calls := map[2 := ApproveWait]);
    events, n := OneMoreEvent(start, events, n, Resume(2, Go));
    assert n.calls == map[2 := ApproveStarting(a)];
    events, n := OneMoreEvent(start, events, n, Resume(2, Started));
    assert n.calls == map[2 := ApproveScanWait(a)];
    events, n := OneMoreEvent(start, events, n, Resume(2, Go));
    assert n.calls == map[];
  }

  /** The poll asks about the current attempt and collects its session. */
  lemma PollCollects(start: Auth, before: seq<Event>, s: Auth, a: AttemptId, v: Session) returns (events: seq<Event>, n: Auth)
    requires s == Run(start, before) && AtRest(s) && s.mode == Scanning && s.attempt == Some(a)
    ensures events == before + [Begin(3, Poll), Resume(3, Go), Resume(3, Collected(Connected, Some(v)))]
    ensures n == Run(start, events) && n == s.(calls := map[3 := FinishWait(a, Connected, Some(v))])
  {
    hide Run, RestoreSection, ApproveSection, ViewSection, RemoveSection;
    events, n := OneMoreEvent(start, before, s, Begin(3, Poll));
    assert n == s.(calls := map[3 := PollWait]);
    events, n := OneMoreEvent(start, events, n, Resume(3, Go));
    assert n == s.(calls := map[3 := PollCollecting(a)]);
    events, n := OneMoreEvent(start, events, n, Resume(3, Collected(Connected, Some(v))));
    assert n.calls == map[3 := FinishWait(a, Connected, Some(v))];
  }

  lemma PollFinishes(start: Auth, before: seq<Event>, s: Auth, a: AttemptId, v: Session) returns (events: seq<Event>, n: Auth)
    requires s == Run(start, before) && Inv(s) && s.lock.None? && s.attempt == Some(a)
    requires s.calls == map[3 := FinishWait(a, Connected, Some(v))]
    ensures events == before + [Resume(3, Go)] + if s.hasStore then [Resume(3, Stored(true, true))] else []
    ensures n == Run(start, events) && LoggedIn(n, v) && n.hasStore == s.hasStore
    ensures n.log == s.log + (if s.hasStore then [Saved(FromAttempt(a), v)] else []) + [Installed(FromAttempt(a), v)]
  {
    hide LoggedIn;
    CollectedIsFinished(s, 3, a, v);
    StepKeepsInv(s, Resume(3, Go));
    events, n := OneMoreEvent(start, before, s, Resume(3, Go));
    if s.hasStore {
      SavedIsInstalled(n, 3, a, v, Stored(true, true));
      StepKeepsStore(n, Resume(3, Stored(true, true)));
      events, n := OneMoreEvent(start, events, n, Resume(3, Stored(true, true)));
    }
  }

  /**
  A whole login.  From any reachable state at rest in which nobody is connected or idle:
  opening the page, approving, polling and saving leave the collected session installed
  and stored, and the history is one attempt, its save and its installation.
  */
  lemma WholeLogin(s: Auth, v: Session) returns (events: seq<Event>, n: Auth)
    requires Inv(s) && AtRest(s) && s.mode != Connected && s.mode != Idle
    ensures n == Run(s, events)
    ensures n.session == Some(v) && n.mode == Connected && n.attempt == None
    ensures s.hasStore ==> n.store == Some(v)
    ensures n.log == s.log + [Created(s.nextAttempt)]
                   + (if s.hasStore then [Saved(FromAttempt(s.nextAttempt), v)] else [])
                   + [Installed(FromAttempt(s.nextAttempt), v)]
  {
    hide Inv;
    events, n := PageOpens(s);
    events, n := ApprovalStarts(s, events, n);
    events, n := PollCollects(s, events, n, s.nextAttempt, v);
    RunKeepsInv(s, events);
    events, n := PollFinishes(s, events, n, s.nextAttempt, v);
  }

  /** An idle session leaves memory only. */
  lemma IdleSessionIsEvicted(s: Auth) returns (events: seq<Event>, n: Auth)
    requires AtRest(s) && s.session.Some?
    ensures events == [Begin(1, IdleTimeout), Resume(1, Go), Resume(1, Go)] && n == Run(s, events)
    ensures n == s.(session := None, mode := Idle)
  {
    hide Run, RestoreSection, ApproveSection, PollSection, ViewSection;
    RunNothing(s);
    events, n := OneMoreEvent(s, [], s, Begin(1, IdleTimeout));
    assert n == s.(calls := map[1 := EvictWait]);
    events, n := OneMoreEvent(s, events, n, Resume(1, Go));
    assert n == s.(calls := map[1 := EvictClearing], lock := Some(1), session := None, mode := Idle);
    events, n := OneMoreEvent(s, events, n, Resume(1, Go));
    assert n.calls == map[];
  }

  lemma {:induction false} RunJoins(s: Auth, first: seq<Event>, second: seq<Event>)
    ensures Run(s, first + second) == Run(Run(s, first), second)
  {
    hide Step;
    if second == [] {
      assert first + second == first;
    } else {
      var last := |second| - 1;
      RunJoins(s, first, second[..last]);
      assert first + second == (first + second[..last]) + [second[last]];
      RunSnoc(s, first + second[..last], second[last]);
    }
  }

  /**
  An eviction is undone: after the idle timer took the session out of memory, the next
  account read restores what is stored and leaves the validated session installed.
  */
  lemma EvictionIsUndone(s: Auth, saved: Session, v: Session) returns (events: seq<Event>, evicted: Auth, n: Auth)
    requires Inv(s) && AtRest(s) && s.session.Some? && s.hasStore && s.store == Some(saved)
    ensures evicted == Run(s, [Begin(1, IdleTimeout), Resume(1, Go), Resume(1, Go)])
    ensures evicted.session == None && evicted.mode == Idle && evicted.store == Some(saved)
    ensures events == [Begin(2, Ensure), Resume(2, Go), Resume(2, Loaded(true)), Resume(2, Validated(Some(v))),
                       Resume(2, Stored(true, true)), Resume(2, Go)]
    ensures n == Run(evicted, events)
    ensures n.session == Some(v) && n.store == Some(v) && n.mode == Connected
  {
    hide Run, Inv;
    RunNothing(s);
    var first;
    first, evicted := IdleSessionIsEvicted(s);
    RunKeepsInv(s, first);
    RunNothing(evicted);
    events, n := OneMoreEvent(evicted, [], evicted, Begin(2, Ensure));
    StepKeepsInv(evicted, Begin(2, Ensure));
    assert n == evicted.(calls := map[2 := RestoreWait(ThenEnsure)]);
    var begun := n;
    var rest;
    rest, n := RestoreCompletes(begun, 2, ThenEnsure, saved, Some(v));
    RunJoins(evicted, events, rest);
    var restored := n;
    events, n := OneMoreEvent(evicted, events + rest, restored, Resume(2, Go));
    EnsureEnds(restored, 2);
  }

  /** A whole restore of a state at rest in which nobody is logged in. */
  lemma WholeRestore(s: Auth, saved: Session, verdict: Option<Session>) returns (events: seq<Event>, n: Auth)
    requires Inv(s) && AtRest(s) && s.hasStore && s.store == Some(saved) && s.session.None?
    ensures events == [Begin(2, Restore), Resume(2, Go), Resume(2, Loaded(true)), Resume(2, Validated(verdict)),
                       Resume(2, Stored(true, true))]
    ensures n == Run(s, events)
    ensures n.session == verdict && n.store == verdict && n.mode == (if verdict.Some? then Connected else Disconnected)
    ensures n.lock == None && 2 !in n.calls
  {
    hide Run, Inv;
    RunNothing(s);
    var begun, rest;
    events, begun := OneMoreEvent(s, [], s, Begin(2, Restore));
    StepKeepsInv(s, Begin(2, Restore));
    assert begun == s.(calls := map[2 := RestoreWait(Return)]);
    rest, n := RestoreCompletes(begun, 2, Return, saved, verdict);
    RunJoins(s, events, rest);
    events := events + rest;
  }

  /** A disconnect of an idle process first restores what is stored, and then goes on to disconnect. */
  lemma IdleDisconnectRestoresFirst(s: Auth, saved: Session, v: Session) returns (events: seq<Event>, n: Auth)
    requires Inv(s) && AtRest(s) && s.mode == Idle && s.hasStore && s.store == Some(saved) && s.session.None?
    ensures events == [Begin(2, Disconnect), Resume(2, Go), Resume(2, Loaded(true)), Resume(2, Validated(Some(v))),
                       Resume(2, Stored(true, true))]
    ensures n == Run(s, events) && n.session == Some(v) && n.lock == None
    ensures 2 in n.calls && n.calls[2] == DisconnectWait
  {
    hide Run, Inv;
    RunNothing(s);
    var begun, rest;
    events, begun := OneMoreEvent(s, [], s, Begin(2, Disconnect));
    StepKeepsInv(s, Begin(2, Disconnect));
    assert begun == s.(calls := map[2 := RestoreWait(ThenDisconnect)]);
    rest, n := RestoreCompletes(begun, 2, ThenDisconnect, saved, Some(v));
    RunJoins(s, events, rest);
    events := events + rest;
  }

  /** When the time of the current attempt is over the attempt ends without a session; an old timer changes nothing. */
  lemma AttemptTimesOut(s: Auth, a: AttemptId) returns (events: seq<Event>, n: Auth)
    requires AtRest(s) && a < s.nextAttempt
    ensures events == [Begin(1, AttemptTimeout(a)), Resume(1, Go)] && n == Run(s, events)
    ensures n == if s.attempt == Some(a) then s.(attempt := None, session := None, mode := TimedOut) else s
  {
    hide Run, RestoreSection, ApproveSection, RemoveSection, ViewSection;
    RunNothing(s);
    events, n := OneMoreEvent(s, [], s, Begin(1, AttemptTimeout(a)));
    assert n.calls == map[1 := FinishWait(a, TimedOut, None)];
    events, n := OneMoreEvent(s, events, n, Resume(1, Go));
    assert n.calls == map[];
  }

  lemma EnsureEnds(s: Auth, t: Task)
    requires t in s.calls && s.calls[t] == EnsureWait && s.lock.None? && s.session.Some?
    ensures var n := Step(s, Resume(t, Go)); n.session == s.session && n.store == s.store && n.mode == Connected
  {
  }

  /** A disconnect forgets the session and the attempt; a delete that fails leaves the store and says so. */
  lemma WholeDisconnection(s: Auth, done: bool) returns (events: seq<Event>, n: Auth)
    requires AtRest(s) && s.hasStore && s.mode != Idle
    ensures events == [Begin(1, Disconnect), Resume(1, Go), Resume(1, Stored(done, done))] && n == Run(s, events)
    ensures n == s.(session := None, attempt := None, store := if done then None else s.store,
                    mode := if done then Disconnected else Failed, log := s.log + [DisconnectDone(done)])
  {
    hide Run, RestoreSection, ApproveSection, PollSection, ViewSection;
    RunNothing(s);
    events, n := OneMoreEvent(s, [], s, Begin(1, Disconnect));
    assert n.calls == map[1 := DisconnectWait];
    events, n := OneMoreEvent(s, events, n, Resume(1, Go));
    assert n.calls == map[1 := DisconnectDeleting];
    events, n := OneMoreEvent(s, events, n, Resume(1, Stored(done, done)));
    assert n.calls == map[];
  }

  /** An invalidation forgets the session and the stored one, and keeps a running attempt. */
  lemma WholeInvalidation(s: Auth, done: bool) returns (events: seq<Event>, n: Auth)
    requires AtRest(s) && s.hasStore
    ensures events == [Begin(1, Invalidate), Resume(1, Go), Resume(1, Stored(done, done))] && n == Run(s, events)
    ensures n == s.(session := None, store := if done then None else s.store, mode := if done then Disconnected else Failed)
  {
    hide Run, RestoreSection, ApproveSection, PollSection, ViewSection;
    RunNothing(s);
    events, n := OneMoreEvent(s, [], s, Begin(1, Invalidate));
    assert n.calls == map[1 := InvalidateWait];
    events, n := OneMoreEvent(s, events, n, Resume(1, Go));
    assert n.calls == map[1 := InvalidateDeleting];
    events, n := OneMoreEvent(s, events, n, Resume(1, Stored(done, done)));
    assert n.calls == map[];
  }

  lemma DisconnectPageOpening(s: Auth) returns (events: seq<Event>, n: Auth)
    requires AtRest(s) && s.session.Some? && s.mode != Idle
    ensures events == [Begin(1, Open(true)), Resume(1, Go), Resume(1, Listening(true, true))]
    ensures n == Run(s, events) && n == s.(mode := AwaitingDisconnect, calls := map[1 := Opening(true)])
  {
    hide Run, RestoreSection, ApproveSection, PollSection, RemoveSection;
    events, n := PageListens(s, true);
    events, n := OneMoreEvent(s, events, n, Resume(1, Listening(true, true)));
    assert n.calls == map[1 := Opening(true)];
  }

  /** The disconnect page needs a session; when it does not open, the session is shown as connected again. */
  lemma DisconnectPage(s: Auth, ok: bool) returns (events: seq<Event>, n: Auth)
    requires AtRest(s) && s.session.Some? && s.mode != Idle
    ensures events == [Begin(1, Open(true)), Resume(1, Go), Resume(1, Listening(true, true)), Resume(1, Opened(ok))]
                      + if ok then [] else [Resume(1, Go)]
    ensures n == Run(s, events) && n == s.(mode := if ok then AwaitingDisconnect else Connected)
  {
    hide Run, RestoreSection, ApproveSection, PollSection, RemoveSection;
    events, n := DisconnectPageOpening(s);
    events, n := OneMoreEvent(s, events, n, Resume(1, Opened(ok)));
    if ok {
      assert n.calls == map[];
    } else {
      assert n.calls == map[1 := OpenFailWait(true)];
      events, n := OneMoreEvent(s, events, n, Resume(1, Go));
      assert n.calls == map[];
    }
  }

  /** A refused start ends its attempt with the refusal. */
  lemma ApprovalRefused(s: Auth, outcome: AuthState) returns (events: seq<Event>, n: Auth)
    requires AtRest(s) && s.mode == AwaitingApproval
    ensures events == [Begin(2, Approve), Resume(2, Go), Resume(2, Refused(outcome)), Resume(2, Go)] && n == Run(s, events)
    ensures n == s.(mode := outcome, attempt := None, nextAttempt := s.nextAttempt + 1, log := s.log + [Created(s.nextAttempt)])
  {
    hide Run, RestoreSection, ViewSection, PollSection, RemoveSection;
    RunNothing(s);
    events, n := OneMoreEvent(s, [], s, Begin(2, Approve));
    assert n.calls == map[2 := ApproveWait];
    events, n := OneMoreEvent(s, events, n, Resume(2, Go));
    assert n.calls == map[2 := ApproveStarting(s.nextAttempt)];
    events, n := OneMoreEvent(s, events, n, Resume(2, Refused(outcome)));
    assert n.calls == map[2 := ApproveFailWait(s.nextAttempt, outcome)];
    events, n := OneMoreEvent(s, events, n, Resume(2, Go));
    assert n.calls == map[];
  }

  /** Cancelling ends the attempt and nothing else; keeping the session shows it as connected. */
  lemma WholeChoice(s: Auth, call: Call) returns (events: seq<Event>, n: Auth)
    requires AtRest(s) && (call == Cancel || call == Keep)
    ensures events == [Begin(1, call), Resume(1, Go)] && n == Run(s, events)
    ensures n == if call == Cancel then s.(attempt := None, mode := Disconnected)
                 else if s.session.Some? then s.(mode := Connected) else s
  {
    hide Run, RestoreSection, ApproveSection, PollSection, RemoveSection;
    RunNothing(s);
    events, n := OneMoreEvent(s, [], s, Begin(1, call));
    assert n == s.(calls := map[1 := if call == Cancel then CancelWait else KeepWait]);
    events, n := OneMoreEvent(s, events, n, Resume(1, Go));
    assert n.calls == map[];
  }
}
