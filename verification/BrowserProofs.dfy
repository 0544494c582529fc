/** Disconnect wins within one process, and a replaced attempt stays out. */
module BrowserProofs {
  import opened Wrappers
  import opened Browser

  /** The lock is held by exactly the call suspended inside it. */
  ghost predicate LockOwned(s: Auth) {
    forall t: Task :: t in s.calls && InLock(s.calls[t]) <==> s.lock == Some(t)
  }

  /** The call is waiting for a write to the store. */
  predicate Writing(p: Point) {
    p.RestoreSaving? || p.RestoreDeleting? || p.FinishSaving? || p.DisconnectDeleting? || p.InvalidateDeleting?
  }

  /** What a call suspended inside the lock may rely on. */
  ghost predicate HolderFacts(s: Auth, p: Point) {
    && (p.DisconnectDeleting? ==> s.session.None? && s.attempt.None?)
    && (p.FinishSaving? ==> s.attempt == Some(p.a))
    && (Writing(p) ==> s.hasStore)
  }

  ghost predicate Inv(s: Auth) {
    && LockOwned(s)
    && (s.attempt.Some? ==> s.attempt.value < s.nextAttempt)
    && (s.lock.Some? ==> s.lock.value in s.calls && HolderFacts(s, s.calls[s.lock.value]))
    && (!s.hasStore ==> s.store.None? && s.late == Late([], 0))
    && (forall t | t in s.calls && s.calls[t].RestoreLoading? :: s.hasStore)
    && (forall t | t in s.calls && s.calls[t].RestoreValidating? :: s.hasStore)
  }

  /** The pending call `t` runs its section at `p`. */
  ghost predicate Runs(s: Auth, t: Task, p: Point) {
    Inv(s) && t in s.calls && s.calls[t] == p
  }

  /** Ending an embedded restore releases the lock and keeps the invariant. */
  lemma EndRestoreKeepsInv(s: Auth, t: Task, p: Point, after: Then, r: Auth)
    requires Runs(s, t, p)
    requires InLock(p) || s.lock.None?
    requires r == s.(mode := r.mode, session := r.session, store := r.store, log := r.log)
    requires !r.hasStore ==> r.store.None? && r.late == Late([], 0)
    ensures Inv(EndRestore(r, t, after))
  {
  }

  lemma RestoreKeepsInv(s: Auth, t: Task, p: Point, answer: Answer)
    requires Runs(s, t, p)
    ensures Inv(RestoreSection(s, t, p, answer))
  {
    match p
    case RestoreWait(after) =>
      if s.lock.None? { EndRestoreKeepsInv(s, t, p, after, s); }
    case RestoreLoading(after) =>
      EndRestoreKeepsInv(s, t, p, after, s.(mode := Failed));
      EndRestoreKeepsInv(s, t, p, after, s.(mode := Disconnected));
    case RestoreValidating(after, _) =>
      EndRestoreKeepsInv(s, t, p, after, s.(mode := Failed));
    case RestoreDeleting(after) =>
      if answer.Stored? {
        EndRestoreKeepsInv(s, t, p, after, s.(store := if answer.applied then None else s.store,
                                             mode := if answer.ok then Disconnected else Failed));
      }
    case RestoreSaving(after, v) =>
      if answer.Stored? {
        var saved := if answer.applied then s.(store := Some(v), log := s.log + [Saved(FromStore, v)]) else s;
        EndRestoreKeepsInv(s, t, p, after, saved.(mode := Failed));
        EndRestoreKeepsInv(s, t, p, after,
          saved.(session := Some(v), mode := Connected, log := saved.log + [Installed(FromStore, v)]));
      }
    case _ =>
  }

  lemma ApproveKeepsInv(s: Auth, t: Task, p: Point, answer: Answer)
    requires Runs(s, t, p)
    ensures Inv(ApproveSection(s, t, p, answer))
  {
  }

  lemma PollKeepsInv(s: Auth, t: Task, p: Point, answer: Answer)
    requires Runs(s, t, p)
    ensures Inv(PollSection(s, t, p, answer))
  {
  }

  lemma RemoveKeepsInv(s: Auth, t: Task, p: Point, answer: Answer)
    requires Runs(s, t, p)
    ensures Inv(RemoveSection(s, t, p, answer))
  {
  }

  /** `r` is `s` with another state, or without the attempt, assigned where no other call holds the lock. */
  ghost predicate Reassigns(s: Auth, p: Point, r: Auth) {
    && r == s.(mode := r.mode, attempt := r.attempt) && (r.attempt == s.attempt || r.attempt.None?)
    && (r == s || InLock(p) || s.lock.None?)
  }

  lemma EndKeepsInv(s: Auth, t: Task, p: Point, r: Auth)
    requires Runs(s, t, p) && Reassigns(s, p, r)
    ensures Inv(End(r, t))
  {
  }

  lemma MoveKeepsInv(s: Auth, t: Task, p: Point, r: Auth, q: Point)
    requires Runs(s, t, p) && Reassigns(s, p, r) && !InLock(q)
    ensures Inv(Move(r, t, q))
  {
  }

  lemma ListenKeepsInv(s: Auth, t: Task, p: Point, disconnecting: bool)
    requires Runs(s, t, p) && s.lock.None?
    ensures Inv(Hold(s, t, OpenListening(disconnecting)))
  {
  }

  predicate IsPageCall(p: Point) {
    p.CancelWait? || p.KeepWait? || p.EnsureWait? || p.OpenFailWait?
  }

  lemma PageKeepsInv(s: Auth, t: Task, p: Point, answer: Answer)
    requires Runs(s, t, p) && s.lock.None? && IsPageCall(p)
    ensures Inv(ViewSection(s, t, p, answer))
  {
    match p
    case CancelWait => EndKeepsInv(s, t, p, s.(attempt := None, mode := Disconnected));
    case OpenFailWait(d) => EndKeepsInv(s, t, p, s.(mode := if d then Connected else Failed));
    case _ =>
      EndKeepsInv(s, t, p, s);
      EndKeepsInv(s, t, p, s.(mode := Connected));
  }

  lemma ListenerKeepsInv(s: Auth, t: Task, p: Point, answer: Answer)
    requires Runs(s, t, p) && p.OpenListening?
    ensures Inv(ViewSection(s, t, p, answer))
  {
    EndKeepsInv(s, t, p, s);
    MoveKeepsInv(s, t, p, s, Opening(p.disconnecting));
    MoveKeepsInv(s, t, p, s.(mode := AwaitingDisconnect), Opening(p.disconnecting));
    MoveKeepsInv(s, t, p, s.(mode := AwaitingApproval), Opening(p.disconnecting));
  }

  lemma OpenKeepsInv(s: Auth, t: Task, p: Point, answer: Answer)
    requires Runs(s, t, p) && ((p.OpenWait? && s.lock.None?) || p.Opening?)
    ensures Inv(ViewSection(s, t, p, answer))
  {
    EndKeepsInv(s, t, p, s);
    if p.OpenWait? {
      EndKeepsInv(s, t, p, s.(mode := Disconnected));
      ListenKeepsInv(s, t, p, p.disconnecting);
    } else {
      MoveKeepsInv(s, t, p, s, OpenFailWait(p.disconnecting));
    }
  }

  lemma ViewKeepsInv(s: Auth, t: Task, p: Point, answer: Answer)
    requires Runs(s, t, p)
    ensures Inv(ViewSection(s, t, p, answer))
  {
    if p.OpenListening? {
      ListenerKeepsInv(s, t, p, answer);
    } else if p.Opening? {
      OpenKeepsInv(s, t, p, answer);
    } else if s.lock.None? && p.OpenWait? {
      OpenKeepsInv(s, t, p, answer);
    } else if s.lock.None? && IsPageCall(p) {
      PageKeepsInv(s, t, p, answer);
    }
  }

  lemma StepKeepsInv(s: Auth, e: Event)
    requires Inv(s)
    ensures Inv(Step(s, e))
  {
    match e
    case Begin(t, call) =>
    case Resume(t, answer) =>
      if t in s.calls {
        var p := s.calls[t];
        RestoreKeepsInv(s, t, p, answer);
        ApproveKeepsInv(s, t, p, answer);
        PollKeepsInv(s, t, p, answer);
        RemoveKeepsInv(s, t, p, answer);
        ViewKeepsInv(s, t, p, answer);
      }
    case _ =>
  }

  lemma {:induction false} RunKeepsInv(s: Auth, events: seq<Event>)
    requires Inv(s)
    ensures Inv(Run(s, events))
  {
    if events != [] {
      RunKeepsInv(s, events[..|events| - 1]);
      StepKeepsInv(Run(s, events[..|events| - 1]), events[|events| - 1]);
    }
  }

  // ---- disconnect wins ----

  /** Nobody is logged in, nothing is stored, and no call or late write holds material to store. */
  ghost predicate Quiet(s: Auth) {
    && s.session.None? && s.store.None? && s.attempt.None? && s.late.saves == []
    && (s.lock.Some? && s.lock.value in s.calls ==>
          var p := s.calls[s.lock.value]; !p.RestoreValidating? && !p.RestoreSaving?)
  }

  /** What a stretch of history may contain. */
  datatype Rule = Anything | NothingCreated | NothingLoggedIn | NoDisconnect | NothingFrom(a: AttemptId)

  predicate Allows(rule: Rule, e: Effect) {
    match rule
    case Anything => true
    case NothingCreated => !e.Created?
    case NothingLoggedIn => !e.Installed? && !e.Saved?
    case NoDisconnect => !e.DisconnectDone?
    case NothingFrom(a) => !((e.Installed? || e.Saved?) && e.source == FromAttempt(a))
  }

  /** `now` continues `before` with allowed effects only. */
  ghost predicate Extends(before: seq<Effect>, now: seq<Effect>, rule: Rule) {
    |before| <= |now| && now[..|before|] == before && forall i | |before| <= i < |now| :: Allows(rule, now[i])
  }

  lemma QuietRestore(s: Auth, t: Task, p: Point, answer: Answer)
    requires Runs(s, t, p) && Quiet(s)
    ensures var r := RestoreSection(s, t, p, answer); r.log == s.log && Quiet(r)
  {
  }

  lemma QuietView(s: Auth, t: Task, p: Point, answer: Answer)
    requires Runs(s, t, p) && Quiet(s)
    ensures ViewSection(s, t, p, answer).log == s.log && Quiet(ViewSection(s, t, p, answer))
  {
  }

  lemma QuietPoll(s: Auth, t: Task, p: Point, answer: Answer)
    requires Runs(s, t, p) && Quiet(s)
    ensures PollSection(s, t, p, answer).log == s.log && Quiet(PollSection(s, t, p, answer))
  {
  }

  lemma QuietRemove(s: Auth, t: Task, p: Point, answer: Answer)
    requires Runs(s, t, p) && Quiet(s)
    ensures Extends(s.log, RemoveSection(s, t, p, answer).log, NothingLoggedIn)
    ensures Quiet(RemoveSection(s, t, p, answer))
  {
  }

  lemma QuietApprove(s: Auth, t: Task, p: Point, answer: Answer)
    requires Runs(s, t, p) && Quiet(s)
    ensures var r := ApproveSection(s, t, p, answer);
            (r.log == s.log && Quiet(r)) || r.log == s.log + [Created(s.nextAttempt)]
  {
  }

  /** A quiet state stays quiet unless an attempt is created. */
  lemma QuietStep(s: Auth, e: Event)
    requires Inv(s) && Quiet(s)
    ensures Extends(s.log, Step(s, e).log, NothingLoggedIn)
    ensures Extends(s.log, Step(s, e).log, NothingCreated) ==> Quiet(Step(s, e))
  {
    if e.Resume? && e.t in s.calls {
      var p := s.calls[e.t];
      QuietRestore(s, e.t, p, e.answer);
      QuietView(s, e.t, p, e.answer);
      QuietPoll(s, e.t, p, e.answer);
      QuietRemove(s, e.t, p, e.answer);
      QuietApprove(s, e.t, p, e.answer);
      var r := Step(s, e);
      if r.log == s.log + [Created(s.nextAttempt)] { assert r.log[|s.log|] == Created(s.nextAttempt); }
    }
  }

  lemma RestoreFrame(s: Auth, t: Task, p: Point, answer: Answer)
    ensures var n := RestoreSection(s, t, p, answer); n.late == s.late && Extends(s.log, n.log, NoDisconnect)
  {
  }

  lemma ApproveFrame(s: Auth, t: Task, p: Point, answer: Answer)
    ensures var n := ApproveSection(s, t, p, answer); n.late == s.late && Extends(s.log, n.log, NoDisconnect)
  {
  }

  lemma PollFrame(s: Auth, t: Task, p: Point, answer: Answer)
    ensures var n := PollSection(s, t, p, answer); n.late == s.late && Extends(s.log, n.log, NoDisconnect)
  {
  }

  lemma ViewFrame(s: Auth, t: Task, p: Point, answer: Answer)
    ensures var n := ViewSection(s, t, p, answer); n.late == s.late && Extends(s.log, n.log, NoDisconnect)
  {
  }

  lemma RemoveFrame(s: Auth, t: Task, p: Point, answer: Answer)
    ensures var n := RemoveSection(s, t, p, answer); n.late == s.late && Extends(s.log, n.log, Anything)
  {
  }

  /** No section starts or lands a late write, and only removals log a disconnect. */
  lemma SectionFrame(s: Auth, t: Task, p: Point, answer: Answer)
    ensures var n := Section(s, t, p, answer);
            && n.late == s.late && Extends(s.log, n.log, Anything)
            && (n == RemoveSection(s, t, p, answer) || Extends(s.log, n.log, NoDisconnect))
  {
    RestoreFrame(s, t, p, answer);
    ApproveFrame(s, t, p, answer);
    PollFrame(s, t, p, answer);
    ViewFrame(s, t, p, answer);
    RemoveFrame(s, t, p, answer);
  }

  lemma LogGrows(s: Auth, e: Event)
    ensures Extends(s.log, Step(s, e).log, Anything)
  {
    if e.Resume? && e.t in s.calls { SectionFrame(s, e.t, s.calls[e.t], e.answer); }
  }

  lemma SplitExtends(x: seq<Effect>, y: seq<Effect>, z: seq<Effect>, rule: Rule)
    requires Extends(x, y, Anything) && Extends(y, z, Anything) && Extends(x, z, rule)
    ensures Extends(x, y, rule) && Extends(y, z, rule)
  {
  }

  lemma {:induction false} QuietRun(s: Auth, events: seq<Event>)
    requires Inv(s) && Quiet(s)
    requires Extends(s.log, Run(s, events).log, NothingCreated)
    ensures Quiet(Run(s, events))
    ensures Extends(s.log, Run(s, events).log, NothingLoggedIn)
    decreases |events|
  {
    if events != [] {
      var before := Run(s, events[..|events| - 1]);
      var e := events[|events| - 1];
      RunKeepsInv(s, events[..|events| - 1]);
      RunLogGrows(s, events[..|events| - 1]);
      LogGrows(before, e);
      SplitExtends(s.log, before.log, Run(s, events).log, NothingCreated);
      QuietRun(s, events[..|events| - 1]);
      QuietStep(before, e);
      ExtendsJoins(s.log, before.log, Run(s, events).log, NothingLoggedIn);
    }
  }

  lemma {:induction false} RunLogGrows(s: Auth, events: seq<Event>)
    ensures Extends(s.log, Run(s, events).log, Anything)
  {
    if events != [] {
      RunLogGrows(s, events[..|events| - 1]);
      LogGrows(Run(s, events[..|events| - 1]), events[|events| - 1]);
      ExtendsJoins(s.log, Run(s, events[..|events| - 1]).log, Run(s, events).log, Anything);
    }
  }

  lemma OneMore(log: seq<Effect>, now: seq<Effect>, e: Effect)
    requires now == log + [e]
    ensures |now| == |log| + 1 && now[|log|] == e
  {
  }

  /** The completing section of a disconnect whose delete succeeded leaves everything quiet but late saves. */
  lemma DisconnectQuiets(s: Auth, e: Event)
    requires Inv(s)
    requires Step(s, e).log == s.log + [DisconnectDone(true)]
    ensures Quiet(Step(s, e).(late := Late([], 0)))
  {
    OneMore(s.log, Step(s, e).log, DisconnectDone(true));
    if e.Resume? && e.t in s.calls {
      SectionFrame(s, e.t, s.calls[e.t], e.answer);
    }
  }

  /** Nobody is logged in, nothing is stored, and nothing was installed or saved since `before`. */
  ghost predicate LoggedOut(before: seq<Effect>, s: Auth) {
    s.session.None? && s.store.None? && Extends(before, s.log, NothingLoggedIn)
  }

  /** Whatever follows without an approval creating an attempt, everybody stays logged out. */
  ghost predicate StaysLoggedOut(s: Auth) {
    forall after :: Extends(s.log, Run(s, after).log, NothingCreated) ==> LoggedOut(s.log, Run(s, after))
  }

  lemma QuietStaysLoggedOut(s: Auth, after: seq<Event>)
    requires Inv(s) && Quiet(s) && Extends(s.log, Run(s, after).log, NothingCreated)
    ensures LoggedOut(s.log, Run(s, after))
  {
    QuietRun(s, after);
  }

  lemma LateSaveLands(s: Auth)
    requires s.late.saves != []
    ensures Run(s, [LateSave(0)]) == Step(s, LateSave(0)) && Run(s, [LateSave(0)]).store.Some?
    ensures Extends(s.log, Run(s, [LateSave(0)]).log, NothingCreated)
  {
    assert [LateSave(0)][..0] == [];
    assert Run(s, [LateSave(0)][..0]) == s;
  }

  /**
  Disconnect wins, and exactly when.  Take any run and let a disconnect complete its
  critical section with a successful delete.  Until an approval creates a new attempt,
  nobody is logged in, nothing is stored and nothing is installed or saved, whatever
  pending restores, approvals, polls, timeouts, evictions and cancellations do, if and
  only if no save of a call cancelled earlier is still on its way to the store.
  */
  lemma DisconnectWins(hasStore: bool, stored: Option<Session>, before: seq<Event>, e: Event, s: Auth, done: Auth)
    requires s == Run(Initial(hasStore, stored), before)
    requires done == Step(s, e) && done.log == s.log + [DisconnectDone(true)]
    ensures StaysLoggedOut(done) <==> done.late.saves == []
  {
    RunKeepsInv(Initial(hasStore, stored), before);
    DisconnectQuiets(s, e);
    StepKeepsInv(s, e);
    if done.late.saves == [] {
      forall after | Extends(done.log, Run(done, after).log, NothingCreated) ensures LoggedOut(done.log, Run(done, after)) {
        QuietStaysLoggedOut(done, after);
      }
    } else {
      LateSaveLands(done);
      assert !LoggedOut(done.log, Run(done, [LateSave(0)]));
    }
  }

  /** A run one event longer. */
  lemma OneMoreEvent(start: Auth, events: seq<Event>, s: Auth, e: Event) returns (longer: seq<Event>, n: Auth)
    requires Run(start, events) == s
    ensures longer == events + [e] && n == Step(s, e) && Run(start, longer) == n
  {
    longer, n := events + [e], Step(s, e);
    RunSnoc(start, events, e);
  }

  /** A restore is cancelled while it saves the validated session. */
  lemma CancelledRestore() returns (events: seq<Event>, s: Auth)
    ensures s == Run(Initial(true, Some(1)), events)
    ensures s == Initial(true, Some(1)).(late := Late([(FromStore, 2)], 0))
  {
    var start := Initial(true, Some(1));
    events, s := OneMoreEvent(start, [], start, Begin(1, Restore));
    events, s := OneMoreEvent(start, events, s, Resume(1, Go));
    events, s := OneMoreEvent(start, events, s, Resume(1, Loaded(true)));
    events, s := OneMoreEvent(start, events, s, Resume(1, Validated(Some(2))));
    assert s.calls == map[1 := RestoreSaving(Return, 2)];
    events, s := OneMoreEvent(start, events, s, Abort(1));
    assert s.calls == map[];
  }

  /** A whole disconnect from a state in which nothing else happens. */
  lemma WholeDisconnect(start: Auth, before: seq<Event>, s: Auth) returns (events: seq<Event>, n: Auth)
    requires Run(start, before) == s
    requires s.hasStore && s.lock.None? && s.calls == map[] && s.mode != Idle
    ensures n == Run(start, events)
    ensures n.log == s.log + [DisconnectDone(true)] && n.late == s.late
  {
    events, n := OneMoreEvent(start, before, s, Begin(2, Disconnect));
    assert n.calls == map[2 := DisconnectWait];
    events, n := OneMoreEvent(start, events, n, Resume(2, Go));
    assert n.calls == map[2 := DisconnectDeleting] && n.late == s.late;
    events, n := OneMoreEvent(start, events, n, Resume(2, Stored(true, true)));
  }

  /** The other side occurs: a restore cancelled while it saves can undo a later disconnect. */
  lemma CancelledSaveUndoesDisconnect() returns (events: seq<Event>)
    ensures var s := Run(Initial(true, Some(1)), events);
            s.log == [DisconnectDone(true), Saved(FromStore, 2)] && s.store == Some(2)
  {
    var s;
    events, s := CancelledRestore();
    events, s := WholeDisconnect(Initial(true, Some(1)), events, s);
    events, s := OneMoreEvent(Initial(true, Some(1)), events, s, LateSave(0));
  }

  lemma RunSnoc(s: Auth, events: seq<Event>, e: Event)
    ensures Run(s, events + [e]) == Step(Run(s, events), e)
  {
    assert (events + [e])[..|events|] == events;
  }

  // ---- replaced attempts ----

  /** The attempt was created and is no longer the current one. */
  predicate Replaced(s: Auth, a: AttemptId) {
    a < s.nextAttempt && s.attempt != Some(a)
  }

  /** No save of a cancelled call for this attempt is on its way to the store. */
  predicate NothingLateFrom(s: Auth, a: AttemptId) {
    forall i | 0 <= i < |s.late.saves| :: s.late.saves[i].0 != FromAttempt(a)
  }

  lemma ReplacedApprove(s: Auth, t: Task, p: Point, answer: Answer, a: AttemptId)
    requires Runs(s, t, p) && Replaced(s, a)
    ensures Replaced(ApproveSection(s, t, p, answer), a)
    ensures Extends(s.log, ApproveSection(s, t, p, answer).log, NothingFrom(a))
  {
  }

  lemma ReplacedView(s: Auth, t: Task, p: Point, answer: Answer, a: AttemptId)
    requires Runs(s, t, p) && Replaced(s, a)
    ensures Replaced(ViewSection(s, t, p, answer), a)
    ensures Extends(s.log, ViewSection(s, t, p, answer).log, NothingFrom(a))
    ensures Replaced(RemoveSection(s, t, p, answer), a)
    ensures Extends(s.log, RemoveSection(s, t, p, answer).log, NothingFrom(a))
  {
  }

  lemma ReplacedRestore(s: Auth, t: Task, p: Point, answer: Answer, a: AttemptId)
    requires Runs(s, t, p) && Replaced(s, a)
    ensures Replaced(RestoreSection(s, t, p, answer), a)
    ensures Extends(s.log, RestoreSection(s, t, p, answer).log, NothingFrom(a))
  {
  }

  lemma ReplacedPoll(s: Auth, t: Task, p: Point, answer: Answer, a: AttemptId)
    requires Runs(s, t, p) && Replaced(s, a)
    ensures Replaced(PollSection(s, t, p, answer), a)
    ensures Extends(s.log, PollSection(s, t, p, answer).log, NothingFrom(a))
  {
  }

  lemma ReplacedStep(s: Auth, e: Event, a: AttemptId)
    requires Inv(s) && Replaced(s, a) && NothingLateFrom(s, a)
    ensures Replaced(Step(s, e), a) && NothingLateFrom(Step(s, e), a)
    ensures Extends(s.log, Step(s, e).log, NothingFrom(a))
  {
    if e.Resume? && e.t in s.calls {
      ReplacedApprove(s, e.t, s.calls[e.t], e.answer, a);
      ReplacedView(s, e.t, s.calls[e.t], e.answer, a);
      ReplacedPoll(s, e.t, s.calls[e.t], e.answer, a);
      ReplacedRestore(s, e.t, s.calls[e.t], e.answer, a);
      SectionFrame(s, e.t, s.calls[e.t], e.answer);
    }
  }

  lemma ExtendsJoins(x: seq<Effect>, y: seq<Effect>, z: seq<Effect>, rule: Rule)
    requires Extends(x, y, rule) && Extends(y, z, rule)
    ensures Extends(x, z, rule)
  {
  }

  lemma {:induction false} ReplacedRun(s: Auth, after: seq<Event>, a: AttemptId)
    requires Inv(s) && Replaced(s, a) && NothingLateFrom(s, a)
    ensures Replaced(Run(s, after), a) && NothingLateFrom(Run(s, after), a)
    ensures Extends(s.log, Run(s, after).log, NothingFrom(a))
    decreases |after|
  {
    if after != [] {
      var mid := Run(s, after[..|after| - 1]);
      ReplacedRun(s, after[..|after| - 1], a);
      RunKeepsInv(s, after[..|after| - 1]);
      ReplacedStep(mid, after[|after| - 1], a);
      ExtendsJoins(s.log, mid.log, Run(s, after).log, NothingFrom(a));
    }
  }

  ghost predicate StaysOut(s: Auth, a: AttemptId) {
    forall after :: Extends(s.log, Run(s, after).log, NothingFrom(a))
  }

  lemma LateSaveOfAttempt(s: Auth, a: AttemptId, i: nat) returns (after: seq<Event>)
    requires i < |s.late.saves| && s.late.saves[i].0 == FromAttempt(a)
    ensures !Extends(s.log, Run(s, after).log, NothingFrom(a))
  {
    var n;
    after, n := OneMoreEvent(s, [], s, LateSave(i));
    var saved := Saved(FromAttempt(a), s.late.saves[i].1);
    OneMore(s.log, n.log, saved);
    assert !Allows(NothingFrom(a), saved);
  }

  /**
  A replaced attempt stays out, and exactly when: once replaced, it installs or saves
  nothing in any continuation if and only if no save it had started when its call was
  cancelled is still on its way to the store.
  */
  lemma ReplacedStaysOut(hasStore: bool, stored: Option<Session>, before: seq<Event>, a: AttemptId, s: Auth)
    requires s == Run(Initial(hasStore, stored), before) && Replaced(s, a)
    ensures StaysOut(s, a) <==> NothingLateFrom(s, a)
    ensures forall after :: NothingLateFrom(s, a) ==> Replaced(Run(s, after), a)
  {
    RunKeepsInv(Initial(hasStore, stored), before);
    if NothingLateFrom(s, a) {
      forall after ensures Extends(s.log, Run(s, after).log, NothingFrom(a)) && Replaced(Run(s, after), a) {
        ReplacedRun(s, after, a);
      }
    } else {
      var i :| 0 <= i < |s.late.saves| && s.late.saves[i].0 == FromAttempt(a);
      var after := LateSaveOfAttempt(s, a, i);
    }
  }
}
