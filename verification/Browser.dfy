/**
The session state machine of one process (`auth/browser.py`, `BrowserAuth`).

Any number of calls run concurrently; one event runs one call from an await to
its next await.  Store and upstream answers are arbitrary: a store call may fail
before or after taking effect, and the attempt timeout and the idle timer may
fire at any moment.  A call may be cancelled at any await; a store write it was
waiting for runs in a thread and may still land later, or never.  Error codes, messages and the QR image are not modelled.
*/
module Browser {
  import opened Wrappers

  type Task = nat
  type AttemptId = nat
  type Session = nat

  datatype AuthState = Disconnected | AwaitingApproval | AwaitingDisconnect | Starting | Scanning
                     | Connected | Idle | Denied | TimedOut | Failed

  /** What a call does once its embedded `restore` has returned. */
  datatype Then = Return | ThenDisconnect | ThenOpen(disconnecting: bool) | ThenEnsure

  /** Where a call is suspended. */
  datatype Point =
    | RestoreWait(after: Then)
    | RestoreLoading(after: Then)
    | RestoreValidating(after: Then, saved: Session)
    | RestoreDeleting(after: Then)
    | RestoreSaving(after: Then, validated: Session)
    | ApproveWait
    | ApproveStarting(a: AttemptId)
    | ApproveFailWait(a: AttemptId, outcome: AuthState)
    | ApproveScanWait(a: AttemptId)
    | ApproveDropping
    | PollWait
    | PollCollecting(a: AttemptId)
    | FinishWait(a: AttemptId, outcome: AuthState, session: Option<Session>)
    | FinishSaving(a: AttemptId, material: Session)
    | DisconnectWait
    | DisconnectDeleting
    | EvictWait
    | EvictClearing
    | InvalidateWait
    | InvalidateDeleting
    | CancelWait
    | KeepWait
    | EnsureWait
    | OpenWait(disconnecting: bool)
    | OpenListening(disconnecting: bool)
    | Opening(disconnecting: bool)
    | OpenFailWait(disconnecting: bool)

  /** The lock is held across this await. */
  predicate InLock(p: Point) {
    p.RestoreLoading? || p.RestoreValidating? || p.RestoreDeleting? || p.RestoreSaving? || p.ApproveDropping?
    || p.FinishSaving? || p.DisconnectDeleting? || p.EvictClearing? || p.InvalidateDeleting? || p.OpenListening?
  }

  datatype Call = Restore | Approve | Poll | AttemptTimeout(a: AttemptId) | Disconnect | IdleTimeout | Invalidate
                | Cancel | Keep | Ensure | Open(disconnecting: bool)

  /** What the awaited operation answers. */
  datatype Answer =
    | Go
    | Loaded(ok: bool)
    | Validated(session: Option<Session>)
    | Refused(outcome: AuthState)
    | Stored(applied: bool, ok: bool)
    | Started
    | Collected(outcome: AuthState, session: Option<Session>)
    | Pending
    | Listening(isNew: bool, ok: bool)
    | Opened(ok: bool)

  datatype Event =
    | Begin(t: Task, call: Call)
    | Resume(t: Task, answer: Answer)
    | Abort(t: Task)
    | LateSave(i: nat)
    | LateDelete

  datatype Source = FromStore | FromAttempt(a: AttemptId)

  /** The history of everything that changes who is logged in. */
  datatype Effect =
    | Created(a: AttemptId)
    | Installed(source: Source, session: Session)
    | Saved(source: Source, session: Session)
    | DisconnectDone(deleted: bool)

  datatype Auth = Auth(hasStore: bool, mode: AuthState, session: Option<Session>, attempt: Option<AttemptId>,
                       store: Option<Session>, lock: Option<Task>, calls: map<Task, Point>,
                       nextAttempt: AttemptId, late: Late, log: seq<Effect>)

  /** Writes of cancelled calls that have not landed yet. */
  datatype Late = Late(saves: seq<(Source, Session)>, deletes: nat)

  function Initial(hasStore: bool, stored: Option<Session>): Auth {
    Auth(hasStore, Disconnected, None, None, if hasStore then stored else None, None, map[], 0, Late([], 0), [])
  }

  // ---- moves shared by the sections ----

  /** Leave the lock if this call holds it, and suspend at `p`. */
  function Move(s: Auth, t: Task, p: Point): Auth {
    s.(calls := s.calls[t := p], lock := if s.lock == Some(t) then None else s.lock)
  }

  /** Suspend at `p` inside the lock. */
  function Hold(s: Auth, t: Task, p: Point): Auth {
    s.(calls := s.calls[t := p], lock := Some(t))
  }

  function End(s: Auth, t: Task): Auth {
    s.(calls := s.calls - {t}, lock := if s.lock == Some(t) then None else s.lock)
  }

  function EndRestore(s: Auth, t: Task, after: Then): Auth {
    match after
    case Return => End(s, t)
    case ThenDisconnect => Move(s, t, DisconnectWait)
    case ThenOpen(d) => Move(s, t, OpenWait(d))
    case ThenEnsure => Move(s, t, EnsureWait)
  }

  function Entry(s: Auth, call: Call): Point {
    match call
    case Restore => RestoreWait(Return)
    case Approve => ApproveWait
    case Poll => PollWait
    case AttemptTimeout(a) => FinishWait(a, TimedOut, None)
    case Disconnect => if s.mode == Idle then RestoreWait(ThenDisconnect) else DisconnectWait
    case IdleTimeout => EvictWait
    case Invalidate => InvalidateWait
    case Cancel => CancelWait
    case Keep => KeepWait
    case Ensure => if s.session.None? then RestoreWait(ThenEnsure) else EnsureWait
    case Open(d) => if s.mode == Idle then RestoreWait(ThenOpen(d)) else OpenWait(d)
  }

  // ---- the sections ----

  function RestoreSection(s: Auth, t: Task, p: Point, answer: Answer): Auth {
    match p
    case RestoreWait(after) =>
      if s.lock.Some? then s
      else if s.session.Some? || !s.hasStore then EndRestore(s, t, after)
      else Hold(s, t, RestoreLoading(after))
    case RestoreLoading(after) =>
      if !answer.Loaded? then s
      else if !answer.ok then EndRestore(s.(mode := Failed), t, after)
      else if s.store.None? then EndRestore(s.(mode := Disconnected), t, after)
      else Hold(s, t, RestoreValidating(after, s.store.value))
    case RestoreValidating(after, _) =>
      if answer.Refused? then EndRestore(s.(mode := Failed), t, after)
      else if !answer.Validated? then s
      else if answer.session.None? then Hold(s, t, RestoreDeleting(after))
      else Hold(s, t, RestoreSaving(after, answer.session.value))
    case RestoreDeleting(after) =>
      if !answer.Stored? || (answer.ok && !answer.applied) then s
      else
        EndRestore(s.(store := if answer.applied then None else s.store,
                      mode := if answer.ok then Disconnected else Failed), t, after)
    case RestoreSaving(after, v) =>
      if !answer.Stored? || (answer.ok && !answer.applied) then s
      else
        var saved := if answer.applied then s.(store := Some(v), log := s.log + [Saved(FromStore, v)]) else s;
        EndRestore(if answer.ok
                   then saved.(session := Some(v), mode := Connected, log := saved.log + [Installed(FromStore, v)])
                   else saved.(mode := Failed), t, after)
    case _ => s
  }

  function ApproveSection(s: Auth, t: Task, p: Point, answer: Answer): Auth {
    match p
    case ApproveWait =>
      if s.lock.Some? then s
      else if s.mode != AwaitingApproval then End(s, t)
      else
        var a := s.nextAttempt;
        Move(s.(attempt := Some(a), nextAttempt := a + 1, mode := Starting, log := s.log + [Created(a)]), t,
             ApproveStarting(a))
    case ApproveStarting(a) =>
      if answer.Started? then Move(s, t, ApproveScanWait(a))
      else if answer.Refused? then Move(s, t, ApproveFailWait(a, answer.outcome))
      else s
    case ApproveFailWait(a, outcome) =>
      if s.lock.Some? then s
      else End(if s.attempt == Some(a) then s.(attempt := None, mode := outcome) else s, t)
    case ApproveScanWait(a) =>
      if s.lock.Some? then s
      else if s.attempt != Some(a) then Hold(s, t, ApproveDropping)
      else End(s.(mode := Scanning), t)
    case ApproveDropping => End(s, t)
    case _ => s
  }

  /** The assignments of `_finish_attempt`. */
  function Settle(s: Auth, a: AttemptId, outcome: AuthState, session: Option<Session>): Auth {
    s.(attempt := None, session := session, mode := outcome,
       log := s.log + if session.Some? then [Installed(FromAttempt(a), session.value)] else [])
  }

  function PollSection(s: Auth, t: Task, p: Point, answer: Answer): Auth {
    match p
    case PollWait =>
      if s.lock.Some? then s
      else if s.mode != Scanning || s.attempt.None? || answer.Pending? then End(s, t)
      else Move(s, t, PollCollecting(s.attempt.value))
    case PollCollecting(a) =>
      if answer.Pending? then End(s, t)
      else if answer.Refused? then Move(s, t, FinishWait(a, answer.outcome, None))
      else if answer.Collected? && (answer.session.Some? <==> answer.outcome == Connected)
      then Move(s, t, FinishWait(a, answer.outcome, answer.session))
      else s
    case FinishWait(a, outcome, session) =>
      if s.lock.Some? then s
      else if s.attempt != Some(a) then End(s, t)
      else if outcome == Connected && session.Some? && s.hasStore then Hold(s, t, FinishSaving(a, session.value))
      else End(Settle(s, a, outcome, session), t)
    case FinishSaving(a, v) =>
      if !answer.Stored? || (answer.ok && !answer.applied) then s
      else
        var saved := if answer.applied then s.(store := Some(v), log := s.log + [Saved(FromAttempt(a), v)]) else s;
        End(if answer.ok then Settle(saved, a, Connected, Some(v)) else Settle(saved, a, Failed, None), t)
    case _ => s
  }

  function RemoveSection(s: Auth, t: Task, p: Point, answer: Answer): Auth {
    match p
    case DisconnectWait =>
      if s.lock.Some? then s
      else
        var cleared := s.(attempt := None, session := None, mode := Disconnected);
        if s.hasStore then Hold(cleared, t, DisconnectDeleting)
        else End(cleared.(log := s.log + [DisconnectDone(true)]), t)
    case DisconnectDeleting =>
      if !answer.Stored? || (answer.ok && !answer.applied) then s
      else
        End(s.(store := if answer.applied then None else s.store, mode := if answer.ok then s.mode else Failed,
               log := s.log + [DisconnectDone(answer.ok)]), t)
    case InvalidateWait =>
      if s.lock.Some? then s
      else
        var cleared := s.(session := None, mode := Disconnected);
        if s.hasStore then Hold(cleared, t, InvalidateDeleting) else End(cleared, t)
    case InvalidateDeleting =>
      if !answer.Stored? || (answer.ok && !answer.applied) then s
      else
        End(s.(store := if answer.applied then None else s.store, mode := if answer.ok then s.mode else Failed), t)
    case EvictWait =>
      if s.lock.Some? then s
      else if s.session.None? then End(s, t)
      else Hold(s.(session := None, mode := Idle), t, EvictClearing)
    case EvictClearing => End(s, t)
    case _ => s
  }

  function ViewSection(s: Auth, t: Task, p: Point, answer: Answer): Auth {
    match p
    case CancelWait => if s.lock.Some? then s else End(s.(attempt := None, mode := Disconnected), t)
    case KeepWait => if s.lock.Some? then s else End(if s.session.Some? then s.(mode := Connected) else s, t)
    case EnsureWait => if s.lock.Some? then s else End(if s.session.Some? then s.(mode := Connected) else s, t)
    case OpenWait(d) =>
      if s.lock.Some? then s
      else if d && s.session.None? then End(s.(mode := Disconnected), t)
      else if !d && s.mode == Connected then End(s, t)
      else Hold(s, t, OpenListening(d))
    case OpenListening(d) =>
      if !answer.Listening? then s
      else if !answer.ok then End(s, t)
      else if d then Move(s.(mode := AwaitingDisconnect), t, Opening(d))
      else if answer.isNew || s.mode in {Disconnected, Denied, TimedOut, Failed}
      then Move(s.(mode := AwaitingApproval), t, Opening(d))
      else Move(s, t, Opening(d))
    case Opening(d) =>
      if !answer.Opened? then s else if answer.ok then End(s, t) else Move(s, t, OpenFailWait(d))
    case OpenFailWait(d) =>
      if s.lock.Some? then s else End(s.(mode := if d then Connected else Failed), t)
    case _ => s
  }

  predicate InRestore(p: Point) {
    p.RestoreWait? || p.RestoreLoading? || p.RestoreValidating? || p.RestoreDeleting? || p.RestoreSaving?
  }

  predicate InApprove(p: Point) {
    p.ApproveWait? || p.ApproveStarting? || p.ApproveFailWait? || p.ApproveScanWait? || p.ApproveDropping?
  }

  predicate InPoll(p: Point) {
    p.PollWait? || p.PollCollecting? || p.FinishWait? || p.FinishSaving?
  }

  predicate InRemove(p: Point) {
    p.DisconnectWait? || p.DisconnectDeleting? || p.InvalidateWait? || p.InvalidateDeleting? || p.EvictWait? || p.EvictClearing?
  }

  function Section(s: Auth, t: Task, p: Point, answer: Answer): Auth {
    if InRestore(p) then RestoreSection(s, t, p, answer)
    else if InApprove(p) then ApproveSection(s, t, p, answer)
    else if InPoll(p) then PollSection(s, t, p, answer)
    else if InRemove(p) then RemoveSection(s, t, p, answer)
    else ViewSection(s, t, p, answer)
  }

  /** What cancelling a call suspended at `p` leaves behind in the store's threads. */
  function LeftBehind(late: Late, p: Point): Late {
    match p
    case RestoreSaving(_, v) => late.(saves := late.saves + [(FromStore, v)])
    case FinishSaving(a, v) => late.(saves := late.saves + [(FromAttempt(a), v)])
    case RestoreDeleting(_) => late.(deletes := late.deletes + 1)
    case DisconnectDeleting => late.(deletes := late.deletes + 1)
    case InvalidateDeleting => late.(deletes := late.deletes + 1)
    case _ => late
  }

  /** Events that are not enabled change nothing. */
  function Step(s: Auth, e: Event): Auth {
    match e
    case Begin(t, call) =>
      if t in s.calls || (call.AttemptTimeout? && call.a >= s.nextAttempt) then s
      else s.(calls := s.calls[t := Entry(s, call)])
    case Resume(t, answer) =>
      if t in s.calls then Section(s, t, s.calls[t], answer) else s
    case Abort(t) =>
      if t in s.calls then End(s, t).(late := LeftBehind(s.late, s.calls[t])) else s
    case LateSave(i) =>
      if i >= |s.late.saves| then s
      else
        var (source, v) := s.late.saves[i];
        s.(store := Some(v), late := s.late.(saves := s.late.saves[..i] + s.late.saves[i + 1..]),
           log := s.log + [Saved(source, v)])
    case LateDelete =>
      if s.late.deletes == 0 then s else s.(store := None, late := s.late.(deletes := s.late.deletes - 1))
  }

  function Run(s: Auth, events: seq<Event>): Auth {
    if events == [] then s else Step(Run(s, events[..|events| - 1]), events[|events| - 1])
  }
}
