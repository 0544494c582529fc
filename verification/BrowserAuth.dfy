/**
`BrowserAuth` as the object it is: its fields, the methods that assign them from one
await to the next, and `Handle`, which runs one event.  `Replay` runs any events, and
`DisconnectAndReplay` states on the fields what the proofs about all runs promise.
*/
module BrowserObject {
  import opened Wrappers
  import opened Browser
  import opened BrowserLaws
  import opened BrowserProofs

  class BrowserAuth {
    const hasStore: bool
    var state: AuthState
    var session: Option<Session>
    var attempt: Option<AttemptId>
    var stored: Option<Session>
    var lock: Option<Task>
    var calls: map<Task, Point>
    var attemptsMade: AttemptId
    var late: Late
    var log: seq<Effect>

    ghost function View(): Auth
      reads this
    {
      Auth(hasStore, state, session, attempt, stored, lock, calls, attemptsMade, late, log)
    }

    constructor (hasStore: bool, saved: Option<Session>)
      ensures View() == Initial(hasStore, saved)
    {
      this.hasStore := hasStore;
      state, session, attempt := Disconnected, None, None;
      stored := if hasStore then saved else None;
      lock, calls, attemptsMade, late, log := None, map[], 0, Late([], 0), [];
    }

    method Suspend(t: Task, p: Point)
      modifies this`calls, this`lock
      ensures View() == Move(old(View()), t, p)
    {
      calls := calls[t := p];
      if lock == Some(t) {
        lock := None;
      }
    }

    method SuspendInLock(t: Task, p: Point)
      modifies this`calls, this`lock
      ensures View() == Hold(old(View()), t, p)
    {
      calls := calls[t := p];
      lock := Some(t);
    }

    method Finish(t: Task)
      modifies this`calls, this`lock
      ensures View() == End(old(View()), t)
    {
      calls := calls - {t};
      if lock == Some(t) {
        lock := None;
      }
    }

    method FinishRestore(t: Task, after: Then)
      modifies this`calls, this`lock
      ensures View() == EndRestore(old(View()), t, after)
    {
      match after
      case Return => Finish(t);
      case ThenDisconnect => Suspend(t, DisconnectWait);
      case ThenOpen(d) => Suspend(t, OpenWait(d));
      case ThenEnsure => Suspend(t, EnsureWait);
    }

    /** `restore`: load and validate. */
    method Restore(t: Task, p: Point, answer: Answer)
      requires p.RestoreWait? || p.RestoreLoading? || p.RestoreValidating?
      modifies this`state, this`calls, this`lock
      ensures View() == RestoreSection(old(View()), t, p, answer)
    {
      match p
      case RestoreWait(after) =>
        if lock.None? {
          if session.Some? || !hasStore {
            FinishRestore(t, after);
          } else {
            SuspendInLock(t, RestoreLoading(after));
          }
        }
      case RestoreLoading(after) =>
        if answer.Loaded? {
          if !answer.ok {
            state := Failed;
            FinishRestore(t, after);
          } else if stored.None? {
            state := Disconnected;
            FinishRestore(t, after);
          } else {
            SuspendInLock(t, RestoreValidating(after, stored.value));
          }
        }
      case RestoreValidating(after, _) =>
        if answer.Refused? {
          state := Failed;
          FinishRestore(t, after);
        } else if answer.Validated? {
          if answer.session.None? {
            SuspendInLock(t, RestoreDeleting(after));
          } else {
            SuspendInLock(t, RestoreSaving(after, answer.session.value));
          }
        }
    }

    /** `restore`: delete an invalid session, or save and install the validated one. */
    method RestoreStored(t: Task, p: Point, answer: Answer)
      requires p.RestoreDeleting? || p.RestoreSaving?
      modifies this`state, this`session, this`stored, this`log, this`calls, this`lock
      ensures View() == RestoreSection(old(View()), t, p, answer)
      ensures p.RestoreSaving? && answer == Stored(true, true) ==>
                session == Some(p.validated) && state == Connected && stored == Some(p.validated)
      ensures p.RestoreDeleting? && answer == Stored(true, true) ==>
                session == old(session) && state == Disconnected && stored == None
      ensures answer.Stored? && !answer.ok ==> session == old(session) && state == Failed
    {
      match p
      case RestoreDeleting(after) =>
        if answer.Stored? && (answer.ok ==> answer.applied) {
          if answer.applied {
            stored := None;
          }
          state := if answer.ok then Disconnected else Failed;
          FinishRestore(t, after);
        }
      case RestoreSaving(after, validated) =>
        if answer.Stored? && (answer.ok ==> answer.applied) {
          if answer.applied {
            stored := Some(validated);
            log := log + [Saved(FromStore, validated)];
          }
          if answer.ok {
            session, state := Some(validated), Connected;
            log := log + [Installed(FromStore, validated)];
          } else {
            state := Failed;
          }
          FinishRestore(t, after);
        }
    }

    /** `approve`: create the attempt and start it. */
    method Approve(t: Task, p: Point, answer: Answer)
      requires p.ApproveWait? || p.ApproveStarting?
      modifies this`state, this`attempt, this`attemptsMade, this`log, this`calls, this`lock
      ensures View() == ApproveSection(old(View()), t, p, answer)
    {
      match p
      case ApproveWait =>
        if lock.None? {
          if state != AwaitingApproval {
            Finish(t);
          } else {
            var a := attemptsMade;
            attempt, attemptsMade, state := Some(a), a + 1, Starting;
            log := log + [Created(a)];
            Suspend(t, ApproveStarting(a));
          }
        }
      case ApproveStarting(a) =>
        if answer.Started? {
          Suspend(t, ApproveScanWait(a));
        } else if answer.Refused? {
          Suspend(t, ApproveFailWait(a, answer.outcome));
        }
    }

    /** `approve`: the attempt has started or failed. */
    method ApproveStarted(t: Task, p: Point, answer: Answer)
      requires p.ApproveFailWait? || p.ApproveScanWait? || p.ApproveDropping?
      modifies this`state, this`attempt, this`calls, this`lock
      ensures View() == ApproveSection(old(View()), t, p, answer)
    {
      match p
      case ApproveFailWait(a, outcome) =>
        if lock.None? {
          if attempt == Some(a) {
            attempt, state := None, outcome;
          }
          Finish(t);
        }
      case ApproveScanWait(a) =>
        if lock.None? {
          if attempt != Some(a) {
            SuspendInLock(t, ApproveDropping);
          } else {
            state := Scanning;
            Finish(t);
          }
        }
      case ApproveDropping => Finish(t);
    }

    /** `poll`. */
    method Poll(t: Task, p: Point, answer: Answer)
      requires p.PollWait? || p.PollCollecting?
      modifies this`calls, this`lock
      ensures View() == PollSection(old(View()), t, p, answer)
    {
      match p
      case PollWait =>
        if lock.None? {
          if state != Scanning || attempt.None? || answer.Pending? {
            Finish(t);
          } else {
            Suspend(t, PollCollecting(attempt.value));
          }
        }
      case PollCollecting(a) =>
        if answer.Pending? {
          Finish(t);
        } else if answer.Refused? {
          Suspend(t, FinishWait(a, answer.outcome, None));
        } else if answer.Collected? && (answer.session.Some? <==> answer.outcome == Connected) {
          Suspend(t, FinishWait(a, answer.outcome, answer.session));
        }
    }

    method SettleAttempt(a: AttemptId, outcome: AuthState, material: Option<Session>)
      modifies this`attempt, this`session, this`state, this`log
      ensures View() == Settle(old(View()), a, outcome, material)
      ensures session == material && attempt == None && state == outcome
    {
      attempt, session, state := None, material, outcome;
      if material.Some? {
        log := log + [Installed(FromAttempt(a), material.value)];
      }
    }

    /** `_finish_attempt`. */
    method FinishAttempt(t: Task, p: Point, answer: Answer)
      requires p.FinishWait? || p.FinishSaving?
      modifies this`state, this`attempt, this`session, this`stored, this`log, this`calls, this`lock
      ensures View() == PollSection(old(View()), t, p, answer)
      ensures p.FinishWait? && old(lock).None? && old(attempt) == Some(p.a) && !(hasStore && p.outcome == Connected) ==>
                session == p.session && attempt == None && state == p.outcome && stored == old(stored)
      ensures p.FinishSaving? && answer == Stored(true, true) ==>
                session == Some(p.material) && attempt == None && state == Connected && stored == Some(p.material)
      ensures p.FinishSaving? && answer.Stored? && !answer.ok ==>
                session == None && attempt == None && state == Failed
                && stored == if answer.applied then Some(p.material) else old(stored)
    {
      match p
      case FinishWait(a, outcome, material) =>
        if lock.None? {
          if attempt != Some(a) {
            Finish(t);
          } else if outcome == Connected && material.Some? && hasStore {
            SuspendInLock(t, FinishSaving(a, material.value));
          } else {
            SettleAttempt(a, outcome, material);
            Finish(t);
          }
        }
      case FinishSaving(a, material) =>
        if answer.Stored? && (answer.ok ==> answer.applied) {
          if answer.applied {
            stored := Some(material);
            log := log + [Saved(FromAttempt(a), material)];
          }
          if answer.ok {
            SettleAttempt(a, Connected, Some(material));
          } else {
            SettleAttempt(a, Failed, None);
          }
          Finish(t);
        }
    }

    /** `disconnect`: forget session and attempt before deleting the stored session. */
    method Disconnect(t: Task)
      modifies this`state, this`attempt, this`session, this`log, this`calls, this`lock
      ensures View() == RemoveSection(old(View()), t, DisconnectWait, Go)
    {
      if lock.None? {
        attempt, session, state := None, None, Disconnected;
        if hasStore {
          SuspendInLock(t, DisconnectDeleting);
        } else {
          log := log + [DisconnectDone(true)];
          Finish(t);
        }
      }
    }

    /** `disconnect`: the delete has answered. */
    method FinishDisconnect(t: Task, answer: Answer)
      modifies this`state, this`stored, this`log, this`calls, this`lock
      ensures View() == RemoveSection(old(View()), t, DisconnectDeleting, answer)
    {
      if answer.Stored? && (answer.ok ==> answer.applied) {
        if answer.applied {
          stored := None;
        }
        if !answer.ok {
          state := Failed;
        }
        log := log + [DisconnectDone(answer.ok)];
        Finish(t);
      }
    }

    /** `invalidate_session`: forget the session before deleting the stored one. */
    method InvalidateSession(t: Task)
      modifies this`state, this`session, this`calls, this`lock
      ensures View() == RemoveSection(old(View()), t, InvalidateWait, Go)
    {
      if lock.None? {
        session, state := None, Disconnected;
        if hasStore {
          SuspendInLock(t, InvalidateDeleting);
        } else {
          Finish(t);
        }
      }
    }

    /** `invalidate_session`: the delete has answered. */
    method FinishInvalidate(t: Task, answer: Answer)
      modifies this`state, this`stored, this`calls, this`lock
      ensures View() == RemoveSection(old(View()), t, InvalidateDeleting, answer)
    {
      if answer.Stored? && (answer.ok ==> answer.applied) {
        if answer.applied {
          stored := None;
        }
        if !answer.ok {
          state := Failed;
        }
        Finish(t);
      }
    }

    /** `_evict_session_after_idle`. */
    method EvictSession(t: Task, p: Point, answer: Answer)
      requires p.EvictWait? || p.EvictClearing?
      modifies this`state, this`session, this`calls, this`lock
      ensures View() == RemoveSection(old(View()), t, p, answer)
    {
      match p
      case EvictWait =>
        if lock.None? {
          if session.None? {
            Finish(t);
          } else {
            session, state := None, Idle;
            SuspendInLock(t, EvictClearing);
          }
        }
      case EvictClearing => Finish(t);
    }

    /** `cancel`. */
    method Cancel(t: Task)
      modifies this`state, this`attempt, this`calls, this`lock
      ensures View() == ViewSection(old(View()), t, CancelWait, Go)
    {
      if lock.None? {
        attempt, state := None, Disconnected;
        Finish(t);
      }
    }

    /** `keep_connected` and the end of `ensure_account_session`. */
    method KeepConnected(t: Task, p: Point)
      requires p == KeepWait || p == EnsureWait
      modifies this`state, this`calls, this`lock
      ensures View() == ViewSection(old(View()), t, p, Go)
    {
      if lock.None? {
        if session.Some? {
          state := Connected;
        }
        Finish(t);
      }
    }

    /** `open_browser` and `open_disconnect_browser`: nothing to open, or start the listener. */
    method OpenBrowser(t: Task, d: bool)
      modifies this`state, this`calls, this`lock
      ensures View() == ViewSection(old(View()), t, OpenWait(d), Go)
    {
      if lock.None? {
        if d && session.None? {
          state := Disconnected;
          Finish(t);
        } else if !d && state == Connected {
          Finish(t);
        } else {
          SuspendInLock(t, OpenListening(d));
        }
      }
    }

    /** The listener is up, or was already. */
    method ListenerStarted(t: Task, d: bool, answer: Answer)
      modifies this`state, this`calls, this`lock
      ensures View() == ViewSection(old(View()), t, OpenListening(d), answer)
    {
      if answer.Listening? {
        if !answer.ok {
          Finish(t);
        } else {
          if d {
            state := AwaitingDisconnect;
          } else if answer.isNew || state in {Disconnected, Denied, TimedOut, Failed} {
            state := AwaitingApproval;
          }
          Suspend(t, Opening(d));
        }
      }
    }

    /** `open_browser` and `open_disconnect_browser`: the page was opened or not. */
    method BrowserOpened(t: Task, p: Point, answer: Answer)
      requires p.Opening? || p.OpenFailWait?
      modifies this`state, this`calls, this`lock
      ensures View() == ViewSection(old(View()), t, p, answer)
    {
      match p
      case Opening(d) =>
        if answer.Opened? {
          if answer.ok {
            Finish(t);
          } else {
            Suspend(t, OpenFailWait(d));
          }
        }
      case OpenFailWait(d) =>
        if lock.None? {
          state := if d then Connected else Failed;
          Finish(t);
        }
    }

    /** A new call runs up to its first await. */
    method Call(t: Task, call: Call)
      modifies this`calls
      ensures View() == Step(old(View()), Begin(t, call))
    {
      if t in calls || (call.AttemptTimeout? && call.a >= attemptsMade) {
        return;
      }
      var p := RestoreWait(Return);
      match call {
        case Restore =>
        case Approve => p := ApproveWait;
        case Poll => p := PollWait;
        case AttemptTimeout(a) => p := FinishWait(a, TimedOut, None);
        case Disconnect => p := if state == Idle then RestoreWait(ThenDisconnect) else DisconnectWait;
        case IdleTimeout => p := EvictWait;
        case Invalidate => p := InvalidateWait;
        case Cancel => p := CancelWait;
        case Keep => p := KeepWait;
        case Ensure => p := if session.None? then RestoreWait(ThenEnsure) else EnsureWait;
        case Open(d) => p := if state == Idle then RestoreWait(ThenOpen(d)) else OpenWait(d);
      }
      calls := calls[t := p];
    }

    method ResumeRestore(t: Task, p: Point, answer: Answer)
      requires InRestore(p)
      modifies this`state, this`session, this`stored, this`log, this`calls, this`lock
      ensures View() == RestoreSection(old(View()), t, p, answer)
    {
      if p.RestoreDeleting? || p.RestoreSaving? {
        RestoreStored(t, p, answer);
      } else {
        Restore(t, p, answer);
      }
    }

    method ResumeApprove(t: Task, p: Point, answer: Answer)
      requires InApprove(p)
      modifies this`state, this`attempt, this`attemptsMade, this`log, this`calls, this`lock
      ensures View() == ApproveSection(old(View()), t, p, answer)
    {
      if p.ApproveWait? || p.ApproveStarting? {
        Approve(t, p, answer);
      } else {
        ApproveStarted(t, p, answer);
      }
    }

    method ResumePoll(t: Task, p: Point, answer: Answer)
      requires InPoll(p)
      modifies this`state, this`attempt, this`session, this`stored, this`log, this`calls, this`lock
      ensures View() == PollSection(old(View()), t, p, answer)
    {
      if p.PollWait? || p.PollCollecting? {
        Poll(t, p, answer);
      } else {
        FinishAttempt(t, p, answer);
      }
    }

    method ResumeRemove(t: Task, p: Point, answer: Answer)
      requires InRemove(p)
      modifies this`state, this`attempt, this`session, this`stored, this`log, this`calls, this`lock
      ensures View() == RemoveSection(old(View()), t, p, answer)
    {
      if p.DisconnectWait? {
        Disconnect(t);
      } else if p.DisconnectDeleting? {
        FinishDisconnect(t, answer);
      } else if p.InvalidateWait? {
        InvalidateSession(t);
      } else if p.InvalidateDeleting? {
        FinishInvalidate(t, answer);
      } else {
        EvictSession(t, p, answer);
      }
    }

    method ResumeView(t: Task, p: Point, answer: Answer)
      requires !InRestore(p) && !InApprove(p) && !InPoll(p) && !InRemove(p)
      modifies this`state, this`attempt, this`calls, this`lock
      ensures View() == ViewSection(old(View()), t, p, answer)
    {
      if p.CancelWait? {
        Cancel(t);
      } else if p.KeepWait? || p.EnsureWait? {
        KeepConnected(t, p);
      } else if p.OpenWait? {
        OpenBrowser(t, p.disconnecting);
      } else if p.OpenListening? {
        ListenerStarted(t, p.disconnecting, answer);
      } else {
        BrowserOpened(t, p, answer);
      }
    }

    method Resume(t: Task, answer: Answer)
      requires t in calls
      modifies this
      ensures View() == Section(old(View()), t, old(calls[t]), answer)
    {
      var p := calls[t];
      if InRestore(p) {
        ResumeRestore(t, p, answer);
      } else if InApprove(p) {
        ResumeApprove(t, p, answer);
      } else if InPoll(p) {
        ResumePoll(t, p, answer);
      } else if InRemove(p) {
        ResumeRemove(t, p, answer);
      } else {
        ResumeView(t, p, answer);
      }
    }

    /** A call is cancelled; a store write it was waiting for stays on its way. */
    method CancelCall(t: Task)
      requires t in calls
      modifies this`calls, this`lock, this`late
      ensures View() == Step(old(View()), Abort(t))
    {
      late := LeftBehind(late, calls[t]);
      Finish(t);
    }

    method LateWrite(e: Event)
      requires e.LateSave? || e.LateDelete?
      modifies this`stored, this`late, this`log
      ensures View() == Step(old(View()), e)
    {
      if e.LateSave? {
        if e.i < |late.saves| {
          var (source, v) := late.saves[e.i];
          stored, log := Some(v), log + [Saved(source, v)];
          late := late.(saves := late.saves[..e.i] + late.saves[e.i + 1..]);
        }
      } else if late.deletes > 0 {
        stored, late := None, late.(deletes := late.deletes - 1);
      }
    }

    method Handle(e: Event)
      modifies this
      ensures View() == Step(old(View()), e)
    {
      match e
      case Begin(t, call) => Call(t, call);
      case Resume(t, answer) =>
        if t in calls { Resume(t, answer); }
      case Abort(t) =>
        if t in calls { CancelCall(t); }
      case _ => LateWrite(e);
    }

    /** Any events; the fields end as the history tells. */
    method Replay(events: seq<Event>)
      modifies this
      ensures View() == Run(old(View()), events)
      ensures session == SessionHistory(old(View()), events)
      ensures attempt == AttemptHistory(old(View()), events)
      ensures stored == StoreHistory(old(View()), events)
    {
      HistoryTells(View(), events);
      for i := 0 to |events|
        invariant View() == Run(old(View()), events[..i])
      {
        assert events[..i + 1][..i] == events[..i];
        Handle(events[i]);
      }
      assert events[..|events|] == events;
    }

    /**
    Any run, a disconnect that completes with a successful delete while no cancelled save
    is on its way, and any continuation: as long as no approval creates an attempt,
    nobody is logged in and nothing is stored.
    */
    method DisconnectAndReplay(before: seq<Event>, e: Event, after: seq<Event>) returns (disconnected: bool, since: nat)
      requires View() == Initial(hasStore, stored)
      modifies this
      ensures since <= |log|
      ensures disconnected && (forall i | since <= i < |log| :: !log[i].Created?) ==>
                session == None && stored == None && forall i | since <= i < |log| :: !log[i].Installed? && !log[i].Saved?
    {
      ghost var saved := stored;
      Replay(before);
      ghost var s := View();
      var was := log;
      Handle(e);
      ghost var done := View();
      disconnected, since := log == was + [DisconnectDone(true)] && late.saves == [], |log|;
      Replay(after);
      RunLogGrows(done, after);
      if disconnected && forall i | since <= i < |log| :: !log[i].Created? {
        DisconnectWins(hasStore, saved, before, e, s, done);
        assert Extends(done.log, Run(done, after).log, NothingCreated);
        assert LoggedOut(done.log, Run(done, after));
      }
    }

    /**
    Any run, a poll that collects a session, and any other calls around it: if its attempt
    is still the current one when it gets the lock, and the save succeeds, the fields hold
    that session.
    */
    method CompleteLogin(before: seq<Event>, t: Task, v: Session, between: seq<Event>, saving: seq<Event>)
      returns (current: bool)
      requires View() == Initial(hasStore, stored) && Others(between, t) && Others(saving, t)
      modifies this
      ensures current <==> CollectsForCurrent(old(View()), before, t, v, between)
      ensures current ==> session == Some(v) && attempt == None && state == Connected
      ensures current && hasStore ==> stored == Some(v)
    {
      hide Step, SessionHistory, AttemptHistory, StoreHistory;
      ghost var saved := stored;
      Replay(before);
      if t !in calls || !calls[t].PollCollecting? {
        return false;
      }
      var a := calls[t].a;
      Handle(Event.Resume(t, Collected(Connected, Some(v))));
      Replay(between);
      if lock.Some? || attempt != Some(a) {
        return false;
      }
      ghost var waiting := View();
      Handle(Event.Resume(t, Go));
      if hasStore {
        Replay(saving);
        Handle(Event.Resume(t, Stored(true, true)));
      }
      LoginCompletes(hasStore, saved, before, t, a, v, between, saving, waiting, View());
      current := true;
    }

    /**
    Any run that leaves a stored session, nobody logged in and a restore waiting for the
    free lock: the restore ends with what the upstream says about the stored session.
    */
    method CompleteRestore(before: seq<Event>, t: Task, verdict: Option<Session>) returns (restored: bool)
      requires View() == Initial(hasStore, stored)
      modifies this
      ensures var s := Run(old(View()), before);
              restored <==> && t in s.calls && s.calls[t] == RestoreWait(Return)
                            && hasStore && s.store.Some? && s.session.None? && s.lock.None?
      ensures restored ==> session == verdict && stored == verdict && t !in calls
      ensures restored ==> state == if verdict.Some? then Connected else Disconnected
    {
      hide Step, SessionHistory, AttemptHistory, StoreHistory, Inv;
      ghost var start := View();
      Replay(before);
      if t !in calls || calls[t] != RestoreWait(Return) || !hasStore || stored.None? || session.Some? || lock.Some? {
        return false;
      }
      InitialInv(hasStore, start.store);
      RunKeepsInv(start, before);
      ghost var events, n := RestoreCompletes(View(), t, Return, stored.value, verdict);
      Replay([Event.Resume(t, Go), Event.Resume(t, Loaded(true)), Event.Resume(t, Validated(verdict)), Event.Resume(t, Stored(true, true))]);
      restored := true;
    }
  }
}
