/**
The persistent mode of `AuthProcessBroker` (`auth/broker.py`) together with the
worker processes it starts (`auth/worker.py`) and the credential store they share.

Broker calls interleave at their awaits behind the operation lock and the market
lock; workers act on the store between any two of those steps, and a terminated
worker may do so until it has ended, whether or not a call still waits for its end.
`status`, `health_status` and `aclose` are not part of this model.
*/
module Broker {
  import opened Wrappers

  type Task = nat
  type Pid = nat
  type Session = nat

  datatype Kind = Market | Once | ConnectUi | DisconnectUi

  /**
  A worker: whether it is executing a command, the stored session it has loaded and
  may still write back, and whether a UI worker has finished its flow.
  */
  datatype Worker = Worker(kind: Kind, alive: bool, busy: bool, loaded: Option<Session>, finished: bool)

  /** `MarketRead` stands for market requests, batches, order depth and warming. */
  datatype Op = Connect | Disconnect | Account | MarketRead

  /** Where the call that holds the operation lock is suspended. */
  datatype Point =
    | WantStop(op: Op)                         // `_stop_market_daemon`: waiting for the market lock
    | Shutdown(op: Op, p: Pid)                 // awaiting the shutdown answer
    | ShutdownStopping(op: Op, p: Pid, cancelled: bool)
    | WantWorker(op: Op)                       // about to spawn a once or UI worker
    | OnceAwait(p: Pid)
    | UiAwait(p: Pid)
    | WantMarket                               // waiting for the market lock
    | MarketSpawn
    | MarketAwait(p: Pid)
    | Stopping(p: Pid)                         // awaiting the end of a worker, then leaving

  /** Every call waits for the operation lock first; its owner is the only call further on. */
  datatype Owner = Owner(t: Task, at: Point)

  datatype Event =
    | Begin(t: Task, op: Op)
    | Go(t: Task)             // a lock is granted or a spawn completes
    | Answered(t: Task)       // the awaited frame arrives
    | Fail(t: Task, cancelled: bool) // cancellation; or timeout, end of stream, bad frame, failed spawn
    | Exited(t: Task)         // the awaited process has ended
    | Load(p: Pid)            // worker steps
    | SaveRefreshed(p: Pid, refreshed: Session, applied: bool)
    | DeleteInvalid(p: Pid, applied: bool)
    | DropLoaded(p: Pid)
    | Complete(p: Pid)
    | UiLogin(p: Pid, session: Session, applied: bool)
    | UiDelete(p: Pid, applied: bool)
    | UiFinish(p: Pid)
    | Die(p: Pid)

  datatype Effect = Stored(p: Pid) | LoggedIn(p: Pid) | Deleted(p: Pid)

  datatype State = State(store: Option<Session>, waiting: map<Task, Op>, operation: Option<Owner>,
                         marketLock: Option<Task>, marketSlot: Option<Pid>, ui: Option<Pid>,
                         workers: map<Pid, Worker>, nextPid: Pid, log: seq<Effect>)

  function Initial(stored: Option<Session>): State {
    State(stored, map[], None, None, None, None, map[], 0, [])
  }

  predicate Alive(s: State, p: Pid) {
    p in s.workers && s.workers[p].alive
  }

  predicate UiLive(s: State) {
    s.ui.Some? && Alive(s, s.ui.value)
  }

  /** `_persistent_disconnect_active`. */
  predicate DisconnectActive(s: State) {
    UiLive(s) && s.workers[s.ui.value].kind == DisconnectUi
  }

  function Kill(s: State, p: Pid): State {
    if p in s.workers then s.(workers := s.workers[p := s.workers[p].(alive := false)]) else s
  }

  predicate Owns(s: State, t: Task) {
    s.operation.Some? && s.operation.value.t == t
  }

  function Move(s: State, t: Task, at: Point): State {
    s.(operation := Some(Owner(t, at)))
  }

  /** The call is over: it leaves both locks. */
  function Leave(s: State, t: Task): State {
    s.(operation := None, marketLock := if s.marketLock == Some(t) then None else s.marketLock)
  }

  /** Retire a worker: clear the slot if it is there, terminate it, and wait for its end. */
  function Retire(s: State, t: Task, p: Pid): State {
    Move(s.(marketSlot := if s.marketSlot == Some(p) then None else s.marketSlot), t, Stopping(p))
  }

  function SpawnWorker(s: State, kind: Kind): State {
    s.(workers := s.workers[s.nextPid := Worker(kind, true, true, None, false)], nextPid := s.nextPid + 1)
  }

  /** The operation lock is granted; gated operations check for a pending disconnect. */
  function EnterStep(s: State, t: Task): State
    requires t in s.waiting
  {
    var op := s.waiting[t];
    var entered := s.(waiting := s.waiting - {t});
    if s.operation.Some? then s
    else if (op == Account || op == MarketRead) && DisconnectActive(s) then entered
    else Move(entered, t, if op == MarketRead then WantMarket else WantStop(op))
  }

  /** The market lock is granted, or a spawn completes. */
  function GoStep(s: State, t: Task): State
    requires Owns(s, t)
  {
    match s.operation.value.at
    case WantStop(op) =>
      if s.marketLock.Some? then s
      else
        var cleared := s.(marketSlot := None);
        if s.marketSlot.Some? && Alive(s, s.marketSlot.value)
        then Move(cleared.(marketLock := Some(t)), t, Shutdown(op, s.marketSlot.value))
        else Move(cleared, t, WantWorker(op))
    case WantWorker(op) =>
      if op == Account then Move(SpawnWorker(s, Once), t, OnceAwait(s.nextPid))
      else if UiLive(s) then Leave(s, t)
      else
        Move(SpawnWorker(s, if op == Connect then ConnectUi else DisconnectUi).(ui := Some(s.nextPid)), t,
             UiAwait(s.nextPid))
    case WantMarket =>
      if s.marketLock.Some? then s
      else
        var held := s.(marketLock := Some(t));
        if s.marketSlot.Some? && Alive(s, s.marketSlot.value)
        then
          var p := s.marketSlot.value;
          Move(held.(workers := s.workers[p := s.workers[p].(busy := true)]), t, MarketAwait(p))
        else Move(held.(marketSlot := None), t, MarketSpawn)
    case MarketSpawn => Move(SpawnWorker(s, Market).(marketSlot := Some(s.nextPid)), t, MarketAwait(s.nextPid))
    case _ => s
  }

  predicate Busy(s: State, p: Pid) {
    p in s.workers && s.workers[p].busy
  }

  /** The awaited frame arrives: the worker has completed the command. */
  function AnsweredStep(s: State, t: Task): State
    requires Owns(s, t)
  {
    match s.operation.value.at
    case Shutdown(op, p) => Move(s, t, ShutdownStopping(op, p, false))
    case OnceAwait(p) => if Busy(s, p) then s else Move(s, t, Stopping(p))
    case UiAwait(p) => if Busy(s, p) then s else Leave(s, t)
    case MarketAwait(p) => if Busy(s, p) then s else Leave(s, t)
    case _ => s
  }

  /**
  The call is cancelled, or what it awaits fails.  A cancelled wait for the end of a
  once or market worker that was sent a command goes on; a market worker that is being
  shut down, or a UI worker, is left to end by itself.
  */
  function FailStep(s: State, t: Task, cancelled: bool): State
    requires Owns(s, t)
  {
    match s.operation.value.at
    case Shutdown(op, p) => Move(s, t, ShutdownStopping(op, p, cancelled))
    case ShutdownStopping(_, _, _) => if cancelled then Leave(s, t) else s
    case OnceAwait(p) => Retire(s, t, p)
    case UiAwait(p) => Retire(s, t, p)
    case MarketAwait(p) => Retire(s, t, p)
    case Stopping(p) => if cancelled && s.ui == Some(p) then Leave(s, t) else s
    case WantWorker(_) => Leave(s, t)
    case MarketSpawn => Leave(s, t)
    case _ => if cancelled then Leave(s, t) else s
  }

  /** The awaited process has ended, terminated if it had to be. */
  function ExitedStep(s: State, t: Task): State
    requires Owns(s, t)
  {
    match s.operation.value.at
    case ShutdownStopping(op, p, cancelled) =>
      if cancelled then Leave(Kill(s, p), t) else Move(Kill(s, p).(marketLock := None), t, WantWorker(op))
    case Stopping(p) => Leave(Kill(s, p), t)
    case _ => s
  }

  /** What an alive worker does to the store. */
  function WorkerStep(s: State, e: Event): State
    requires e.Load? || e.SaveRefreshed? || e.DeleteInvalid? || e.DropLoaded? || e.Complete?
          || e.UiLogin? || e.UiDelete? || e.UiFinish? || e.Die?
  {
    if !Alive(s, e.p) then s
    else
      var w := s.workers[e.p];
      var idle := s.(workers := s.workers[e.p := w.(loaded := None)]);
      match e
      case Load(p) =>
        if w.busy && w.loaded.None? then s.(workers := s.workers[p := w.(loaded := s.store)]) else s
      case SaveRefreshed(p, v, applied) =>
        if w.loaded.None? then s
        else if applied then idle.(store := Some(v), log := s.log + [Stored(p)])
        else idle
      case DeleteInvalid(_, applied) =>
        if w.loaded.None? then s else if applied then idle.(store := None) else idle
      case DropLoaded(_) => idle
      case Complete(p) => s.(workers := s.workers[p := w.(busy := false, loaded := None)])
      case UiLogin(p, v, applied) =>
        if w.kind != ConnectUi || w.busy || w.finished then s
        else
          var done := s.(workers := s.workers[p := w.(finished := true)]);
          if applied then done.(store := Some(v), log := s.log + [LoggedIn(p)]) else done
      case UiDelete(p, applied) =>
        if w.kind != DisconnectUi || w.busy || w.finished then s
        else
          var done := s.(workers := s.workers[p := w.(finished := true)]);
          if applied then done.(store := None, log := s.log + [Deleted(p)]) else done
      case UiFinish(p) => s.(workers := s.workers[p := w.(finished := true)])
      case Die(p) => Kill(s, p)
  }

  /** Events that are not enabled change nothing. */
  function Step(s: State, e: Event): State {
    match e
    case Begin(t, op) => if t in s.waiting || Owns(s, t) then s else s.(waiting := s.waiting[t := op])
    case Go(t) => if t in s.waiting then EnterStep(s, t) else if Owns(s, t) then GoStep(s, t) else s
    case Answered(t) => if Owns(s, t) then AnsweredStep(s, t) else s
    case Fail(t, cancelled) =>
      if Owns(s, t) then FailStep(s, t, cancelled)
      else if cancelled then s.(waiting := s.waiting - {t})
      else s
    case Exited(t) => if Owns(s, t) then ExitedStep(s, t) else s
    case _ => WorkerStep(s, e)
  }

  function Run(s: State, events: seq<Event>): State {
    if events == [] then s else Step(Run(s, events[..|events| - 1]), events[|events| - 1])
  }
}
