/**
`AuthProcessBroker` as the object it is: one method per stretch between awaits of
its coroutines, assigning the locks and slots in place, and `Handle`, which runs one
event.  `Replay` runs any events and `DeleteAndReplay` states on the fields what the
proofs about all runs promise; workers and the store are the environment.
*/
module BrokerObject {
  import opened Wrappers
  import opened Broker
  import opened BrokerLaws
  import opened BrokerProofs

  class AuthProcessBroker {
    var waiting: map<Task, Op>
    var operation: Option<Owner>
    var marketLock: Option<Task>
    var marketDaemon: Option<Pid>
    var uiProcess: Option<Pid>
    var workers: map<Pid, Worker>
    var spawned: Pid
    var store: Option<Session>
    var log: seq<Effect>

    ghost function View(): State
      reads this
    {
      State(store, waiting, operation, marketLock, marketDaemon, uiProcess, workers, spawned, log)
    }

    constructor (stored: Option<Session>)
      ensures View() == Initial(stored)
    {
      waiting, operation, marketLock, marketDaemon, uiProcess := map[], None, None, None, None;
      workers, spawned, store, log := map[], 0, stored, [];
    }

    predicate Running(p: Option<Pid>)
      reads this
      ensures Running(p) <==> p.Some? && Alive(View(), p.value)
    {
      p.Some? && p.value in workers && workers[p.value].alive
    }

    method SuspendAt(t: Task, at: Point)
      modifies this`operation
      ensures View() == Move(old(View()), t, at)
    {
      operation := Some(Owner(t, at));
    }

    method LeaveLocks(t: Task)
      modifies this`operation, this`marketLock
      ensures View() == Leave(old(View()), t)
    {
      operation := None;
      if marketLock == Some(t) {
        marketLock := None;
      }
    }

    method StopProcess(p: Pid)
      modifies this`workers
      ensures View() == Kill(old(View()), p)
    {
      if p in workers {
        workers := workers[p := workers[p].(alive := false)];
      }
    }

    method RetireWorker(t: Task, p: Pid)
      modifies this`marketDaemon, this`operation
      ensures View() == Retire(old(View()), t, p)
    {
      if marketDaemon == Some(p) {
        marketDaemon := None;
      }
      SuspendAt(t, Stopping(p));
    }

    method Spawn(kind: Kind) returns (p: Pid)
      modifies this`workers, this`spawned
      ensures View() == SpawnWorker(old(View()), kind) && p == old(spawned)
    {
      p := spawned;
      workers := workers[p := Worker(kind, true, true, None, false)];
      spawned := spawned + 1;
    }

    /** The operation lock is granted. */
    method Enter(t: Task)
      requires t in waiting
      modifies this
      ensures View() == EnterStep(old(View()), t)
    {
      if operation.Some? {
        return;
      }
      var op := waiting[t];
      waiting := waiting - {t};
      var disconnecting := Running(uiProcess) && workers[uiProcess.value].kind == DisconnectUi;
      if (op == Account || op == MarketRead) && disconnecting {
        return;
      }
      SuspendAt(t, if op == MarketRead then WantMarket else WantStop(op));
    }

    /** `_stop_market_daemon` with the market lock granted. */
    method StopMarketDaemon(t: Task, op: Op)
      requires operation == Some(Owner(t, WantStop(op)))
      modifies this
      ensures View() == GoStep(old(View()), t)
    {
      if marketLock.Some? {
        return;
      }
      var process := marketDaemon;
      var running := Running(process);
      marketDaemon := None;
      if running {
        marketLock := Some(t);
        SuspendAt(t, Shutdown(op, process.value));
      } else {
        SuspendAt(t, WantWorker(op));
      }
    }

    /** `_run_once` and `_start_persistent_ui` up to the awaited answer. */
    method StartWorker(t: Task, op: Op)
      requires operation == Some(Owner(t, WantWorker(op)))
      modifies this
      ensures View() == GoStep(old(View()), t)
    {
      if op == Account {
        var p := Spawn(Once);
        SuspendAt(t, OnceAwait(p));
      } else if Running(uiProcess) {
        LeaveLocks(t);
      } else {
        var p := Spawn(if op == Connect then ConnectUi else DisconnectUi);
        uiProcess := Some(p);
        SuspendAt(t, UiAwait(p));
      }
    }

    /** `_persistent_market_command` with the market lock granted. */
    method PersistentMarketCommand(t: Task)
      requires operation == Some(Owner(t, WantMarket))
      modifies this
      ensures View() == GoStep(old(View()), t)
    {
      if marketLock.Some? {
        return;
      }
      marketLock := Some(t);
      if Running(marketDaemon) {
        var p := marketDaemon.value;
        workers := workers[p := workers[p].(busy := true)];
        SuspendAt(t, MarketAwait(p));
      } else {
        marketDaemon := None;
        SuspendAt(t, MarketSpawn);
      }
    }

    method SpawnMarketDaemon(t: Task)
      requires operation == Some(Owner(t, MarketSpawn))
      modifies this
      ensures View() == GoStep(old(View()), t)
    {
      var p := Spawn(Market);
      marketDaemon := Some(p);
      SuspendAt(t, MarketAwait(p));
    }

    /** The frame `_command` waits for has arrived. */
    method FrameArrived(t: Task)
      requires operation.Some? && operation.value.t == t
      modifies this
      ensures View() == AnsweredStep(old(View()), t)
    {
      match operation.value.at
      case Shutdown(op, p) => SuspendAt(t, ShutdownStopping(op, p, false));
      case OnceAwait(p) =>
        if !(p in workers && workers[p].busy) { SuspendAt(t, Stopping(p)); }
      case UiAwait(p) =>
        if !(p in workers && workers[p].busy) { LeaveLocks(t); }
      case MarketAwait(p) =>
        if !(p in workers && workers[p].busy) { LeaveLocks(t); }
      case _ =>
    }

    /** A cancellation, timeout, closed or malformed pipe, or failed spawn is raised at the await. */
    method Raised(t: Task, cancelled: bool)
      requires operation.Some? && operation.value.t == t
      modifies this
      ensures View() == FailStep(old(View()), t, cancelled)
    {
      match operation.value.at
      case Shutdown(op, p) => SuspendAt(t, ShutdownStopping(op, p, cancelled));
      case ShutdownStopping(_, _, _) =>
        if cancelled { LeaveLocks(t); }
      case OnceAwait(p) => RetireWorker(t, p);
      case UiAwait(p) => RetireWorker(t, p);
      case MarketAwait(p) => RetireWorker(t, p);
      case Stopping(p) =>
        if cancelled && uiProcess == Some(p) { LeaveLocks(t); }
      case WantWorker(_) => LeaveLocks(t);
      case MarketSpawn => LeaveLocks(t);
      case _ => if cancelled { LeaveLocks(t); }
    }

    /** `_stop_process` returns: the process is gone. */
    method Stopped(t: Task)
      requires operation.Some? && operation.value.t == t
      modifies this
      ensures View() == ExitedStep(old(View()), t)
    {
      match operation.value.at
      case ShutdownStopping(op, p, cancelled) =>
        StopProcess(p);
        if cancelled {
          LeaveLocks(t);
        } else {
          marketLock := None;
          SuspendAt(t, WantWorker(op));
        }
      case Stopping(p) =>
        StopProcess(p);
        LeaveLocks(t);
      case _ =>
    }

    /** `Begin`: the call queues for the operation lock. */
    method Queue(t: Task, op: Op)
      modifies this`waiting
      ensures View() == Step(old(View()), Begin(t, op))
    {
      if t !in waiting && !(operation.Some? && operation.value.t == t) {
        waiting := waiting[t := op];
      }
    }

    /** The lock or the spawn that the owner waits for is granted. */
    method Granted(t: Task)
      requires operation.Some? && operation.value.t == t
      modifies this
      ensures View() == GoStep(old(View()), t)
    {
      match operation.value.at
      case WantStop(op) => StopMarketDaemon(t, op);
      case WantWorker(op) => StartWorker(t, op);
      case WantMarket => PersistentMarketCommand(t);
      case MarketSpawn => SpawnMarketDaemon(t);
      case _ =>
    }

    /** A worker acts on its own: the environment's step, taken from its specification. */
    method WorkerActs(e: Event)
      requires IsWorkerEvent(e)
      modifies this`workers, this`store, this`log
      ensures View() == WorkerStep(old(View()), e)
    {
      var r := WorkerStep(State(store, waiting, operation, marketLock, marketDaemon, uiProcess, workers, spawned, log), e);
      WorkerFrame(View(), e);
      workers, store, log := r.workers, r.store, r.log;
    }

    method Handle(e: Event)
      modifies this
      ensures View() == Step(old(View()), e)
    {
      match e
      case Begin(t, op) => Queue(t, op);
      case Go(t) =>
        if t in waiting {
          Enter(t);
        } else if operation.Some? && operation.value.t == t {
          Granted(t);
        }
      case Answered(t) =>
        if operation.Some? && operation.value.t == t { FrameArrived(t); }
      case Fail(t, cancelled) =>
        if operation.Some? && operation.value.t == t {
          Raised(t, cancelled);
        } else if cancelled {
          waiting := waiting - {t};
        }
      case Exited(t) =>
        if operation.Some? && operation.value.t == t { Stopped(t); }
      case _ => WorkerActs(e);
    }

    /** Any events; the store ends as the writes of the workers tell. */
    method Replay(events: seq<Event>)
      modifies this
      ensures View() == Run(old(View()), events)
      ensures store == StoreHistory(old(View()), events)
    {
      HistoryTells(View(), events);
      for i := 0 to |events|
        invariant View() == Run(old(View()), events[..i])
      {
        assert events[..i + 1][..i] == events[..i];
        Handle(events[i]);
      }
      assert events[..|events|] == events;
    }

    /**
    A broker that ran `before`, whose disconnect UI worker then deletes the stored
    session, and that runs `after`: if nobody has logged in since, the store is empty
    and nothing has been saved, whatever was cancelled, killed or left running.
    */
    method DeleteAndReplay(before: seq<Event>, p: Pid, after: seq<Event>) returns (deletedAt: nat)
      requires View() == Initial(store)
      modifies this
      ensures deletedAt <= |log|
      ensures deletedAt > 0 && log[deletedAt - 1] == Deleted(p) && (forall i | deletedAt <= i < |log| :: !log[i].LoggedIn?) ==>
                store == None && forall i | deletedAt <= i < |log| :: !log[i].Stored?
    {
      ghost var stored := store;
      Replay(before);
      ghost var s := View();
      var was := |log|;
      Handle(UiDelete(p, true));
      deletedAt := if |log| > was then |log| else 0;
      ghost var d := View();
      Replay(after);
      RunExtends(d, after);
      if deletedAt > 0 && log[deletedAt - 1] == Deleted(p) && forall i | deletedAt <= i < |log| :: !log[i].LoggedIn? {
        assert d.log == s.log + [Deleted(p)];
        assert Extends(d.log, log, true, false);
        DeletedStaysDeleted(stored, before, p, after, s, d, View());
      }
    }
  }
}
