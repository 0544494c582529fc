/**
What the broker's workers leave in the credential store, read off their writes; and the
whole flows of an undisturbed operation: an account read, a login, a disconnect and a
market read that reuses its worker.
*/
module BrokerLaws {
  import opened Wrappers
  import opened Broker
  import opened BrokerProofs

  // ---- the store is what was written last ----

  /** The worker is alive, has loaded a session and may write it back. */
  predicate MayWriteBack(s: State, p: Pid) {
    p in s.workers && s.workers[p].alive && s.workers[p].loaded.Some?
  }

  /** The UI worker of this kind is alive and still in its flow. */
  predicate InFlow(s: State, p: Pid, kind: Kind) {
    && p in s.workers && s.workers[p].alive && s.workers[p].kind == kind
    && !s.workers[p].busy && !s.workers[p].finished
  }

  /** What the event writes to the store: a session, nothing at all, or its removal. */
  function Write(s: State, e: Event): Option<Option<Session>> {
    match e
    case SaveRefreshed(p, v, true) => if MayWriteBack(s, p) then Some(Some(v)) else None
    case DeleteInvalid(p, true) => if MayWriteBack(s, p) then Some(None) else None
    case UiLogin(p, v, true) => if InFlow(s, p, ConnectUi) then Some(Some(v)) else None
    case UiDelete(p, true) => if InFlow(s, p, DisconnectUi) then Some(None) else None
    case _ => None
  }

  /** What the event adds to the history. */
  function Logged(s: State, e: Event): seq<Effect> {
    match e
    case SaveRefreshed(p, _, true) => if MayWriteBack(s, p) then [Stored(p)] else []
    case UiLogin(p, _, true) => if InFlow(s, p, ConnectUi) then [LoggedIn(p)] else []
    case UiDelete(p, true) => if InFlow(s, p, DisconnectUi) then [Deleted(p)] else []
    case _ => []
  }

  lemma StepWrites(s: State, e: Event)
    ensures Step(s, e).store == match Write(s, e) case Some(written) => written case None => s.store
    ensures Step(s, e).log == s.log + Logged(s, e)
  {
    if IsWorkerEvent(e) {
      WorkerWrites(s, e);
    } else {
      BrokerLeavesStore(s, e);
    }
  }

  lemma WorkerWrites(s: State, e: Event)
    requires IsWorkerEvent(e)
    ensures Step(s, e).store == match Write(s, e) case Some(written) => written case None => s.store
    ensures Step(s, e).log == s.log + Logged(s, e)
  {
  }

  /** The last write of the events decides. */
  function StoreHistory(start: State, events: seq<Event>): Option<Session> {
    if events == [] then start.store
    else
      var before := events[..|events| - 1];
      match Write(Run(start, before), events[|events| - 1])
      case Some(written) => written
      case None => StoreHistory(start, before)
  }

  /** After every run the store holds what was written last, and what is written is what a worker saves or removes. */
  lemma {:induction false} HistoryTells(start: State, events: seq<Event>)
    ensures Run(start, events).store == StoreHistory(start, events)
  {
    if events != [] {
      hide Step, Write;
      HistoryTells(start, events[..|events| - 1]);
      StepWrites(Run(start, events[..|events| - 1]), events[|events| - 1]);
    }
  }

  /** A worker that executes a command loads what is stored. */
  lemma LoadReadsStore(s: State, p: Pid)
    requires p in s.workers && s.workers[p].alive && s.workers[p].busy && s.workers[p].loaded.None?
    ensures var n := Step(s, Load(p)); p in n.workers && n.workers[p].loaded == s.store && n.store == s.store && n.log == s.log
  {
  }

  // ---- workers that fail ----

  /** A worker whose answer fails to come leaves its slot at once and is waited for; when it has ended it is dead. */
  lemma FailedWorkerIsRetired(s: State, t: Task, p: Pid, cancelled: bool)
    requires Owns(s, t)
    requires s.operation.value.at == OnceAwait(p) || s.operation.value.at == UiAwait(p) || s.operation.value.at == MarketAwait(p)
    ensures var n := Step(s, Fail(t, cancelled));
            && n.operation == Some(Owner(t, Stopping(p))) && n.marketSlot != Some(p)
            && (s.marketSlot != Some(p) ==> n.marketSlot == s.marketSlot)
            && n.store == s.store && n.workers == s.workers
            && var m := Step(n, Exited(t));
               m.operation == None && m.marketLock != Some(t) && m.marketSlot != Some(p) && !Alive(m, p)
  {
  }

  // ---- whole flows ----

  lemma RunNothing(s: State)
    ensures Run(s, []) == s
  {
  }

  lemma OneMoreEvent(start: State, events: seq<Event>, s: State, e: Event) returns (longer: seq<Event>, n: State)
    requires Run(start, events) == s
    ensures longer == events + [e] && n == Step(s, e) && Run(start, longer) == n
  {
    longer, n := events + [e], Step(s, e);
    assert longer[..|events|] == events;
  }

  /** No call runs or waits, no market worker is kept and no UI worker is live. */
  predicate AtRest(s: State) {
    s.waiting == map[] && s.operation.None? && s.marketLock.None? && s.marketSlot.None? && !UiLive(s)
  }

  /** The state with one more worker, executing its command. */
  function With(s: State, kind: Kind): State {
    s.(workers := s.workers[s.nextPid := Worker(kind, true, true, None, false)], nextPid := s.nextPid + 1)
  }

  /** An operation at rest gets the operation lock, finds no market worker to stop and asks for its worker. */
  lemma OperationEnters(s: State, t: Task, op: Op) returns (events: seq<Event>, n: State)
    requires AtRest(s) && op != MarketRead
    ensures events == [Begin(t, op), Go(t), Go(t)] && n == Run(s, events)
    ensures n == s.(operation := Some(Owner(t, WantWorker(op))))
  {
    hide Run, WorkerStep;
    RunNothing(s);
    events, n := OneMoreEvent(s, [], s, Begin(t, op));
    events, n := OneMoreEvent(s, events, n, Go(t));
    assert n.waiting == map[];
    events, n := OneMoreEvent(s, events, n, Go(t));
  }

  /** An account read at rest runs a once worker that loads what is stored. */
  lemma AccountLoads(s: State, t: Task) returns (events: seq<Event>, n: State)
    requires AtRest(s)
    ensures events == [Begin(t, Account), Go(t), Go(t), Go(t), Load(s.nextPid)] && n == Run(s, events)
    ensures n.operation == Some(Owner(t, OnceAwait(s.nextPid))) && n.store == s.store && n.log == s.log
    ensures n.workers == s.workers[s.nextPid := Worker(Once, true, true, s.store, false)]
    ensures n.waiting == map[] && n.marketLock == None && n.marketSlot == None && n.ui == s.ui
  {
    hide Run;
    events, n := OperationEnters(s, t, Account);
    events, n := OneMoreEvent(s, events, n, Go(t));
    assert n == With(s, Once).(operation := Some(Owner(t, OnceAwait(s.nextPid))));
    events, n := OneMoreEvent(s, events, n, Load(s.nextPid));
  }

  /** A once worker whose command completes is answered, ended and gone. */
  lemma OnceEnds(start: State, before: seq<Event>, s: State, t: Task, p: Pid) returns (events: seq<Event>, n: State)
    requires s == Run(start, before) && s.operation == Some(Owner(t, OnceAwait(p))) && t !in s.waiting && s.marketLock.None?
    requires p in s.workers && s.workers[p].alive && s.workers[p].busy
    ensures events == before + [Complete(p), Answered(t), Exited(t)] && n == Run(start, events)
    ensures n.operation == None && n.marketLock == None && n.store == s.store && n.log == s.log
    ensures n.waiting == s.waiting && n.marketSlot == s.marketSlot && n.ui == s.ui
    ensures n.workers == s.workers[p := s.workers[p].(alive := false, busy := false, loaded := None)]
  {
    hide Run;
    events, n := OneMoreEvent(start, before, s, Complete(p));
    events, n := OneMoreEvent(start, events, n, Answered(t));
    events, n := OneMoreEvent(start, events, n, Exited(t));
  }

  /**
  A whole account read.  From any state at rest with a stored session, the read starts one
  worker, which loads that session, saves the refreshed one and ends; afterwards the store
  holds the refreshed session, nobody holds a lock and the worker is dead.
  */
  lemma WholeAccountRead(s: State, t: Task, v: Session) returns (events: seq<Event>, n: State)
    requires AtRest(s) && s.store.Some?
    ensures events == [Begin(t, Account), Go(t), Go(t), Go(t), Load(s.nextPid), SaveRefreshed(s.nextPid, v, true),
                       Complete(s.nextPid), Answered(t), Exited(t)]
    ensures n == Run(s, events)
    ensures n.store == Some(v) && n.log == s.log + [Stored(s.nextPid)]
    ensures n.operation == None && n.marketLock == None && n.marketSlot == None && n.waiting == map[]
    ensures n.workers.Keys == s.workers.Keys + {s.nextPid} && !n.workers[s.nextPid].alive
  {
    hide Run;
    var p := s.nextPid;
    events, n := AccountLoads(s, t);
    var loaded := n;
    events, n := OneMoreEvent(s, events, n, SaveRefreshed(p, v, true));
    SavesBack(loaded, p, v);
    events, n := OnceEnds(s, events, n, t, p);
  }

  lemma SavesBack(s: State, p: Pid, v: Session)
    requires p in s.workers && s.workers[p].alive && s.workers[p].loaded.Some?
    ensures Step(s, SaveRefreshed(p, v, true))
         == s.(store := Some(v), log := s.log + [Stored(p)], workers := s.workers[p := s.workers[p].(loaded := None)])
  {
  }

  /** Connecting or disconnecting at rest opens one UI worker and leaves it to its flow. */
  lemma UiOpens(s: State, t: Task, op: Op) returns (events: seq<Event>, n: State)
    requires AtRest(s) && (op == Connect || op == Disconnect)
    ensures events == [Begin(t, op), Go(t), Go(t), Go(t), Complete(s.nextPid), Answered(t)] && n == Run(s, events)
    ensures var kind := if op == Connect then ConnectUi else DisconnectUi;
            n == s.(ui := Some(s.nextPid), nextPid := s.nextPid + 1,
                    workers := s.workers[s.nextPid := Worker(kind, true, false, None, false)])
  {
    hide Run;
    var p := s.nextPid;
    events, n := OperationEnters(s, t, op);
    events, n := OneMoreEvent(s, events, n, Go(t));
    assert n == With(s, if op == Connect then ConnectUi else DisconnectUi).(ui := Some(p), operation := Some(Owner(t, UiAwait(p))));
    events, n := OneMoreEvent(s, events, n, Complete(p));
    events, n := OneMoreEvent(s, events, n, Answered(t));
  }

  /** A whole login through the UI worker stores the session it logged in with. */
  lemma WholeLogin(s: State, t: Task, v: Session) returns (events: seq<Event>, n: State)
    requires AtRest(s)
    ensures events == [Begin(t, Connect), Go(t), Go(t), Go(t), Complete(s.nextPid), Answered(t), UiLogin(s.nextPid, v, true)]
    ensures n == Run(s, events) && n.store == Some(v) && n.log == s.log + [LoggedIn(s.nextPid)] && n.operation == None
  {
    hide Run, Step;
    events, n := UiOpens(s, t, Connect);
    var before := n;
    events, n := OneMoreEvent(s, events, n, UiLogin(s.nextPid, v, true));
    UiWrites(before, s.nextPid, v);
  }

  lemma UiWrites(s: State, p: Pid, v: Session)
    ensures InFlow(s, p, ConnectUi) ==>
              var n := Step(s, UiLogin(p, v, true)); n.store == Some(v) && n.log == s.log + [LoggedIn(p)] && n.operation == s.operation
    ensures InFlow(s, p, DisconnectUi) ==>
              var n := Step(s, UiDelete(p, true));
              n.store == None && n.log == s.log + [Deleted(p)] && n.operation == s.operation && n.waiting == s.waiting && UiLive(n) == UiLive(s)
              && n.ui == s.ui && DisconnectActive(n) == DisconnectActive(s) && n.nextPid == s.nextPid && n.workers.Keys == s.workers.Keys
  {
  }

  /**
  A whole disconnect: the UI worker deletes the stored session, and as long as it is live
  an account or market read that is asked for is refused without starting a worker.
  */
  lemma WholeDisconnect(s: State, t: Task, u: Task, op: Op) returns (events: seq<Event>, deleted: State, n: State)
    requires AtRest(s) && (op == Account || op == MarketRead)
    ensures events == [Begin(t, Disconnect), Go(t), Go(t), Go(t), Complete(s.nextPid), Answered(t), UiDelete(s.nextPid, true)]
    ensures deleted == Run(s, events) && deleted.store == None && deleted.log == s.log + [Deleted(s.nextPid)]
    ensures deleted.operation == None && deleted.waiting == map[] && DisconnectActive(deleted)
    ensures n == Run(s, events + [Begin(u, op)] + [Go(u)]) && n == deleted
  {
    hide Run, Step;
    events, n := UiOpens(s, t, Disconnect);
    var before := n;
    events, n := OneMoreEvent(s, events, n, UiDelete(s.nextPid, true));
    UiWrites(before, s.nextPid, 0);
    deleted := n;
    var more;
    more, n := OneMoreEvent(s, events, deleted, Begin(u, op));
    more, n := OneMoreEvent(s, more, n, Go(u));
    GateRefuses(deleted, u, op);
  }

  lemma GateRefuses(s: State, u: Task, op: Op)
    requires (op == Account || op == MarketRead) && s.waiting == map[] && s.operation.None? && DisconnectActive(s)
    ensures Step(Step(s, Begin(u, op)), Go(u)) == s
  {
    assert s.waiting[u := op] - {u} == s.waiting;
  }

  /** A market read at rest spawns its worker into the slot. */
  lemma MarketStarts(s: State, t: Task) returns (events: seq<Event>, n: State)
    requires AtRest(s)
    ensures events == [Begin(t, MarketRead), Go(t), Go(t), Go(t)] && n == Run(s, events)
    ensures n == With(s, Market).(marketSlot := Some(s.nextPid), marketLock := Some(t),
                                  operation := Some(Owner(t, MarketAwait(s.nextPid))))
  {
    hide Run, WorkerStep;
    RunNothing(s);
    events, n := OneMoreEvent(s, [], s, Begin(t, MarketRead));
    events, n := OneMoreEvent(s, events, n, Go(t));
    assert n == s.(operation := Some(Owner(t, WantMarket))) by { assert n.waiting == map[]; }
    events, n := OneMoreEvent(s, events, n, Go(t));
    events, n := OneMoreEvent(s, events, n, Go(t));
  }

  /** A market read at rest starts a market worker and keeps it in the slot. */
  lemma WholeMarketRead(s: State, t: Task) returns (events: seq<Event>, n: State)
    requires AtRest(s)
    ensures events == [Begin(t, MarketRead), Go(t), Go(t), Go(t), Complete(s.nextPid), Answered(t)] && n == Run(s, events)
    ensures n == s.(marketSlot := Some(s.nextPid), nextPid := s.nextPid + 1,
                    workers := s.workers[s.nextPid := Worker(Market, true, false, None, false)])
  {
    hide Run;
    events, n := MarketStarts(s, t);
    events, n := OneMoreEvent(s, events, n, Complete(s.nextPid));
    events, n := OneMoreEvent(s, events, n, Answered(t));
  }

  /** The next market read uses the worker in the slot and starts no other. */
  lemma MarketWorkerIsReused(s: State, t: Task, p: Pid) returns (events: seq<Event>, n: State)
    requires s.waiting == map[] && s.operation.None? && s.marketLock.None? && !UiLive(s)
    requires s.marketSlot == Some(p) && p in s.workers && s.workers[p] == Worker(Market, true, false, None, false)
    ensures events == [Begin(t, MarketRead), Go(t), Go(t), Complete(p), Answered(t)] && n == Run(s, events) && n == s
  {
    hide Run;
    RunNothing(s);
    events, n := OneMoreEvent(s, [], s, Begin(t, MarketRead));
    events, n := OneMoreEvent(s, events, n, Go(t));
    assert n == s.(operation := Some(Owner(t, WantMarket))) by { assert n.waiting == map[]; }
    events, n := OneMoreEvent(s, events, n, Go(t));
    events, n := OneMoreEvent(s, events, n, Complete(p));
    events, n := OneMoreEvent(s, events, n, Answered(t));
    assert n.workers == s.workers;
  }

  /** Any other operation first takes the market worker out of its slot and ends it. */
  lemma MarketWorkerIsStopped(s: State, t: Task, op: Op, p: Pid) returns (events: seq<Event>, n: State)
    requires s.waiting == map[] && s.operation.None? && s.marketLock.None? && !UiLive(s) && op != MarketRead
    requires s.marketSlot == Some(p) && Alive(s, p)
    ensures events == [Begin(t, op), Go(t), Go(t), Answered(t), Exited(t)] && n == Run(s, events)
    ensures n == s.(marketSlot := None, workers := s.workers[p := s.workers[p].(alive := false)],
                    operation := Some(Owner(t, WantWorker(op))))
  {
    hide Run, WorkerStep;
    RunNothing(s);
    events, n := OneMoreEvent(s, [], s, Begin(t, op));
    events, n := OneMoreEvent(s, events, n, Go(t));
    assert n == s.(operation := Some(Owner(t, WantStop(op)))) by { assert n.waiting == map[]; }
    events, n := OneMoreEvent(s, events, n, Go(t));
    events, n := OneMoreEvent(s, events, n, Answered(t));
    events, n := OneMoreEvent(s, events, n, Exited(t));
  }
}
