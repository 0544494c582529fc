/** Mutual exclusion of the broker's operations, and what it means for the credential store. */
module BrokerProofs {
  import opened Wrappers
  import opened Broker

  /** A gated operation (account or market read) past its disconnect check. */
  predicate PastGate(at: Point) {
    match at
    case WantStop(op) => op == Account
    case Shutdown(op, _) => op == Account
    case ShutdownStopping(op, _, _) => op == Account
    case WantWorker(op) => op == Account
    case UiAwait(_) => false
    case Stopping(_) => false
    case _ => true
  }

  /** The owner needs the market lock next, or no longer holds it. */
  predicate OutsideMarketLock(at: Point) {
    at.WantStop? || at.WantMarket? || at.WantWorker? || at.OnceAwait? || at.UiAwait?
  }

  /** The owner has emptied the market slot. */
  predicate MarketEmptied(at: Point) {
    at.Shutdown? || at.ShutdownStopping? || at.WantWorker? || at.OnceAwait? || at.UiAwait? || at.MarketSpawn?
  }

  /** The market lock nests inside the operation lock. */
  ghost predicate Locks(s: State) {
    && (s.marketLock.Some? ==> s.operation.Some? && s.operation.value.t == s.marketLock.value)
    && (s.operation.Some? ==>
          var at := s.operation.value.at;
          && (OutsideMarketLock(at) ==> s.marketLock.None?)
          && (MarketEmptied(at) ==> s.marketSlot.None?))
  }

  /** The worker whose command, or whose end after a command, the owner awaits. */
  function Awaited(at: Point): Option<Pid> {
    match at
    case OnceAwait(p) => Some(p)
    case MarketAwait(p) => Some(p)
    case Stopping(p) => Some(p)
    case _ => None
  }

  ghost predicate Serves(s: State, p: Pid) {
    s.operation.Some? && Awaited(s.operation.value.at) == Some(p)
  }

  predicate IsUi(kind: Kind) {
    kind == ConnectUi || kind == DisconnectUi
  }

  /** Slots hold known workers, loaded material belongs to a command, at most one UI worker is alive. */
  ghost predicate Slots(s: State) {
    && (forall p | p in s.workers :: p < s.nextPid)
    && (s.ui.Some? ==> s.ui.value in s.workers && IsUi(s.workers[s.ui.value].kind))
    && (s.marketSlot.Some? ==> s.marketSlot.value in s.workers && s.workers[s.marketSlot.value].kind == Market)
    && (forall p | Alive(s, p) && s.workers[p].loaded.Some? :: s.workers[p].busy)
    && (forall p | Alive(s, p) && IsUi(s.workers[p].kind) :: s.ui == Some(p))
  }

  /** Only UI workers and the worker whose answer is awaited execute a command. */
  ghost predicate BusyServed(s: State) {
    forall p | Alive(s, p) && s.workers[p].busy :: IsUi(s.workers[p].kind) || Serves(s, p)
  }

  /** Only UI workers and `p` execute a command. */
  ghost predicate OnlyBusy(s: State, p: Option<Pid>) {
    forall q | Alive(s, q) && s.workers[q].busy :: IsUi(s.workers[q].kind) || p == Some(q)
  }

  /** While a disconnect UI is live no gated operation is past the check and no other worker executes a command. */
  ghost predicate DisconnectExcludes(s: State) {
    DisconnectActive(s) ==> OnlyBusy(s, None) && (s.operation.Some? ==> !PastGate(s.operation.value.at))
  }

  ghost predicate Inv(s: State) {
    Locks(s) && Slots(s) && BusyServed(s) && DisconnectExcludes(s)
  }

  lemma KillKeeps(s: State, p: Pid)
    requires Slots(s) && BusyServed(s)
    ensures Slots(Kill(s, p)) && BusyServed(Kill(s, p))
    ensures !Alive(Kill(s, p), p)
    ensures DisconnectActive(Kill(s, p)) ==> DisconnectActive(s)
    ensures Kill(s, p) == s.(workers := Kill(s, p).workers)
  {
  }

  lemma LeaveKeeps(s: State, t: Task)
    requires Slots(s) && OnlyBusy(s, None)
    requires s.marketLock.Some? ==> s.marketLock.value == t
    ensures Inv(Leave(s, t))
  {
  }

  lemma MoveKeeps(s: State, t: Task, at: Point)
    requires Slots(s) && OnlyBusy(s, Awaited(at))
    requires s.marketLock.Some? ==> s.marketLock.value == t
    requires OutsideMarketLock(at) ==> s.marketLock.None?
    requires MarketEmptied(at) ==> s.marketSlot.None?
    requires DisconnectActive(s) ==> !PastGate(at) && OnlyBusy(s, None)
    ensures Inv(Move(s, t, at))
  {
  }

  lemma RetireKeeps(s: State, t: Task, p: Pid)
    requires Slots(s) && OnlyBusy(s, Some(p)) && (DisconnectActive(s) ==> OnlyBusy(s, None))
    requires s.marketLock.Some? ==> s.marketLock.value == t
    ensures Inv(Retire(s, t, p))
  {
  }

  lemma SpawnKeeps(s: State, kind: Kind)
    requires Slots(s) && OnlyBusy(s, None)
    requires IsUi(kind) ==> !UiLive(s)
    ensures var r := SpawnWorker(s, kind);
            && (!IsUi(kind) ==> Slots(r) && OnlyBusy(r, Some(s.nextPid)) && (DisconnectActive(r) ==> DisconnectActive(s)))
            && (IsUi(kind) ==> Slots(r.(ui := Some(s.nextPid))) && OnlyBusy(r.(ui := Some(s.nextPid)), None))
            && (kind == Market ==> Slots(r.(marketSlot := Some(s.nextPid))))
  {
  }

  lemma EnterKeepsInv(s: State, t: Task)
    requires Inv(s) && t in s.waiting
    ensures Inv(EnterStep(s, t))
  {
  }

  lemma StopKeepsInv(s: State, t: Task)
    requires Inv(s) && Owns(s, t) && s.operation.value.at.WantStop?
    ensures Inv(GoStep(s, t))
  {
  }

  lemma SpawnStepsKeepInv(s: State, t: Task)
    requires Inv(s) && Owns(s, t) && (s.operation.value.at.WantWorker? || s.operation.value.at.MarketSpawn?)
    ensures Inv(GoStep(s, t))
  {
    assert OnlyBusy(s, None);
    match s.operation.value.at
    case WantWorker(op) =>
      if op == Account {
        SpawnKeeps(s, Once);
        MoveKeeps(SpawnWorker(s, Once), t, OnceAwait(s.nextPid));
      } else if UiLive(s) {
        LeaveKeeps(s, t);
      } else {
        var kind := if op == Connect then ConnectUi else DisconnectUi;
        SpawnKeeps(s, kind);
        MoveKeeps(SpawnWorker(s, kind).(ui := Some(s.nextPid)), t, UiAwait(s.nextPid));
      }
    case MarketSpawn =>
      SpawnKeeps(s, Market);
      MoveKeeps(SpawnWorker(s, Market).(marketSlot := Some(s.nextPid)), t, MarketAwait(s.nextPid));
  }

  lemma MarketKeepsInv(s: State, t: Task)
    requires Inv(s) && Owns(s, t) && s.operation.value.at.WantMarket?
    ensures Inv(GoStep(s, t))
  {
  }

  lemma GoKeepsInv(s: State, t: Task)
    requires Inv(s) && Owns(s, t)
    ensures Inv(GoStep(s, t))
  {
    match s.operation.value.at
    case WantStop(_) => StopKeepsInv(s, t);
    case WantWorker(_) => SpawnStepsKeepInv(s, t);
    case MarketSpawn => SpawnStepsKeepInv(s, t);
    case WantMarket => MarketKeepsInv(s, t);
    case _ =>
  }

  lemma AnsweredKeepsInv(s: State, t: Task)
    requires Inv(s) && Owns(s, t)
    ensures Inv(AnsweredStep(s, t))
  {
  }

  lemma FailKeepsInv(s: State, t: Task, cancelled: bool)
    requires Inv(s) && Owns(s, t)
    ensures Inv(FailStep(s, t, cancelled))
  {
    match s.operation.value.at
    case Shutdown(op, p) => MoveKeeps(s, t, ShutdownStopping(op, p, cancelled));
    case ShutdownStopping(_, _, _) => LeaveKeeps(s, t);
    case OnceAwait(p) => RetireKeeps(s, t, p);
    case UiAwait(p) => RetireKeeps(s, t, p);
    case MarketAwait(p) => RetireKeeps(s, t, p);
    case Stopping(p) => if cancelled && s.ui == Some(p) { LeaveKeeps(s, t); }
    case _ => LeaveKeeps(s, t);
  }

  lemma ExitedKeepsInv(s: State, t: Task)
    requires Inv(s) && Owns(s, t)
    ensures Inv(ExitedStep(s, t))
  {
    match s.operation.value.at
    case ShutdownStopping(op, p, cancelled) =>
      KillKeeps(s, p);
      LeaveKeeps(Kill(s, p), t);
      MoveKeeps(Kill(s, p).(marketLock := None), t, WantWorker(op));
    case Stopping(p) => KillKeeps(s, p); LeaveKeeps(Kill(s, p), t);
    case _ =>
  }

  predicate IsWorkerEvent(e: Event) {
    !e.Begin? && !e.Go? && !e.Answered? && !e.Fail? && !e.Exited?
  }

  /** What a worker may change about itself. */
  ghost predicate Tamer(w: Worker, v: Worker) {
    && v.kind == w.kind && (v.alive ==> w.alive) && (v.busy ==> w.busy)
    && (v.loaded.Some? ==> w.loaded.Some? || w.busy) && (v.loaded.Some? ==> v.busy == w.busy)
  }

  lemma TamerKeepsInv(s: State, p: Pid, v: Worker, r: State)
    requires Inv(s) && Alive(s, p) && Tamer(s.workers[p], v)
    requires r == s.(workers := s.workers[p := v], store := r.store, log := r.log)
    ensures Inv(r)
  {
  }

  lemma WorkerShape(s: State, e: Event)
    requires IsWorkerEvent(e) && Alive(s, e.p)
    ensures var r := WorkerStep(s, e);
            e.p in r.workers && Tamer(s.workers[e.p], r.workers[e.p])
            && r == s.(workers := s.workers[e.p := r.workers[e.p]], store := r.store, log := r.log)
  {
  }

  /** A worker touches nothing of the broker. */
  lemma WorkerFrame(s: State, e: Event)
    requires IsWorkerEvent(e)
    ensures var r := WorkerStep(s, e); r == s.(workers := r.workers, store := r.store, log := r.log)
  {
  }

  lemma WorkerKeepsInv(s: State, e: Event)
    requires Inv(s) && IsWorkerEvent(e)
    ensures Inv(WorkerStep(s, e))
  {
    if Alive(s, e.p) {
      WorkerShape(s, e);
      TamerKeepsInv(s, e.p, WorkerStep(s, e).workers[e.p], WorkerStep(s, e));
    }
  }

  lemma StepKeepsInv(s: State, e: Event)
    requires Inv(s)
    ensures Inv(Step(s, e))
  {
    match e
    case Begin(_, _) =>
    case Go(t) => if t in s.waiting { EnterKeepsInv(s, t); } else if Owns(s, t) { GoKeepsInv(s, t); }
    case Answered(t) => if Owns(s, t) { AnsweredKeepsInv(s, t); }
    case Fail(t, cancelled) => if Owns(s, t) { FailKeepsInv(s, t, cancelled); }
    case Exited(t) => if Owns(s, t) { ExitedKeepsInv(s, t); }
    case _ => WorkerKeepsInv(s, e);
  }

  /** Every reachable state satisfies the invariant, whatever is cancelled and whatever workers do. */
  lemma {:induction false} RunKeepsInv(stored: Option<Session>, events: seq<Event>)
    ensures Inv(Run(Initial(stored), events))
  {
    if events != [] {
      RunKeepsInv(stored, events[..|events| - 1]);
      StepKeepsInv(Run(Initial(stored), events[..|events| - 1]), events[|events| - 1]);
    }
  }

  // ---- exclusion ----

  /** While an account worker is awaited the market slot is empty and no other worker executes a command. */
  ghost predicate AccountExcludes(s: State) {
    s.operation.Some? && s.operation.value.at.OnceAwait? ==>
      s.marketSlot.None? && OnlyBusy(s, Some(s.operation.value.at.p))
  }

  /** Only a worker that executes a command holds material it could write back. */
  ghost predicate MaterialNeedsCommand(s: State) {
    forall p | HasMaterial(s, p) :: s.workers[p].busy
  }

  /** Whoever waits for the market lock holds the operation lock and finds the market lock free. */
  ghost predicate LocksNest(s: State) {
    && (s.marketLock.Some? ==> Owns(s, s.marketLock.value))
    && (s.operation.Some? && (s.operation.value.at.WantStop? || s.operation.value.at.WantMarket?) ==> s.marketLock.None?)
  }

  /**
  Mutual exclusion in every reachable state, with any pattern of cancellations: while
  a disconnect UI is live no gated call is past its check and no other worker executes
  a command or holds material; an account worker excludes market commands; and the two
  locks are taken in an order in which nobody can deadlock.
  */
  lemma Exclusion(stored: Option<Session>, events: seq<Event>)
    ensures var s := Run(Initial(stored), events);
            DisconnectExcludes(s) && AccountExcludes(s) && MaterialNeedsCommand(s) && LocksNest(s)
  {
    RunKeepsInv(stored, events);
  }

  // ---- a deleted session stays deleted ----

  /** Nothing is stored and no alive worker has material it could write back. */
  ghost predicate Quiet(s: State) {
    s.store.None? && forall p :: !HasMaterial(s, p)
  }

  /** Nothing was saved or logged in between the two histories; `logins` lifts the second ban. */
  ghost predicate Extends(before: seq<Effect>, now: seq<Effect>, saves: bool, logins: bool) {
    && |before| <= |now| && now[..|before|] == before
    && (forall i | |before| <= i < |now| :: (now[i].Stored? ==> saves) && (now[i].LoggedIn? ==> logins))
  }

  lemma ExtendsJoins(x: seq<Effect>, y: seq<Effect>, z: seq<Effect>, saves: bool, logins: bool)
    requires Extends(x, y, saves, logins) && Extends(y, z, saves, logins)
    ensures Extends(x, z, saves, logins)
  {
  }

  lemma SplitExtends(x: seq<Effect>, y: seq<Effect>, z: seq<Effect>, saves: bool, logins: bool)
    requires Extends(x, y, true, true) && Extends(y, z, true, true) && Extends(x, z, saves, logins)
    ensures Extends(x, y, saves, logins) && Extends(y, z, saves, logins)
  {
  }

  /** The worker could still write a session back. */
  predicate HasMaterial(s: State, p: Pid) {
    Alive(s, p) && s.workers[p].loaded.Some?
  }

  /** From `s` to `r` nothing was loaded and nothing written. */
  ghost predicate LeavesStore(s: State, r: State) {
    r.log == s.log && r.store == s.store && forall p | HasMaterial(r, p) :: HasMaterial(s, p)
  }

  lemma GoLeavesStore(s: State, t: Task)
    requires Owns(s, t)
    ensures LeavesStore(s, GoStep(s, t))
  {
  }

  lemma FramesLeaveStore(s: State, t: Task)
    requires Owns(s, t)
    ensures LeavesStore(s, AnsweredStep(s, t)) && LeavesStore(s, ExitedStep(s, t))
  {
  }

  lemma FailLeavesStore(s: State, t: Task, cancelled: bool)
    requires Owns(s, t)
    ensures LeavesStore(s, FailStep(s, t, cancelled))
  {
  }

  /** The broker itself loads nothing and writes nothing. */
  lemma BrokerLeavesStore(s: State, e: Event)
    requires !IsWorkerEvent(e)
    ensures LeavesStore(s, Step(s, e))
  {
    match e
    case Begin(_, _) =>
    case Go(t) => if t !in s.waiting && Owns(s, t) { GoLeavesStore(s, t); }
    case Answered(t) => if Owns(s, t) { FramesLeaveStore(s, t); }
    case Fail(t, cancelled) => if Owns(s, t) { FailLeavesStore(s, t, cancelled); }
    case Exited(t) => if Owns(s, t) { FramesLeaveStore(s, t); }
  }

  lemma StepExtends(s: State, e: Event)
    ensures Extends(s.log, Step(s, e).log, true, true)
  {
  }

  /** A quiet state stays quiet until somebody logs in, and nothing is saved meanwhile. */
  lemma QuietStep(s: State, e: Event)
    requires Quiet(s)
    ensures Extends(s.log, Step(s, e).log, false, true)
    ensures Extends(s.log, Step(s, e).log, true, false) ==> Quiet(Step(s, e))
  {
    var r := Step(s, e);
    if !IsWorkerEvent(e) {
      BrokerLeavesStore(s, e);
    } else {
      assert !HasMaterial(s, e.p);
      if r.log == s.log + [LoggedIn(e.p)] { assert r.log[|s.log|] == LoggedIn(e.p); }
      forall p ensures r.store.None? ==> !HasMaterial(r, p) {
        assert !HasMaterial(s, p);
      }
    }
  }

  /** A disconnect UI worker that deletes the stored session is the only one left that could write. */
  lemma DeletionQuiets(s: State, e: Event)
    requires Inv(s) && e.UiDelete? && Step(s, e).log == s.log + [Deleted(e.p)]
    ensures Quiet(Step(s, e))
  {
  }

  lemma {:induction false} RunExtends(s: State, events: seq<Event>)
    ensures Extends(s.log, Run(s, events).log, true, true)
  {
    if events != [] {
      var before := Run(s, events[..|events| - 1]);
      RunExtends(s, events[..|events| - 1]);
      StepExtends(before, events[|events| - 1]);
      ExtendsJoins(s.log, before.log, Run(s, events).log, true, true);
    }
  }

  lemma {:induction false} QuietRun(s: State, events: seq<Event>)
    requires Quiet(s) && Extends(s.log, Run(s, events).log, true, false)
    ensures Quiet(Run(s, events)) && Extends(s.log, Run(s, events).log, false, false)
    decreases |events|
  {
    if events != [] {
      var before := Run(s, events[..|events| - 1]);
      var e := events[|events| - 1];
      RunExtends(s, events[..|events| - 1]);
      StepExtends(before, e);
      SplitExtends(s.log, before.log, Run(s, events).log, true, false);
      QuietRun(s, events[..|events| - 1]);
      QuietStep(before, e);
      ExtendsJoins(s.log, before.log, Run(s, events).log, false, false);
    }
  }

  /**
  A deleted session stays deleted.  After any run, let a disconnect UI worker delete
  the stored session, and let anything follow in any interleaving, cancellations,
  timeouts and worker deaths included: until somebody logs in, the store stays empty
  and no worker saves a session.
  */
  lemma DeletedStaysDeleted(stored: Option<Session>, before: seq<Event>, p: Pid, after: seq<Event>,
                            s: State, deleted: State, end: State)
    requires s == Run(Initial(stored), before)
    requires deleted == Step(s, UiDelete(p, true)) && deleted.log == s.log + [Deleted(p)]
    requires end == Run(deleted, after) && Extends(deleted.log, end.log, true, false)
    ensures end.store == None && Extends(deleted.log, end.log, false, false)
  {
    RunKeepsInv(stored, before);
    DeletionQuiets(s, UiDelete(p, true));
    QuietRun(deleted, after);
  }
}
