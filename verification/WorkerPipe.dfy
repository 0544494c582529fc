/**
One worker slot of the broker and the pipe protocol behind it (`auth/broker.py`,
`_command`, `_retire_uncertain_worker`, `_persistent_market_command`,
`_stop_market_daemon` and the lock around each slot).

Commands and frames cross the pipe in order and a worker emits one frame per
command.  A call may be cancelled, time out, see the end of the stream, or read a
malformed or mismatched frame at any await, and it may be cancelled again while it
waits for a retired worker to end, which is then left behind, still alive.
*/
module WorkerPipe {
  import opened Wrappers

  type Task = nat
  type Pid = nat
  type CommandId = nat

  /** The k-th frame a worker emits answers the k-th command it was sent. */
  datatype Pipe = Pipe(written: seq<CommandId>, emitted: nat, read: nat, alive: bool)

  /** Where a call is; `process` is the local variable holding the worker it uses. */
  datatype Point =
    | Waiting
    | Holding(process: Option<Pid>)
    | Awaiting(p: Pid, command: CommandId)
    | Retiring(p: Pid)

  datatype Event =
    | Begin(t: Task)
    | Enter(t: Task)
    | UseSlot(t: Task)
    | Spawn(t: Task, ok: bool)
    | Unslot(t: Task)
    | Write(t: Task)
    | Read(t: Task, valid: bool)
    | Fail(t: Task)
    | Stopped(t: Task)
    | Leave(t: Task)
    | Emit(p: Pid)
    | Die(p: Pid)

  /** `answers` records, for every frame a call accepted or rejected, its command and the frame's. */
  datatype State = State(lock: Option<Task>, slot: Option<Pid>, pipes: map<Pid, Pipe>, calls: map<Task, Point>,
                         nextPid: Pid, nextCommand: CommandId, answers: seq<(CommandId, CommandId)>)

  const INITIAL := State(None, None, map[], map[], 0, 0, [])

  predicate Live(s: State, p: Pid) {
    p in s.pipes && s.pipes[p].alive
  }

  function Release(s: State, t: Task): State {
    s.(calls := s.calls - {t}, lock := if s.lock == Some(t) then None else s.lock)
  }

  /** Never reuse the worker: clear the slot if it is there, then stop it. */
  function Retire(s: State, t: Task, p: Pid): State {
    s.(slot := if s.slot == Some(p) then None else s.slot, calls := s.calls[t := Retiring(p)])
  }

  function CallStep(s: State, t: Task, e: Event): State
    requires t in s.calls
  {
    match (s.calls[t], e)
    case (Waiting, Enter(_)) =>
      if s.lock.None? then s.(lock := Some(t), calls := s.calls[t := Holding(None)]) else s
    case (Waiting, Fail(_)) => Release(s, t)
    case (Holding(_), UseSlot(_)) =>
      if s.slot.None? then s
      else if Live(s, s.slot.value) then s.(calls := s.calls[t := Holding(s.slot)])
      else s.(slot := None)
    case (Holding(_), Spawn(_, ok)) =>
      if s.slot.Some? then s
      else if !ok then Release(s, t)
      else s.(slot := Some(s.nextPid), pipes := s.pipes[s.nextPid := Pipe([], 0, 0, true)],
              nextPid := s.nextPid + 1, calls := s.calls[t := Holding(Some(s.nextPid))])
    case (Holding(_), Unslot(_)) => s.(slot := None)
    case (Holding(process), Write(_)) =>
      if process.None? then s
      else if !Live(s, process.value) then Release(s, t)
      else
        var p := process.value;
        s.(pipes := s.pipes[p := s.pipes[p].(written := s.pipes[p].written + [s.nextCommand])],
           calls := s.calls[t := Awaiting(p, s.nextCommand)], nextCommand := s.nextCommand + 1)
    case (Holding(_), Leave(_)) => Release(s, t)
    case (Awaiting(p, command), Read(_, valid)) =>
      if p !in s.pipes || s.pipes[p].read >= s.pipes[p].emitted || s.pipes[p].emitted > |s.pipes[p].written| then s
      else
        var frame := s.pipes[p].written[s.pipes[p].read];
        var taken := s.(pipes := s.pipes[p := s.pipes[p].(read := s.pipes[p].read + 1)],
                        answers := s.answers + [(command, frame)]);
        if valid then taken.(calls := s.calls[t := Holding(Some(p))]) else Retire(taken, t, p)
    case (Awaiting(p, _), Fail(_)) => Retire(s, t, p)
    case (Retiring(_), Fail(_)) => Release(s, t)
    case (Retiring(p), Stopped(_)) =>
      Release(if p in s.pipes then s.(pipes := s.pipes[p := s.pipes[p].(alive := false)]) else s, t)
    case _ => s
  }

  /** Events that are not enabled change nothing. */
  function Step(s: State, e: Event): State {
    match e
    case Begin(t) => if t in s.calls then s else s.(calls := s.calls[t := Waiting])
    case Emit(p) =>
      if Live(s, p) && s.pipes[p].emitted < |s.pipes[p].written|
      then s.(pipes := s.pipes[p := s.pipes[p].(emitted := s.pipes[p].emitted + 1)]) else s
    case Die(p) => if p in s.pipes then s.(pipes := s.pipes[p := s.pipes[p].(alive := false)]) else s
    case _ => if e.t in s.calls then CallStep(s, e.t, e) else s
  }

  function Run(events: seq<Event>): State {
    if events == [] then INITIAL else Step(Run(events[..|events| - 1]), events[|events| - 1])
  }

  // ---- what every run keeps ----

  /** Only frames for written commands exist, and only emitted frames are read. */
  ghost predicate PipesOrdered(s: State) {
    forall p | p in s.pipes :: s.pipes[p].read <= s.pipes[p].emitted <= |s.pipes[p].written|
  }

  /** Every frame this worker owes has been read. */
  predicate Drained(s: State, p: Pid) {
    p in s.pipes ==> s.pipes[p].read == |s.pipes[p].written|
  }

  /** What the call inside the lock knows about its worker. */
  ghost predicate CallFacts(s: State, c: Point) {
    match c
    case Waiting => true
    case Holding(process) =>
      && (process.Some? ==> process.value < s.nextPid && Drained(s, process.value))
      && (s.slot.Some? ==> Drained(s, s.slot.value))
    case Awaiting(p, command) =>
      && p in s.pipes && |s.pipes[p].written| == s.pipes[p].read + 1
      && s.pipes[p].written[s.pipes[p].read] == command
      && (s.slot.Some? ==> s.slot.value == p || Drained(s, s.slot.value))
    case Retiring(p) => s.slot.Some? ==> s.slot.value != p && Drained(s, s.slot.value)
  }

  ghost predicate Inv(s: State) {
    && PipesOrdered(s)
    && (forall p | p in s.pipes :: p < s.nextPid)
    && (forall t: Task :: t in s.calls && !s.calls[t].Waiting? <==> s.lock == Some(t))
    && (s.slot.Some? ==> s.slot.value < s.nextPid)
    && (if s.lock.Some? then s.lock.value in s.calls && CallFacts(s, s.calls[s.lock.value])
        else s.slot.Some? ==> Drained(s, s.slot.value))
    && (forall i | 0 <= i < |s.answers| :: s.answers[i].0 == s.answers[i].1)
  }

  /** An event of the pending call `t`. */
  predicate Runs(s: State, t: Task, e: Event) {
    !e.Begin? && !e.Emit? && !e.Die? && e.t == t && t in s.calls
  }

  lemma WaitingKeepsInv(s: State, t: Task, e: Event)
    requires Inv(s) && Runs(s, t, e) && s.calls[t].Waiting?
    ensures Inv(CallStep(s, t, e))
  {
  }

  lemma HoldingKeepsInv(s: State, t: Task, e: Event)
    requires Inv(s) && Runs(s, t, e) && s.calls[t].Holding? && !e.Write?
    ensures Inv(CallStep(s, t, e))
  {
  }

  lemma WriteKeepsInv(s: State, t: Task, e: Event)
    requires Inv(s) && Runs(s, t, e) && s.calls[t].Holding? && e.Write?
    ensures Inv(CallStep(s, t, e))
  {
  }

  lemma AwaitingKeepsInv(s: State, t: Task, e: Event)
    requires Inv(s) && Runs(s, t, e) && s.calls[t].Awaiting?
    ensures Inv(CallStep(s, t, e))
  {
  }

  lemma RetiringKeepsInv(s: State, t: Task, e: Event)
    requires Inv(s) && Runs(s, t, e) && s.calls[t].Retiring?
    ensures Inv(CallStep(s, t, e))
  {
  }

  lemma StepKeepsInv(s: State, e: Event)
    requires Inv(s)
    ensures Inv(Step(s, e))
  {
    if !e.Begin? && !e.Emit? && !e.Die? && e.t in s.calls {
      match s.calls[e.t]
      case Waiting => WaitingKeepsInv(s, e.t, e);
      case Holding(_) => if e.Write? { WriteKeepsInv(s, e.t, e); } else { HoldingKeepsInv(s, e.t, e); }
      case Awaiting(_, _) => AwaitingKeepsInv(s, e.t, e);
      case Retiring(_) => RetiringKeepsInv(s, e.t, e);
    }
  }

  lemma {:induction false} RunKeepsInv(events: seq<Event>)
    ensures Inv(Run(events))
  {
    if events != [] {
      RunKeepsInv(events[..|events| - 1]);
      StepKeepsInv(Run(events[..|events| - 1]), events[|events| - 1]);
    }
  }

  /**
  No stale frame is ever answered: in every run each frame a call reads answers the
  command that call wrote, and a worker left in a slot whose lock is free owes nothing.
  */
  lemma NoStaleFrame(events: seq<Event>)
    ensures forall i | 0 <= i < |Run(events).answers| :: Run(events).answers[i].0 == Run(events).answers[i].1
    ensures var s := Run(events);
            s.lock.None? && s.slot.Some? && s.slot.value in s.pipes ==>
              s.pipes[s.slot.value].read == |s.pipes[s.slot.value].written|
  {
    RunKeepsInv(events);
  }

  // ---- an uncertain worker never returns ----

  /** No slot, no call has this worker. */
  ghost predicate Abandoned(s: State, p: Pid) {
    && p < s.nextPid && s.slot != Some(p)
    && (forall t: Task | t in s.calls :: s.calls[t] != Holding(Some(p)) && !(s.calls[t].Awaiting? && s.calls[t].p == p))
  }

  function WrittenTo(s: State, p: Pid): seq<CommandId> {
    if p in s.pipes then s.pipes[p].written else []
  }

  lemma AbandonedCall(s: State, t: Task, e: Event, p: Pid)
    requires Abandoned(s, p) && Runs(s, t, e)
    ensures Abandoned(CallStep(s, t, e), p) && WrittenTo(CallStep(s, t, e), p) == WrittenTo(s, p)
  {
  }

  lemma AbandonedStep(s: State, e: Event, p: Pid)
    requires Abandoned(s, p)
    ensures Abandoned(Step(s, e), p) && WrittenTo(Step(s, e), p) == WrittenTo(s, p)
  {
    hide CallStep;
    if !e.Begin? && !e.Emit? && !e.Die? && e.t in s.calls { AbandonedCall(s, e.t, e, p); }
  }

  lemma {:induction false} AbandonedRun(before: seq<Event>, after: seq<Event>, p: Pid)
    requires Abandoned(Run(before), p)
    ensures Abandoned(Run(before + after), p) && WrittenTo(Run(before + after), p) == WrittenTo(Run(before), p)
    decreases |after|
  {
    hide Step, Abandoned, WrittenTo;
    if after == [] {
      assert before + after == before;
    } else {
      var last := |after| - 1;
      AbandonedRun(before, after[..last], p);
      assert (before + after)[..|before + after| - 1] == before + after[..last];
      AbandonedStep(Run(before + after[..last]), after[last], p);
    }
  }

  /**
  A worker whose answer became uncertain never returns: once a call that waited for its
  frame fails, or reads a frame that is not valid, no later event of any run puts the
  worker back into the slot, gives it to a call or writes a command to it.
  */
  lemma UncertainNeverReturns(before: seq<Event>, t: Task, p: Pid, command: CommandId, e: Event, after: seq<Event>)
    requires t in Run(before).calls && Run(before).calls[t] == Awaiting(p, command)
    requires e == Fail(t) || (e == Read(t, false) && Step(Run(before), e) != Run(before))
    ensures var n := Run(before + [e] + after);
            && n.slot != Some(p) && WrittenTo(n, p) == WrittenTo(Run(before), p)
            && forall u: Task | u in n.calls :: n.calls[u] != Holding(Some(p)) && !(n.calls[u].Awaiting? && n.calls[u].p == p)
  {
    RunKeepsInv(before);
    FailedIsAbandoned(Run(before), t, p, command, e);
    RunSnoc(before, e);
    AbandonedRun(before + [e], after, p);
  }

  lemma FailedIsAbandoned(s: State, t: Task, p: Pid, command: CommandId, e: Event)
    requires Inv(s) && t in s.calls && s.calls[t] == Awaiting(p, command)
    requires e == Fail(t) || (e == Read(t, false) && Step(s, e) != s)
    ensures Abandoned(Step(s, e), p) && WrittenTo(Step(s, e), p) == WrittenTo(s, p)
    ensures t in Step(s, e).calls && Step(s, e).calls[t] == Retiring(p)
  {
  }

  lemma RunSnoc(events: seq<Event>, e: Event)
    ensures Run(events + [e]) == Step(Run(events), e)
  {
    assert (events + [e])[..|events|] == events;
  }

  /** When the stopped worker has ended, it is dead and the lock is free again. */
  lemma RetirementEnds(s: State, t: Task, p: Pid)
    requires Inv(s) && t in s.calls && s.calls[t] == Retiring(p)
    ensures var n := Step(s, Stopped(t));
            n.lock == None && t !in n.calls && n.slot == s.slot && (p in n.pipes ==> !n.pipes[p].alive) && n.answers == s.answers
  {
  }

  // ---- a command gets its answer ----

  /** A frame that has arrived is read, and what is recorded is the command it was written for. */
  lemma FrameIsRead(s: State, t: Task, p: Pid, command: CommandId, valid: bool)
    requires Inv(s) && t in s.calls && s.calls[t] == Awaiting(p, command) && s.pipes[p].emitted == |s.pipes[p].written|
    ensures var n := Step(s, Read(t, valid));
            && n.answers == s.answers + [(command, command)] && t in n.calls
            && n.calls[t] == (if valid then Holding(Some(p)) else Retiring(p))
            && n.slot == (if !valid && s.slot == Some(p) then None else s.slot)
            && n.lock == s.lock && p in n.pipes && n.pipes[p].alive == s.pipes[p].alive
  {
  }

  /** The call has taken the lock and the slot's worker, or a new one. */
  lemma WorkerIsTaken(before: seq<Event>, t: Task) returns (all: seq<Event>, p: Pid)
    requires var s := Run(before); t !in s.calls && s.lock == None && (s.slot.Some? ==> Live(s, s.slot.value))
    ensures all == before + [Begin(t), Enter(t), if Run(before).slot.Some? then UseSlot(t) else Spawn(t, true)]
    ensures var s, n := Run(before), Run(all);
            && (if s.slot.Some? then p == s.slot.value else p == s.nextPid)
            && n.slot == Some(p) && Live(n, p) && n.lock == Some(t) && n.calls == s.calls[t := Holding(Some(p))]
            && n.answers == s.answers && n.nextCommand == s.nextCommand
            && n.pipes == if s.slot.Some? then s.pipes else s.pipes[p := Pipe([], 0, 0, true)]
  {
    hide Run;
    var s := Run(before);
    p := if s.slot.Some? then s.slot.value else s.nextPid;
    RunSnoc(before, Begin(t));
    RunSnoc(before + [Begin(t)], Enter(t));
    var last := if s.slot.Some? then UseSlot(t) else Spawn(t, true);
    RunSnoc(before + [Begin(t)] + [Enter(t)], last);
    all := before + [Begin(t)] + [Enter(t)] + [last];
    assert s.calls[t := Waiting][t := Holding(None)][t := Holding(Some(p))] == s.calls[t := Holding(Some(p))];
  }

  /**
  A round trip.  In any run, a call that finds the lock free and a live or no worker in
  the slot writes its command, gets the frame for exactly that command, and leaves the
  worker in the slot and the lock free.
  */
  lemma RoundTrip(before: seq<Event>, t: Task) returns (all: seq<Event>, p: Pid)
    requires var s := Run(before); t !in s.calls && s.lock == None && (s.slot.Some? ==> Live(s, s.slot.value))
    ensures all == before + [Begin(t), Enter(t), if Run(before).slot.Some? then UseSlot(t) else Spawn(t, true)]
                   + [Write(t), Emit(p), Read(t, true), Leave(t)]
    ensures var s, n := Run(before), Run(all);
            && n.answers == s.answers + [(s.nextCommand, s.nextCommand)] && n.nextCommand == s.nextCommand + 1
            && n.slot == Some(p) && (s.slot.Some? ==> s.slot == Some(p)) && Live(n, p) && n.lock == None && t !in n.calls
            && WrittenTo(n, p) == (if s.slot.Some? then WrittenTo(s, p) else []) + [s.nextCommand]
  {
    hide Run;
    var taken;
    taken, p := WorkerIsTaken(before, t);
    RunKeepsInv(taken);
    RunSnoc(taken, Write(t));
    CommandIsAnswered(Run(taken), t, p);
    RunSnoc(taken + [Write(t)], Emit(p));
    RunSnoc(taken + [Write(t)] + [Emit(p)], Read(t, true));
    RunSnoc(taken + [Write(t)] + [Emit(p)] + [Read(t, true)], Leave(t));
    all := taken + [Write(t)] + [Emit(p)] + [Read(t, true)] + [Leave(t)];
  }

  lemma CommandIsAnswered(s: State, t: Task, p: Pid)
    requires Inv(s) && t in s.calls && s.calls[t] == Holding(Some(p)) && Live(s, p)
    ensures var n := Step(Step(Step(Step(s, Write(t)), Emit(p)), Read(t, true)), Leave(t));
            && n.answers == s.answers + [(s.nextCommand, s.nextCommand)] && n.nextCommand == s.nextCommand + 1
            && n.slot == s.slot && Live(n, p) && n.lock == None && t !in n.calls
            && WrittenTo(n, p) == WrittenTo(s, p) + [s.nextCommand]
  {
    hide Inv;
    HoldingFacts(s, t, p);
  }

  lemma HoldingFacts(s: State, t: Task, p: Pid)
    requires Inv(s) && t in s.calls && s.calls[t] == Holding(Some(p)) && Live(s, p)
    ensures Drained(s, p) && s.pipes[p].emitted == |s.pipes[p].written| && s.lock == Some(t)
  {
  }

  // ---- the object ----

  class WorkerSlot {
    var lock: Option<Task>
    var process: Option<Pid>
    var pipes: map<Pid, Pipe>
    var calls: map<Task, Point>
    var nextPid: Pid
    var nextCommand: CommandId
    var answers: seq<(CommandId, CommandId)>

    ghost function View(): State
      reads this
    {
      State(lock, process, pipes, calls, nextPid, nextCommand, answers)
    }

    constructor ()
      ensures View() == INITIAL
    {
      lock, process, pipes, calls := None, None, map[], map[];
      nextPid, nextCommand, answers := 0, 0, [];
    }

    method LeaveLock(t: Task)
      modifies this`calls, this`lock
      ensures View() == Release(old(View()), t)
    {
      calls := calls - {t};
      if lock == Some(t) {
        lock := None;
      }
    }

    /** `_retire_uncertain_worker`, up to the await of the stopped process. */
    method RetireUncertainWorker(t: Task, p: Pid)
      modifies this`process, this`calls
      ensures View() == Retire(old(View()), t, p)
    {
      if process == Some(p) {
        process := None;
      }
      calls := calls[t := Retiring(p)];
    }

    /** `_command` up to its await: the frame of this command is now outstanding. */
    method WriteCommand(t: Task)
      requires t in calls && calls[t].Holding?
      modifies this
      ensures View() == CallStep(old(View()), t, Write(t))
    {
      var target := calls[t].process;
      if target.Some? {
        var p := target.value;
        if p !in pipes || !pipes[p].alive {
          LeaveLock(t);
        } else {
          pipes := pipes[p := pipes[p].(written := pipes[p].written + [nextCommand])];
          calls := calls[t := Awaiting(p, nextCommand)];
          nextCommand := nextCommand + 1;
        }
      }
    }

    /** `_command` from a delivered frame to its return or its retirement of the worker. */
    method ReadFrame(t: Task, valid: bool)
      requires t in calls && calls[t].Awaiting?
      modifies this
      ensures View() == CallStep(old(View()), t, Read(t, valid))
    {
      var p := calls[t].p;
      if p in pipes && pipes[p].read < pipes[p].emitted && pipes[p].emitted <= |pipes[p].written| {
        answers := answers + [(calls[t].command, pipes[p].written[pipes[p].read])];
        pipes := pipes[p := pipes[p].(read := pipes[p].read + 1)];
        if valid {
          calls := calls[t := Holding(Some(p))];
        } else {
          RetireUncertainWorker(t, p);
        }
      }
    }

    /** Take the slot's process if it is alive, clearing a dead one. */
    method LiveProcess(t: Task)
      requires t in calls && calls[t].Holding?
      modifies this`process, this`calls
      ensures View() == CallStep(old(View()), t, UseSlot(t))
    {
      if process.Some? {
        if process.value in pipes && pipes[process.value].alive {
          calls := calls[t := Holding(process)];
        } else {
          process := None;
        }
      }
    }

    /** The lock is granted. */
    method Enter(t: Task)
      requires t in calls && calls[t].Waiting?
      modifies this`lock, this`calls
      ensures View() == CallStep(old(View()), t, Event.Enter(t))
    {
      if lock.None? {
        lock, calls := Some(t), calls[t := Holding(None)];
      }
    }

    /** Spawn a worker into an empty slot. */
    method SpawnWorker(t: Task, ok: bool)
      requires t in calls && calls[t].Holding?
      modifies this
      ensures View() == CallStep(old(View()), t, Spawn(t, ok))
    {
      if process.None? {
        if !ok {
          LeaveLock(t);
        } else {
          process, pipes := Some(nextPid), pipes[nextPid := Pipe([], 0, 0, true)];
          calls, nextPid := calls[t := Holding(Some(nextPid))], nextPid + 1;
        }
      }
    }

    /** The retired worker has ended. */
    method WorkerStopped(t: Task)
      requires t in calls && calls[t].Retiring?
      modifies this
      ensures View() == CallStep(old(View()), t, Stopped(t))
    {
      var p := calls[t].p;
      if p in pipes {
        pipes := pipes[p := pipes[p].(alive := false)];
      }
      LeaveLock(t);
    }

    /** A cancellation, timeout or closed pipe is raised at the await. */
    method Raised(t: Task)
      requires t in calls
      modifies this
      ensures View() == CallStep(old(View()), t, Fail(t))
    {
      match calls[t]
      case Waiting => LeaveLock(t);
      case Holding(_) =>
      case Awaiting(p, _) => RetireUncertainWorker(t, p);
      case Retiring(_) => LeaveLock(t);
    }

    method Resume(t: Task, e: Event)
      requires t in calls && !e.Begin? && !e.Emit? && !e.Die? && e.t == t
      modifies this
      ensures View() == CallStep(old(View()), t, e)
    {
      match (calls[t], e)
      case (Waiting, Enter(_)) => Enter(t);
      case (Holding(_), UseSlot(_)) => LiveProcess(t);
      case (Holding(_), Spawn(_, ok)) => SpawnWorker(t, ok);
      case (Holding(_), Unslot(_)) => process := None;
      case (Holding(_), Write(_)) => WriteCommand(t);
      case (Holding(_), Leave(_)) => LeaveLock(t);
      case (Awaiting(_, _), Read(_, valid)) => ReadFrame(t, valid);
      case (Retiring(_), Stopped(_)) => WorkerStopped(t);
      case (_, Fail(_)) => Raised(t);
      case _ =>
    }

    method Handle(e: Event)
      modifies this
      ensures View() == Step(old(View()), e)
    {
      match e
      case Begin(t) =>
        if t !in calls { calls := calls[t := Waiting]; }
      case Emit(p) =>
        if p in pipes && pipes[p].alive && pipes[p].emitted < |pipes[p].written| {
          pipes := pipes[p := pipes[p].(emitted := pipes[p].emitted + 1)];
        }
      case Die(p) =>
        if p in pipes { pipes := pipes[p := pipes[p].(alive := false)]; }
      case _ =>
        if e.t in calls { Resume(e.t, e); }
    }

    /**
    A fresh slot that runs any events: every frame read answers the command it was read
    for, and a worker in the slot owes no frame while the lock is free.
    */
    method Replay(events: seq<Event>)
      requires View() == INITIAL
      modifies this
      ensures View() == Run(events)
      ensures forall i | 0 <= i < |answers| :: answers[i].0 == answers[i].1
      ensures lock.None? && process.Some? && process.value in pipes ==>
                pipes[process.value].read == |pipes[process.value].written|
    {
      for i := 0 to |events|
        invariant View() == Run(events[..i])
      {
        assert events[..i + 1][..i] == events[..i];
        Handle(events[i]);
      }
      assert events[..|events|] == events;
      NoStaleFrame(events);
    }
  }
}
