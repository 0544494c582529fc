/**
The memory-only and one-shot daemon (`auth/worker.py`, `_run_daemon`): how long a
session may be used and what counts as use.

One `Tick` is one turn of the daemon's loop.  Whether there is a session at the top
of a turn is the environment's choice, because the browser flow installs and removes
it concurrently.  Times are seconds of a monotonic clock.
*/
module Daemon {
  import opened Wrappers

  const MEMORY_ONLY_IDLE := 2 * 60 * 60
  const MEMORY_ONLY_ABSOLUTE := 16 * 60 * 60
  const ONE_SHOT_IDLE := 5 * 60

  datatype Mode = MemoryOnly | OneShot

  /** `valid` is whether the arguments have the right shape, `ok` whether the read succeeds. */
  datatype Action =
    | Connect
    | Disconnect
    | Status
    | Health
    | Shutdown
    | Account(valid: bool, ok: bool)
    | Market(ok: bool)
    | MarketBatch(ok: bool)
    | OrderDepth(ok: bool)
    | Unknown

  datatype Input = Nothing | Closed | Garbled | Command(action: Action)

  /**
  `now` and `session` are read at the top of the turn; `done` is the time when the
  command has been answered and `left` whether there is a session then.
  */
  datatype Tick = Tick(now: int, parentAlive: bool, session: bool, input: Input, done: int, left: bool)

  datatype Reply = SafeStatus | AccountResult(ok: bool) | ReadResult(ok: bool) | ProtocolError | NotAllowed | InvalidMode

  datatype Entry = Dispatched(tick: nat, action: Action) | Frame(tick: nat, reply: Reply)

  /** `_daemon_session_expired`. */
  predicate SessionExpired(mode: Mode, now: int, lastActivity: Option<int>, startedAt: Option<int>) {
    || (lastActivity.Some? &&
        now - lastActivity.value >= if mode == MemoryOnly then MEMORY_ONLY_IDLE else ONE_SHOT_IDLE)
    || (mode == MemoryOnly && startedAt.Some? && now - startedAt.value >= MEMORY_ONLY_ABSOLUTE)
  }

  // ---- reference: read off the history ----

  /** The turn at which the session seen at turn `i` was first seen. */
  function FirstSeen(ticks: seq<Tick>, i: nat): (a: nat)
    requires i < |ticks| && ticks[i].session
    ensures a <= i && (forall j | a <= j <= i :: ticks[j].session) && (a > 0 ==> !ticks[a - 1].session)
  {
    if i > 0 && ticks[i - 1].session then FirstSeen(ticks, i - 1) else i
  }

  /** A read that counts as use of the session. */
  predicate Qualifies(mode: Mode, t: Tick) {
    && t.input.Command?
    && match t.input.action {
         case Account(valid, ok) => valid && ok
         case Market(ok) => ok && mode == MemoryOnly
         case MarketBatch(ok) => ok && mode == MemoryOnly
         case _ => false
       }
  }

  /** When the session seen at turn `i` was last used, or first seen if it has not been used. */
  function LastUse(mode: Mode, ticks: seq<Tick>, i: nat): int
    requires i < |ticks| && ticks[i].session
  {
    if i > 0 && Qualifies(mode, ticks[i - 1]) then ticks[i - 1].done
    else if i > 0 && ticks[i - 1].session then LastUse(mode, ticks, i - 1)
    else ticks[i].now
  }

  /** The session is still young and recently used enough at turn `i`. */
  predicate InTime(mode: Mode, ticks: seq<Tick>, i: nat)
    requires i < |ticks| && ticks[i].session
  {
    match mode
    case MemoryOnly =>
      && ticks[i].now - LastUse(mode, ticks, i) < MEMORY_ONLY_IDLE
      && ticks[i].now - ticks[FirstSeen(ticks, i)].now < MEMORY_ONLY_ABSOLUTE
    case OneShot => ticks[i].now - LastUse(mode, ticks, i) < ONE_SHOT_IDLE
  }

  predicate StopsAtTop(mode: Mode, ticks: seq<Tick>, i: nat)
    requires i < |ticks|
  {
    !ticks[i].parentAlive || (ticks[i].session && !InTime(mode, ticks, i))
  }

  predicate StopsAfterInput(mode: Mode, t: Tick) {
    match t.input
    case Closed => true
    case Command(action) => action == Shutdown || (mode == OneShot && action == Account(true, true))
    case _ => false
  }

  function ReplyTo(action: Action): Reply {
    match action
    case Account(valid, ok) => if valid then AccountResult(ok) else ProtocolError
    case Market(ok) => ReadResult(ok)
    case MarketBatch(ok) => ReadResult(ok)
    case OrderDepth(ok) => ReadResult(ok)
    case Unknown => NotAllowed
    case _ => SafeStatus
  }

  function Entries(i: nat, t: Tick): seq<Entry> {
    match t.input
    case Garbled => [Frame(i, ProtocolError)]
    case Command(action) => [Dispatched(i, action), Frame(i, ReplyTo(action))]
    case _ => []
  }

  /** Everything the first `n` turns dispatch and emit. */
  function History(ticks: seq<Tick>, n: nat): seq<Entry>
    requires n <= |ticks|
  {
    if n == 0 then [] else History(ticks, n - 1) + Entries(n - 1, ticks[n - 1])
  }

  /** The daemon takes `turns` full turns and ends at the first reason to stop. */
  ghost predicate Ran(mode: Mode, ticks: seq<Tick>, log: seq<Entry>, turns: nat) {
    && turns <= |ticks|
    && log == History(ticks, turns)
    && (forall i | 0 <= i < turns :: !StopsAtTop(mode, ticks, i))
    && (forall i | 0 <= i < turns - 1 :: !StopsAfterInput(mode, ticks[i]))
    && (turns < |ticks| ==>
          StopsAtTop(mode, ticks, turns) || (turns > 0 && StopsAfterInput(mode, ticks[turns - 1])))
  }

  // ---- the commands, one by one ----

  /** A successful account read is use of the session; in a memory-only daemon so is a market read. */
  predicate Uses(mode: Mode, input: Input) {
    || input == Command(Account(true, true))
    || (mode == MemoryOnly && (input == Command(Market(true)) || input == Command(MarketBatch(true))))
  }

  /** The end of the input and a shutdown end the daemon, and so does the one-shot account read. */
  predicate Ends(mode: Mode, input: Input) {
    || input == Closed || input == Command(Shutdown)
    || (mode == OneShot && input == Command(Account(true, true)))
  }

  predicate Replies(action: Action, reply: Reply) {
    && (action in {Connect, Disconnect, Status, Health, Shutdown} ==> reply == SafeStatus)
    && (action == Unknown ==> reply == NotAllowed)
    && (action in {Account(true, true), Account(true, false)} ==> reply == AccountResult(action.ok))
    && (action in {Account(false, true), Account(false, false)} ==> reply == ProtocolError)
    && (action in {Market(true), MarketBatch(true), OrderDepth(true)} ==> reply == ReadResult(true))
    && (action in {Market(false), MarketBatch(false), OrderDepth(false)} ==> reply == ReadResult(false))
  }

  lemma InputKinds(mode: Mode, t: Tick)
    ensures Qualifies(mode, t) <==> Uses(mode, t.input)
    ensures StopsAfterInput(mode, t) <==> Ends(mode, t.input)
  {
  }

  /** One command line: what it dispatches and emits, whether it counts as use, whether it ends the daemon. */
  method Answer(mode: Mode, turn: nat, t: Tick) returns (entries: seq<Entry>, used: bool, stop: bool)
    ensures entries == Entries(turn, t)
    ensures used <==> Qualifies(mode, t)
    ensures stop <==> StopsAfterInput(mode, t)
    ensures used <==> Uses(mode, t.input)
    ensures stop <==> Ends(mode, t.input)
    ensures !t.input.Garbled? && !t.input.Command? ==> entries == []
    ensures t.input == Garbled ==> entries == [Frame(turn, ProtocolError)]
    ensures t.input.Command? ==> |entries| == 2 && entries[0] == Dispatched(turn, t.input.action)
    ensures t.input.Command? ==> entries[1].Frame? && entries[1].tick == turn && Replies(t.input.action, entries[1].reply)
  {
    entries, used, stop := [], false, false;
    match t.input {
      case Nothing =>
      case Closed => stop := true;
      case Garbled => entries := [Frame(turn, ProtocolError)];
      case Command(action) =>
        var reply := SafeStatus;
        match action {
          case Account(valid, ok) =>
            if !valid {
              reply := ProtocolError;
            } else {
              used, stop := ok, ok && mode == OneShot;
              reply := AccountResult(ok);
            }
          case Market(ok) =>
            used := ok && mode == MemoryOnly;
            reply := ReadResult(ok);
          case MarketBatch(ok) =>
            used := ok && mode == MemoryOnly;
            reply := ReadResult(ok);
          case OrderDepth(ok) => reply := ReadResult(ok);
          case Unknown => reply := NotAllowed;
          case Shutdown => stop := true;
          case _ =>
        }
        entries := [Dispatched(turn, action), Frame(turn, reply)];
    }
  }

  /** The daemon's two timers when turn `n` begins. */
  ghost function ActivityBefore(mode: Mode, ticks: seq<Tick>, n: nat): Option<int>
    requires n <= |ticks|
  {
    if n == 0 then None
    else if Qualifies(mode, ticks[n - 1]) then Some(ticks[n - 1].done)
    else if ticks[n - 1].session then Some(LastUse(mode, ticks, n - 1))
    else None
  }

  ghost function StartedBefore(ticks: seq<Tick>, n: nat): Option<int>
    requires n <= |ticks|
  {
    if n > 0 && ticks[n - 1].session then Some(ticks[FirstSeen(ticks, n - 1)].now) else None
  }

  /** The timers after the daemon has looked at the session at the top of a turn. */
  method Observe(t: Tick, lastActivity: Option<int>, startedAt: Option<int>)
    returns (activity: Option<int>, started: Option<int>)
    ensures activity == if !t.session then None else if lastActivity.Some? then lastActivity else Some(t.now)
    ensures started == if !t.session then None else if startedAt.Some? then startedAt else Some(t.now)
  {
    activity, started := lastActivity, startedAt;
    if t.session {
      if activity.None? { activity := Some(t.now); }
      if started.None? { started := Some(t.now); }
    } else {
      activity, started := None, None;
    }
  }

  /** At the top of a turn the timers are the history's, and they expire when the history says so. */
  lemma TopOfTurn(mode: Mode, ticks: seq<Tick>, i: nat, activity: Option<int>, started: Option<int>)
    requires i < |ticks| && ticks[i].session
    requires activity == if ActivityBefore(mode, ticks, i).Some? then ActivityBefore(mode, ticks, i) else Some(ticks[i].now)
    requires started == if StartedBefore(ticks, i).Some? then StartedBefore(ticks, i) else Some(ticks[i].now)
    ensures activity == Some(LastUse(mode, ticks, i)) && started == Some(ticks[FirstSeen(ticks, i)].now)
    ensures SessionExpired(mode, ticks[i].now, activity, started) <==> !InTime(mode, ticks, i)
  {
  }

  /** The first `n` turns were all taken in full and none of them ended the daemon. */
  ghost predicate Running(mode: Mode, ticks: seq<Tick>, n: nat) {
    n <= |ticks| && forall i | 0 <= i < n :: !StopsAtTop(mode, ticks, i) && !StopsAfterInput(mode, ticks[i])
  }

  /** There is a session when the daemon ends. */
  predicate EndsWithSession(mode: Mode, ticks: seq<Tick>, turns: nat)
    requires turns <= |ticks|
  {
    if turns > 0 && StopsAfterInput(mode, ticks[turns - 1]) then ticks[turns - 1].left
    else turns < |ticks| && ticks[turns].session
  }

  /** The session that an input ending the daemon leaves, or else the one seen at the top of the last turn, is disconnected. */
  lemma SessionsAtEnd(mode: Mode, ticks: seq<Tick>, turns: nat)
    requires turns <= |ticks|
    ensures turns > 0 && Ends(mode, ticks[turns - 1].input) ==> (EndsWithSession(mode, ticks, turns) <==> ticks[turns - 1].left)
    ensures turns < |ticks| && (turns == 0 || !Ends(mode, ticks[turns - 1].input)) ==>
              (EndsWithSession(mode, ticks, turns) <==> ticks[turns].session)
  {
    if turns > 0 { InputKinds(mode, ticks[turns - 1]); }
  }

  lemma RunStarts(mode: Mode, ticks: seq<Tick>)
    ensures Running(mode, ticks, 0)
  {
  }

  lemma RunEnds(mode: Mode, ticks: seq<Tick>, n: nat)
    requires Running(mode, ticks, n)
    ensures n <= |ticks|
    ensures n == |ticks| || StopsAtTop(mode, ticks, n) ==> Ran(mode, ticks, History(ticks, n), n)
    ensures n < |ticks| && !StopsAtTop(mode, ticks, n) && StopsAfterInput(mode, ticks[n]) ==>
              Ran(mode, ticks, History(ticks, n + 1), n + 1)
    ensures n < |ticks| && !StopsAtTop(mode, ticks, n) && !StopsAfterInput(mode, ticks[n]) ==>
              Running(mode, ticks, n + 1)
    ensures EndsWithSession(mode, ticks, n) <==> n < |ticks| && ticks[n].session
    ensures n < |ticks| && StopsAfterInput(mode, ticks[n]) ==> (EndsWithSession(mode, ticks, n + 1) <==> ticks[n].left)
  {
  }

  /** The loop of `_run_daemon`; a daemon that ends disconnects the session that is left. */
  method RunDaemon(mode: Mode, ticks: seq<Tick>) returns (log: seq<Entry>, turns: nat, disconnects: bool)
    ensures Ran(mode, ticks, log, turns)
    ensures disconnects <==> EndsWithSession(mode, ticks, turns)
  {
    hide EndsWithSession, Ran, Running, StopsAfterInput, InTime, SessionExpired;
    log, turns, disconnects := [], 0, false;
    RunStarts(mode, ticks);
    var lastActivity: Option<int>, startedAt: Option<int> := None, None;
    while turns < |ticks|
      invariant turns <= |ticks| && Running(mode, ticks, turns) && log == History(ticks, turns)
      invariant lastActivity == ActivityBefore(mode, ticks, turns) && startedAt == StartedBefore(ticks, turns)
    {
      var t := ticks[turns];
      RunEnds(mode, ticks, turns);
      if !t.parentAlive {
        disconnects := t.session;
        return;
      }
      lastActivity, startedAt := Observe(t, lastActivity, startedAt);
      if t.session {
        TopOfTurn(mode, ticks, turns, lastActivity, startedAt);
      }
      if t.session && SessionExpired(mode, t.now, lastActivity, startedAt) {
        disconnects := true;
        return;
      }
      var entries, used, stop := Answer(mode, turns, t);
      log := log + entries;
      if used { lastActivity := Some(t.done); }
      turns := turns + 1;
      if stop {
        disconnects := t.left;
        return;
      }
    }
    RunEnds(mode, ticks, turns);
  }

  /** `_run_daemon`: only the two daemon modes are served, any other gets one refusal. */
  method StartDaemon(name: string, ticks: seq<Tick>) returns (log: seq<Entry>, turns: nat, disconnects: bool)
    ensures name == "memory_only" ==> Ran(MemoryOnly, ticks, log, turns) && (disconnects <==> EndsWithSession(MemoryOnly, ticks, turns))
    ensures name == "one_shot" ==> Ran(OneShot, ticks, log, turns) && (disconnects <==> EndsWithSession(OneShot, ticks, turns))
    ensures name != "memory_only" && name != "one_shot" ==> log == [Frame(0, InvalidMode)] && turns == 0 && !disconnects
  {
    if name == "memory_only" {
      log, turns, disconnects := RunDaemon(MemoryOnly, ticks);
    } else if name == "one_shot" {
      log, turns, disconnects := RunDaemon(OneShot, ticks);
    } else {
      log, turns, disconnects := [Frame(0, InvalidMode)], 0, false;
    }
  }

  // ---- lifetimes ----

  /** The clock never runs backwards, within a turn or from one to the next. */
  ghost predicate ClockRuns(ticks: seq<Tick>) {
    && (forall i | 0 <= i < |ticks| :: ticks[i].now <= ticks[i].done)
    && (forall i | 0 < i < |ticks| :: ticks[i - 1].done <= ticks[i].now)
  }

  lemma {:induction false} NoLaterUse(mode: Mode, ticks: seq<Tick>, i: nat)
    requires ClockRuns(ticks) && i < |ticks| && ticks[i].session
    ensures LastUse(mode, ticks, i) <= ticks[i].now
    ensures forall j | 0 <= j && FirstSeen(ticks, i) - 1 <= j < i && Uses(mode, ticks[j].input) ::
              ticks[j].done <= LastUse(mode, ticks, i)
  {
    hide Uses, Qualifies;
    if i > 0 {
      InputKinds(mode, ticks[i - 1]);
      if ticks[i - 1].session { NoLaterUse(mode, ticks, i - 1); }
    }
  }

  /** The last use is at turn `j`, or there was none (`j == -1`) and it is the first sighting. */
  lemma {:induction false} LastUseIsAt(mode: Mode, ticks: seq<Tick>, i: nat) returns (j: int)
    requires i < |ticks| && ticks[i].session
    ensures var a := FirstSeen(ticks, i);
            if j == -1 then
              LastUse(mode, ticks, i) == ticks[a].now
              && forall k | 0 <= k && a - 1 <= k < i :: !Uses(mode, ticks[k].input)
            else 0 <= j && a - 1 <= j < i && Uses(mode, ticks[j].input) && LastUse(mode, ticks, i) == ticks[j].done
  {
    hide Uses, Qualifies;
    j := -1;
    if i > 0 {
      InputKinds(mode, ticks[i - 1]);
      if Qualifies(mode, ticks[i - 1]) {
        j := i - 1;
      } else if ticks[i - 1].session {
        j := LastUseIsAt(mode, ticks, i - 1);
      }
    }
  }

  /**
  Last use is the latest use since the session was first seen (or in the turn just
  before), and the first sighting when there is none.
  */
  lemma LastUseIsLatest(mode: Mode, ticks: seq<Tick>, i: nat)
    requires ClockRuns(ticks) && i < |ticks| && ticks[i].session
    ensures var a := FirstSeen(ticks, i);
            && LastUse(mode, ticks, i) <= ticks[i].now
            && (forall j | 0 <= j && a - 1 <= j < i && Uses(mode, ticks[j].input) :: ticks[j].done <= LastUse(mode, ticks, i))
            && (if exists j | 0 <= j && a - 1 <= j < i :: Uses(mode, ticks[j].input)
                then exists j | 0 <= j && a - 1 <= j < i :: Uses(mode, ticks[j].input) && LastUse(mode, ticks, i) == ticks[j].done
                else LastUse(mode, ticks, i) == ticks[a].now)
  {
    hide Uses, LastUse;
    NoLaterUse(mode, ticks, i);
    var j := LastUseIsAt(mode, ticks, i);
  }

  lemma {:induction false} HistoryEntries(ticks: seq<Tick>, n: nat, k: nat)
    requires n <= |ticks| && k < |History(ticks, n)|
    ensures var e := History(ticks, n)[k];
            && e.tick < n && e in Entries(e.tick, ticks[e.tick])
            && (e.Dispatched? ==>
                  k + 1 < |History(ticks, n)| && History(ticks, n)[k + 1] == Frame(e.tick, ReplyTo(e.action)))
            && (e.Frame? && e.reply != ProtocolError ==> k > 0 && History(ticks, n)[k - 1].Dispatched?)
  {
    if k < |History(ticks, n - 1)| {
      HistoryEntries(ticks, n - 1, k);
    }
  }

  /**
  Every dispatched command found either no session at the top of its turn, or one in
  time; and it is answered by exactly the next entry of the log, its one frame.
  */
  lemma Lifetimes(mode: Mode, ticks: seq<Tick>, log: seq<Entry>, turns: nat, k: nat)
    requires Ran(mode, ticks, log, turns) && k < |log| && log[k].Dispatched?
    ensures var i := log[k].tick;
            && i < |ticks| && ticks[i].parentAlive
            && (ticks[i].session && mode == MemoryOnly ==>
                  ticks[i].now - LastUse(mode, ticks, i) < 7200 && ticks[i].now - ticks[FirstSeen(ticks, i)].now < 57600)
            && (ticks[i].session && mode == OneShot ==> ticks[i].now - LastUse(mode, ticks, i) < 300)
    ensures k + 1 < |log| && log[k + 1] == Frame(log[k].tick, ReplyTo(log[k].action))
  {
    HistoryEntries(ticks, turns, k);
    assert !StopsAtTop(mode, ticks, log[k].tick);
  }

  lemma {:induction false} OneShotUnused(ticks: seq<Tick>, i: nat)
    requires i < |ticks| && ticks[i].session
    requires forall j | 0 <= j < i :: !StopsAfterInput(OneShot, ticks[j])
    ensures LastUse(OneShot, ticks, i) == ticks[FirstSeen(ticks, i)].now
  {
    if i > 0 && ticks[i - 1].session { OneShotUnused(ticks, i - 1); }
  }

  /** A one-shot session is used for commands only within five minutes of being first seen. */
  lemma OneShotLifetime(ticks: seq<Tick>, log: seq<Entry>, turns: nat, k: nat)
    requires Ran(OneShot, ticks, log, turns) && k < |log| && log[k].Dispatched?
    ensures var i := log[k].tick;
            i < |ticks| && (ticks[i].session ==> ticks[i].now - ticks[FirstSeen(ticks, i)].now < 300)
  {
    HistoryEntries(ticks, turns, k);
    var i := log[k].tick;
    assert !StopsAtTop(OneShot, ticks, i);
    if ticks[i].session { OneShotUnused(ticks, i); }
  }

  /** A one-shot daemon emits at most one successful account frame, and nothing after it. */
  lemma OneShotOnce(ticks: seq<Tick>, log: seq<Entry>, turns: nat, k: nat)
    requires Ran(OneShot, ticks, log, turns) && k < |log| && log[k].Frame? && log[k].reply == AccountResult(true)
    ensures k == |log| - 1
  {
    HistoryEntries(ticks, turns, k);
    var i := log[k].tick;
    assert StopsAfterInput(OneShot, ticks[i]);
    assert turns == i + 1;
    HistoryEntries(ticks, turns, k - 1);
    assert |Entries(i, ticks[i])| == 2;
    if k < |log| - 2 {
      assert log[k] == History(ticks, i)[k];
      HistoryEntries(ticks, i, k);
    }
  }

  // ---- what keeps a session and what does not ----

  /** The session seen at turn `i` was used, or first seen, less than `limit` ago. */
  ghost predicate RecentlyUsed(mode: Mode, ticks: seq<Tick>, i: nat, a: nat, limit: int)
    requires a <= i < |ticks|
  {
    if exists j | 0 <= j && a - 1 <= j < i :: Uses(mode, ticks[j].input)
    then exists j | 0 <= j && a - 1 <= j < i :: Uses(mode, ticks[j].input) && ticks[i].now - ticks[j].done < limit
    else ticks[i].now - ticks[a].now < limit
  }

  lemma LastUseDecides(mode: Mode, ticks: seq<Tick>, i: nat, limit: int)
    requires ClockRuns(ticks) && i < |ticks| && ticks[i].session
    ensures ticks[i].now - LastUse(mode, ticks, i) < limit <==> RecentlyUsed(mode, ticks, i, FirstSeen(ticks, i), limit)
  {
    LastUseIsLatest(mode, ticks, i);
  }

  /**
  What ends a daemon, all of it: at the top of a turn the parent is gone, or a session has
  not been used for two hours (memory-only) or five minutes (one-shot), or a memory-only
  session was first seen sixteen hours ago; and after a turn, an input that ends it.
  The daemon goes through every turn before the first such reason, and through no other.
  */
  lemma EndsExactly(mode: Mode, ticks: seq<Tick>, log: seq<Entry>, turns: nat, i: nat)
    requires ClockRuns(ticks) && Ran(mode, ticks, log, turns) && i < |ticks| && i <= turns
    requires i > 0 ==> !Ends(mode, ticks[i - 1].input)
    ensures i < turns <==>
              && ticks[i].parentAlive
              && (ticks[i].session ==>
                    var a := FirstSeen(ticks, i);
                    && RecentlyUsed(mode, ticks, i, a, if mode == MemoryOnly then 7200 else 300)
                    && (mode == MemoryOnly ==> ticks[i].now - ticks[a].now < 57600))
    ensures i + 1 < turns ==> !Ends(mode, ticks[i].input)
  {
    if i > 0 { InputKinds(mode, ticks[i - 1]); }
    InputKinds(mode, ticks[i]);
    if ticks[i].session {
      LastUseDecides(mode, ticks, i, if mode == MemoryOnly then 7200 else 300);
      assert InTime(mode, ticks, i) <==>
        && ticks[i].now - LastUse(mode, ticks, i) < (if mode == MemoryOnly then 7200 else 300)
        && (mode == MemoryOnly ==> ticks[i].now - ticks[FirstSeen(ticks, i)].now < 57600);
    }
    assert i < turns ==> !StopsAtTop(mode, ticks, i);
    assert i == turns ==> StopsAtTop(mode, ticks, i);
    assert i + 1 < turns ==> !StopsAfterInput(mode, ticks[i]);
  }

  /** A use keeps the session from its own completion on. */
  lemma UsesExtend(mode: Mode, ticks: seq<Tick>, i: nat)
    requires i + 1 < |ticks| && ticks[i + 1].session
    requires mode == MemoryOnly
    ensures ticks[i].input in {Command(Account(true, true)), Command(Market(true)), Command(MarketBatch(true))} ==>
              LastUse(mode, ticks, i + 1) == ticks[i].done
  {
    InputKinds(mode, ticks[i]);
  }

  /**
  Inputs that are not use and do not end the daemon: silence, garbage, the browser pages,
  status and health probes, unknown actions, every order-depth read, refused or failed
  reads; and in a one-shot daemon every market read.
  */
  predicate Silent(mode: Mode, input: Input) {
    match input
    case Nothing => true
    case Garbled => true
    case Closed => false
    case Command(Connect) => true
    case Command(Disconnect) => true
    case Command(Status) => true
    case Command(Health) => true
    case Command(Unknown) => true
    case Command(Shutdown) => false
    case Command(OrderDepth(_)) => true
    case Command(Account(valid, ok)) => !valid || !ok
    case Command(Market(ok)) => !ok || mode == OneShot
    case Command(MarketBatch(ok)) => !ok || mode == OneShot
  }

  /** The same turns, except that some silent inputs are replaced by other silent ones. */
  ghost predicate SameButIdle(mode: Mode, x: seq<Tick>, y: seq<Tick>) {
    && |x| == |y|
    && forall i | 0 <= i < |x| ::
         && x[i] == y[i].(input := x[i].input)
         && (x[i].input == y[i].input || (Silent(mode, x[i].input) && Silent(mode, y[i].input)))
  }

  lemma SilentInputs(mode: Mode, t: Tick)
    requires Silent(mode, t.input)
    ensures !Qualifies(mode, t) && !StopsAfterInput(mode, t)
  {
  }

  lemma SameKinds(mode: Mode, x: seq<Tick>, y: seq<Tick>, i: nat)
    requires SameButIdle(mode, x, y) && i < |x|
    ensures Qualifies(mode, x[i]) == Qualifies(mode, y[i]) && StopsAfterInput(mode, x[i]) == StopsAfterInput(mode, y[i])
  {
    assert x[i] == y[i].(input := x[i].input);
    if x[i].input != y[i].input {
      SilentInputs(mode, x[i]);
      SilentInputs(mode, y[i]);
    }
  }

  lemma {:induction false} IdleTurns(mode: Mode, x: seq<Tick>, y: seq<Tick>, i: nat)
    requires SameButIdle(mode, x, y) && i < |x| && x[i].session
    ensures LastUse(mode, x, i) == LastUse(mode, y, i) && FirstSeen(x, i) == FirstSeen(y, i)
  {
    if i > 0 {
      assert x[i - 1] == y[i - 1].(input := x[i - 1].input);
      SameKinds(mode, x, y, i - 1);
      if x[i - 1].session { IdleTurns(mode, x, y, i - 1); }
    }
  }

  /**
  Silence, garbage, browser pages, status and health probes, order-depth reads and failed
  reads never extend a session: replacing any of them by any other of them, the daemon
  ends at the same turn.
  */
  lemma IdleReadsNeverExtend(mode: Mode, x: seq<Tick>, y: seq<Tick>, xs: seq<Entry>, ys: seq<Entry>, m: nat, n: nat)
    requires SameButIdle(mode, x, y) && Ran(mode, x, xs, m) && Ran(mode, y, ys, n)
    ensures m == n
  {
    forall i | 0 <= i < |x|
      ensures StopsAtTop(mode, x, i) == StopsAtTop(mode, y, i)
      ensures StopsAfterInput(mode, x[i]) == StopsAfterInput(mode, y[i])
    {
      assert x[i] == y[i].(input := x[i].input);
      SameKinds(mode, x, y, i);
      if x[i].session { IdleTurns(mode, x, y, i); }
    }
  }

  /** An order-depth read, a health probe or a failed read might as well not have been there. */
  lemma OrderDepthIsSilence(mode: Mode, ticks: seq<Tick>, k: nat, action: Action, log: seq<Entry>, turns: nat,
                            without: seq<Entry>, n: nat)
    requires k < |ticks| && ticks[k].input == Command(action)
    requires action in {OrderDepth(true), OrderDepth(false), Health, Status, Connect, Disconnect, Unknown,
                        Account(false, true), Account(false, false), Account(true, false), Market(false), MarketBatch(false)}
    requires Ran(mode, ticks, log, turns)
    requires Ran(mode, ticks[k := ticks[k].(input := Nothing)], without, n)
    ensures n == turns
  {
    var y := ticks[k := ticks[k].(input := Nothing)];
    assert SameButIdle(mode, ticks, y);
    IdleReadsNeverExtend(mode, ticks, y, log, without, turns, n);
  }
}
