/**
The once worker and the market daemon (`auth/worker.py`, `_run_once`,
`_load_validated_market_session`, `_run_persistent_market_daemon`): which session an
upstream operation may use, and what happens to the stored one.

The credential store, session validation and the upstream operations answer through
parameters; the store is shared, so what a load returns is not tied to earlier writes.
*/
module Workers {
  import opened Wrappers

  /** Session material up to `_same_session_material`. */
  type Session = nat

  const REVALIDATE_SECONDS := 15 * 60

  datatype LoadAnswer = LoadFailed | Loaded(saved: Option<Session>)

  datatype Validation = Unverified(code: string) | Rejected | Refreshed(refreshed: Session)

  /** `Expired` invalidates the session holder the operation was given. */
  datatype Outcome = Payload(value: nat) | Expired | Failure(code: string)

  /** What a health probe reports instead of account data. */
  datatype Health = Verified | Reconnect | ReadsFail | Unverifiable

  datatype Frame = Data(value: nat) | Report(health: Health) | Ack | Refusal(code: string)

  function Reply(outcome: Outcome): Frame {
    match outcome
    case Payload(v) => Data(v)
    case Expired => Refusal("auth_expired")
    case Failure(code) => Refusal(code)
  }

  /** `_account_read_health_status`. */
  function HealthOf(outcome: Outcome): Health {
    match outcome
    case Payload(_) => Verified
    case Expired => Reconnect
    case Failure(code) => if code == "auth_required" || code == "auth_expired" || code == "no_session" then Reconnect else ReadsFail
  }

  // ---- the once worker ----

  datatype OnceCommand = Malformed | Disallowed | Read | HealthProbe

  /** What the world answers to one once worker. */
  datatype World = World(load: LoadAnswer, validation: Validation, first: Outcome, second: Outcome,
                         saveOk: bool, deleteOk: bool)
  {
    /** A saved session was found. */
    predicate HasSession() {
      load.Loaded? && load.saved.Some?
    }

    predicate Changed() {
      HasSession() && validation.Refreshed? && validation.refreshed != load.saved.value
    }

    /** The session is verified and, where it changed, saved. */
    predicate Verifies() {
      HasSession() && validation.Refreshed? && (Changed() ==> saveOk)
    }

    predicate Retries() {
      Verifies() && first.Expired?
    }

    /** The outcome that counts. */
    function Last(): Outcome {
      if Retries() then second else first
    }

    /** Validation rejects the session, or the verified session is expired twice. */
    predicate Deletes() {
      HasSession() && (validation.Rejected? || (Retries() && second.Expired?))
    }

    /** A load, save or delete the worker attempts fails. */
    predicate StoreFails() {
      load.LoadFailed? || (Changed() && !saveOk) || (Deletes() && !deleteOk)
    }
  }

  /** Everything one worker did: operations by the material they used, store writes, frames. */
  datatype Record = Record(operations: seq<Session>, saves: seq<Session>, deletes: nat, frames: seq<Frame>)

  predicate AsksUpstream(command: OnceCommand) {
    command == Read || command == HealthProbe
  }

  /** The record of a read, case by case: what was loaded, what the validation said, how the operations ended. */
  function ReadRecord(load: LoadAnswer, validation: Validation, first: Outcome, second: Outcome, saveOk: bool, deleteOk: bool): Record {
    match (load, validation)
    case (LoadFailed, _) => Record([], [], 0, [Refusal("credential_store")])
    case (Loaded(None), _) => Record([], [], 0, [Refusal("no_session")])
    case (Loaded(Some(saved)), Unverified(code)) => Record([saved], [], 0, [Refusal(code)])
    case (Loaded(Some(saved)), Rejected) =>
      Record([saved], [], 1, [Refusal(if deleteOk then "auth_expired" else "credential_store")])
    case (Loaded(Some(saved)), Refreshed(renewed)) =>
      var saves := if renewed == saved then [] else [renewed];
      if renewed != saved && !saveOk then Record([saved], saves, 0, [Refusal("credential_store")])
      else
        match (first, second)
        case (Payload(v), _) => Record([saved], saves, 0, [Data(v)])
        case (Failure(code), _) => Record([saved], saves, 0, [Refusal(code)])
        case (Expired, Payload(v)) => Record([saved, renewed], saves, 0, [Data(v)])
        case (Expired, Failure(code)) => Record([saved, renewed], saves, 0, [Refusal(code)])
        case (Expired, Expired) =>
          Record([saved, renewed], saves, 1, [Refusal(if deleteOk then "auth_expired" else "credential_store")])
  }

  /** What a probe says instead of the read's frame, case by case. */
  function ProbeFrame(load: LoadAnswer, validation: Validation, first: Outcome, second: Outcome, saveOk: bool, deleteOk: bool): Frame {
    match (load, validation)
    case (LoadFailed, _) => Refusal("credential_store")
    case (Loaded(None), _) => Report(Reconnect)
    case (Loaded(Some(_)), Unverified(_)) => Report(Unverifiable)
    case (Loaded(Some(_)), Rejected) => if deleteOk then Report(Reconnect) else Refusal("credential_store")
    case (Loaded(Some(saved)), Refreshed(renewed)) =>
      if renewed != saved && !saveOk then Refusal("credential_store")
      else
        match (first, second)
        case (Payload(_), _) => Report(Verified)
        case (Failure(code), _) => Report(if MeansReconnect(code) then Reconnect else ReadsFail)
        case (Expired, Payload(_)) => Report(Verified)
        case (Expired, Failure(code)) => Report(if MeansReconnect(code) then Reconnect else ReadsFail)
        case (Expired, Expired) => if deleteOk then Report(Reconnect) else Refusal("credential_store")
  }

  predicate MeansReconnect(code: string) {
    code in {"auth_required", "auth_expired", "no_session"}
  }

  /** `_run_once`. */
  method RunOnce(command: OnceCommand, w: World) returns (r: Record)
    ensures |r.frames| == 1
    ensures r.operations ==
            if !AsksUpstream(command) || !w.HasSession() then []
            else if w.Retries() then [w.load.saved.value, w.validation.refreshed]
            else [w.load.saved.value]
    ensures r.saves == if AsksUpstream(command) && w.Changed() then [w.validation.refreshed] else []
    ensures r.deletes == if AsksUpstream(command) && w.Deletes() then 1 else 0
    ensures forall v :: r.frames[0] == Data(v) <==> command == Read && w.Verifies() && w.Last() == Payload(v)
    ensures r.frames[0] == Report(Verified) <==> command == HealthProbe && w.Verifies() && w.Last().Payload?
    ensures AsksUpstream(command) && w.StoreFails() ==> r.frames[0] == Refusal("credential_store")
    ensures command == Read && !w.StoreFails() ==>
              r.frames[0] == if w.load == Loaded(None) then Refusal("no_session")
                             else if w.validation.Unverified? then Refusal(w.validation.code)
                             else if w.validation.Rejected? then Refusal("auth_expired")
                             else Reply(w.Last())
    ensures command == HealthProbe && !w.StoreFails() ==>
              r.frames[0] == Report(if w.load == Loaded(None) || w.validation.Rejected? then Reconnect
                                    else if w.validation.Unverified? then Unverifiable
                                    else HealthOf(w.Last()))
    ensures command == Read ==> r == ReadRecord(w.load, w.validation, w.first, w.second, w.saveOk, w.deleteOk)
    ensures command == HealthProbe ==>
              r == ReadRecord(w.load, w.validation, w.first, w.second, w.saveOk, w.deleteOk).(
                     frames := [ProbeFrame(w.load, w.validation, w.first, w.second, w.saveOk, w.deleteOk)])
    ensures command == Malformed ==> r.frames[0] == Refusal("protocol_error")
    ensures command == Disallowed ==> r.frames[0] == Refusal("operation_not_allowed")
  {
    r := Record([], [], 0, []);
    if command == Malformed {
      return r.(frames := [Refusal("protocol_error")]);
    }
    if command == Disallowed {
      return r.(frames := [Refusal("operation_not_allowed")]);
    }
    if w.load.LoadFailed? {
      return r.(frames := [Refusal("credential_store")]);
    }
    if w.load.saved.None? {
      return r.(frames := [if command == HealthProbe then Report(Reconnect) else Refusal("no_session")]);
    }
    var saved := w.load.saved.value;
    r := r.(operations := [saved]);
    var result := w.first;
    match w.validation {
      case Unverified(code) =>
        return r.(frames := [if command == HealthProbe then Report(Unverifiable) else Refusal(code)]);
      case Rejected =>
        r := r.(deletes := 1);
        if !w.deleteOk {
          return r.(frames := [Refusal("credential_store")]);
        }
        return r.(frames := [if command == HealthProbe then Report(Reconnect) else Refusal("auth_expired")]);
      case Refreshed(refreshed) =>
        if refreshed != saved {
          r := r.(saves := [refreshed]);
          if !w.saveOk {
            return r.(frames := [Refusal("credential_store")]);
          }
        }
        if result.Expired? {
          r := r.(operations := r.operations + [refreshed]);
          result := w.second;
          if result.Expired? {
            r := r.(deletes := 1);
            if !w.deleteOk {
              return r.(frames := [Refusal("credential_store")]);
            }
          }
        }
    }
    r := r.(frames := [if command == HealthProbe then Report(HealthOf(result)) else Reply(result)]);
  }

  // ---- the market daemon ----

  /** The clock at the check, and the world's answers to loading and validating a session. */
  datatype Check = Check(now: int, load: LoadAnswer, validation: Validation, saveOk: bool, deleteOk: bool)
  {
    predicate Changed() {
      load.Loaded? && load.saved.Some? && validation.Refreshed? && validation.refreshed != load.saved.value
    }

    predicate Rejects() {
      load.Loaded? && load.saved.Some? && validation.Rejected?
    }

    /** A stored session was found, verified and, where it changed, saved. */
    predicate Succeeds() {
      load.Loaded? && load.saved.Some? && validation.Refreshed? && (Changed() ==> saveOk)
    }

    /** Why the check fails. */
    function Code(): string
      requires !Succeeds()
    {
      if load.LoadFailed? then "credential_store"
      else if load.saved.None? then "no_session"
      else if validation.Unverified? then validation.code
      else if validation.Rejected? && deleteOk then "auth_expired"
      else "credential_store"
    }
  }

  /** The session of a check and its refusal, case by case. */
  predicate Checked(c: Check, session: Option<Session>, code: string) {
    match (c.load, c.validation)
    case (LoadFailed, _) => session == None && code == "credential_store"
    case (Loaded(None), _) => session == None && code == "no_session"
    case (Loaded(Some(_)), Unverified(refusal)) => session == None && code == refusal
    case (Loaded(Some(_)), Rejected) => session == None && code == if c.deleteOk then "auth_expired" else "credential_store"
    case (Loaded(Some(saved)), Refreshed(renewed)) =>
      if renewed == saved || c.saveOk then session == Some(renewed) else session == None && code == "credential_store"
  }

  lemma CheckCases(c: Check)
    ensures c.Succeeds() ==> Checked(c, Some(c.validation.refreshed), "")
    ensures !c.Succeeds() ==> Checked(c, None, c.Code())
    ensures forall v, code :: Checked(c, Some(v), code) ==> c.Succeeds() && v == c.validation.refreshed
  {
  }

  /** `_load_validated_market_session`. */
  method LoadValidatedMarketSession(c: Check)
    returns (session: Option<Session>, code: string, saves: seq<Session>, deletes: nat)
    ensures session == if c.Succeeds() then Some(c.validation.refreshed) else None
    ensures !c.Succeeds() ==> code == c.Code()
    ensures saves == if c.Changed() then [c.validation.refreshed] else []
    ensures deletes == if c.Rejects() then 1 else 0
    ensures Checked(c, session, code)
  {
    session, code, saves, deletes := None, "credential_store", [], 0;
    if c.load.LoadFailed? {
      return;
    }
    if c.load.saved.None? {
      code := "no_session";
      return;
    }
    match c.validation {
      case Unverified(refusal) => code := refusal;
      case Rejected =>
        deletes := 1;
        if c.deleteOk { code := "auth_expired"; }
      case Refreshed(refreshed) =>
        if refreshed != c.load.saved.value {
          saves := [refreshed];
          if !c.saveOk {
            return;
          }
        }
        session := Some(refreshed);
    }
  }

  datatype Line =
    | Garbled
    | Unsupported
    | Shutdown
    | Warm(check: Check)
    | MarketRead(check: Check, first: Outcome, recheck: Check, second: Outcome)

  /** One upstream operation: the session it used, when that was checked and when it was verified. */
  datatype Use = Use(session: Session, checkedAt: int, verifiedAt: int)

  /** The daemon's session holder (and what it holds) with the time of the last verification. */
  datatype Holder = Holder(auth: Option<Option<Session>>, lastValidated: int)
  {
    /** The held session was verified recently enough. */
    predicate Recent(now: int) {
      auth.Some? && auth.value.Some? && now - lastValidated < REVALIDATE_SECONDS
    }

    predicate Holds() {
      auth.Some? && auth.value.Some?
    }

    function UseAt(now: int): Use
      requires Holds()
    {
      Use(auth.value.value, now, lastValidated)
    }
  }

  const NOTHING_HELD := Holder(None, 0)

  function Ensured(h: Holder, force: bool, c: Check): (r: Holder)
    ensures r.auth.Some? ==> r.Holds()
    ensures r.auth.None? ==> !c.Succeeds()
  {
    if !force && h.Recent(c.now) then h
    else if c.Succeeds() then Holder(Some(Some(c.validation.refreshed)), c.now)
    else h.(auth := None)
  }

  function Operated(h: Holder, outcome: Outcome): Holder {
    if outcome.Expired? then h.(auth := Some(None)) else h
  }

  datatype Turn = Turn(after: Holder, frame: Frame, uses: seq<Use>)

  /**
  One command line: its one frame and the operations it ran.  A read is repeated once,
  after an expired session, when a forced check succeeds.
  */
  function Respond(h: Holder, line: Line): Turn {
    match line
    case Garbled => Turn(h, Refusal("protocol_error"), [])
    case Unsupported => Turn(h, Refusal("operation_not_allowed"), [])
    case Shutdown => Turn(h, Ack, [])
    case Warm(c) =>
      var g := Ensured(h, false, c);
      Turn(g, if g.auth.Some? then Ack else Refusal(c.Code()), [])
    case MarketRead(c, first, again, second) =>
      var g := Ensured(h, false, c);
      if g.auth.None? then Turn(g, Refusal(c.Code()), [])
      else if !first.Expired? then Turn(g, Reply(first), [g.UseAt(c.now)])
      else
        var r := Ensured(g, true, again);
        if r.auth.None? then Turn(r, Refusal(again.Code()), [g.UseAt(c.now)])
        else Turn(Operated(r, second), Reply(second), [g.UseAt(c.now), r.UseAt(again.now)])
  }

  /** Everything a fresh daemon does with these lines, line by line. */
  datatype Service = Served(holder: Holder, frames: seq<Frame>, uses: seq<seq<Use>>)

  function Serving(lines: seq<Line>): (r: Service)
    ensures |r.frames| == |r.uses| == |lines|
  {
    if lines == [] then Served(NOTHING_HELD, [], [])
    else
      var before := Serving(lines[..|lines| - 1]);
      var turn := Respond(before.holder, lines[|lines| - 1]);
      Served(turn.after, before.frames + [turn.frame], before.uses + [turn.uses])
  }

  class MarketDaemon {
    var auth: Option<Option<Session>>
    var client: bool
    var lastValidated: int
    ghost var uses: seq<seq<Use>>

    ghost function View(): Holder
      reads this
    {
      Holder(auth, lastValidated)
    }

    /** Session holder and client come and go together. */
    ghost predicate Valid()
      reads this
    {
      auth.Some? <==> client
    }

    constructor ()
      ensures Valid() && View() == NOTHING_HELD && uses == []
    {
      auth, client, lastValidated, uses := None, false, 0, [];
    }

    /** `ensure_session`. */
    method EnsureSession(force: bool, c: Check) returns (error: Option<string>)
      requires Valid()
      modifies this`auth, this`client, this`lastValidated
      ensures Valid() && View() == Ensured(old(View()), force, c)
      ensures error.None? <==> View().Holds()
      ensures error.Some? ==> auth.None? && !client && error.value == c.Code()
      ensures error.None? ==> client && c.now - lastValidated < 900
      ensures !force && old(View().Holds()) && c.now - old(lastValidated) < 900 ==> error.None? && View() == old(View())
      ensures force || !old(View().Holds()) || c.now - old(lastValidated) >= 900 ==>
                && Checked(c, if error.None? then auth.value else None, if error.Some? then error.value else "")
                && (error.None? ==> lastValidated == c.now)
    {
      if !force && auth.Some? && auth.value.Some? && c.now - lastValidated < REVALIDATE_SECONDS {
        return None;
      }
      var session, code, _, _ := LoadValidatedMarketSession(c);
      if session.None? {
        client, auth := false, None;
        return Some(code);
      }
      auth, client, lastValidated := Some(session), true, c.now;
      error := None;
    }

    /** Run one upstream operation with the held session; an expired one is dropped from its holder. */
    method Operate(outcome: Outcome)
      requires Valid() && View().Holds()
      modifies this`auth
      ensures Valid() && View() == Operated(old(View()), outcome)
    {
      if outcome.Expired? {
        auth := Some(None);
      }
    }

    method Handle(line: Line) returns (frame: Frame)
      requires Valid()
      modifies this
      ensures Valid()
      ensures var turn := Respond(old(View()), line);
              View() == turn.after && frame == turn.frame && uses == old(uses) + [turn.uses]
    {
      ghost var used: seq<Use> := [];
      match line {
        case Garbled => frame := Refusal("protocol_error");
        case Unsupported => frame := Refusal("operation_not_allowed");
        case Shutdown => frame := Ack;
        case Warm(check) =>
          var error := EnsureSession(false, check);
          frame := if error.None? then Ack else Refusal(error.value);
        case MarketRead(check, first, recheck, second) =>
          var error := EnsureSession(false, check);
          if error.Some? {
            frame := Refusal(error.value);
          } else {
            var previous := auth.value.value;
            used := [View().UseAt(check.now)];
            Operate(first);
            frame := Reply(first);
            if first.Expired? {
              auth := Some(Some(previous));
              error := EnsureSession(true, recheck);
              if error.Some? {
                frame := Refusal(error.value);
              } else {
                used := [used[0], View().UseAt(recheck.now)];
                Operate(second);
                frame := Reply(second);
              }
            }
          }
      }
      uses := uses + [used];
    }

    /** The command loop of a fresh daemon: exactly the lines up to the first shutdown are answered. */
    method Serve(lines: seq<Line>) returns (frames: seq<Frame>)
      requires Valid() && View() == NOTHING_HELD && uses == []
      modifies this
      ensures Valid() && |frames| <= |lines|
      ensures var r := Serving(lines[..|frames|]); View() == r.holder && frames == r.frames && uses == r.uses
      ensures forall i | 0 <= i < |frames| - 1 :: !lines[i].Shutdown?
      ensures |frames| < |lines| ==> |frames| > 0 && lines[|frames| - 1].Shutdown?
    {
      frames := [];
      while |frames| < |lines|
        invariant Valid() && |frames| <= |lines|
        invariant var r := Serving(lines[..|frames|]); View() == r.holder && frames == r.frames && uses == r.uses
        invariant forall i | 0 <= i < |frames| :: !lines[i].Shutdown?
        decreases |lines| - |frames|
      {
        var line := lines[|frames|];
        assert lines[..|frames| + 1][..|frames|] == lines[..|frames|];
        var frame := Handle(line);
        frames := frames + [frame];
        if line.Shutdown? {
          return;
        }
      }
    }
  }

  // ---- what every command sequence keeps ----

  predicate VerifiedByCheck(c: Check, session: Session, at: int) {
    c.Succeeds() && c.validation.refreshed == session && c.now == at
  }

  /** A check of this line verified the session at that time. */
  predicate VerifiedBy(line: Line, session: Session, at: int) {
    match line
    case Warm(c) => VerifiedByCheck(c, session, at)
    case MarketRead(c, _, again, _) => VerifiedByCheck(c, session, at) || VerifiedByCheck(again, session, at)
    case _ => false
  }

  ghost predicate VerifiedIn(lines: seq<Line>, session: Session, at: int) {
    exists j | 0 <= j < |lines| :: VerifiedBy(lines[j], session, at)
  }

  lemma VerifiedLater(lines: seq<Line>, line: Line, session: Session, at: int)
    requires VerifiedIn(lines, session, at) || VerifiedBy(line, session, at)
    ensures VerifiedIn(lines + [line], session, at)
  {
    if j :| 0 <= j < |lines| && VerifiedBy(lines[j], session, at) {
      assert (lines + [line])[j] == lines[j];
    } else {
      assert (lines + [line])[|lines|] == line;
    }
  }

  /** A held session was verified at the recorded time by a check of one of the lines. */
  lemma {:induction false} HeldIsVerified(lines: seq<Line>)
    ensures var h := Serving(lines).holder; h.Holds() ==> VerifiedIn(lines, h.auth.value.value, h.lastValidated)
  {
    if lines != [] {
      var before, line := lines[..|lines| - 1], lines[|lines| - 1];
      var h, n := Serving(before).holder, Serving(lines).holder;
      HeldIsVerified(before);
      assert lines == before + [line];
      if n.Holds() { VerifiedLater(before, line, n.auth.value.value, n.lastValidated); }
    }
  }

  /** Line `i` of a command sequence, answered from what the lines before it left. */
  lemma {:induction false} ServedByLine(lines: seq<Line>, i: nat)
    requires i < |lines|
    ensures var turn := Respond(Serving(lines[..i]).holder, lines[i]);
            Serving(lines).frames[i] == turn.frame && Serving(lines).uses[i] == turn.uses
  {
    var before := lines[..|lines| - 1];
    if i < |before| {
      ServedByLine(before, i);
      assert before[..i] == lines[..i];
    } else {
      assert lines[..i] == before;
    }
  }

  /**
  In every command sequence a line is answered by one frame after at most two operations;
  the second follows an expiry and uses a session its own forced check has just verified;
  and a payload is emitted only for an operation that ran last and returned it.
  */
  lemma LinesAreServed(lines: seq<Line>, i: nat)
    requires i < |lines|
    ensures var uses, frame, line := Serving(lines).uses[i], Serving(lines).frames[i], lines[i];
            && |uses| <= 2 && (uses != [] ==> line.MarketRead?)
            && (|uses| == 2 ==>
                  && line.first.Expired? && line.recheck.Succeeds() && frame == Reply(line.second)
                  && uses[1] == Use(line.recheck.validation.refreshed, line.recheck.now, line.recheck.now))
            && (frame.Data? ==>
                  line.MarketRead? && uses != [] && Payload(frame.value) == if |uses| == 1 then line.first else line.second)
  {
    ServedByLine(lines, i);
  }

  /** The frame tells the outcome of the operation. */
  predicate Tells(frame: Frame, outcome: Outcome) {
    match outcome
    case Payload(v) => frame == Data(v)
    case Expired => frame == Refusal("auth_expired")
    case Failure(code) => frame == Refusal(code)
  }

  /**
  In every command sequence a market read that finds a session verified less than fifteen
  minutes before runs its operation with that session, without looking at the store; any
  other one runs it with the session its own check has just verified, or is refused with
  that check's reason and runs nothing.  An outcome other than an expiry is what the frame
  tells.
  */
  lemma ReadsUseHeldOrChecked(lines: seq<Line>, i: nat, c: Check, first: Outcome, recheck: Check, second: Outcome)
    requires i < |lines| && lines[i] == MarketRead(c, first, recheck, second)
    ensures var h, uses, frame := Serving(lines[..i]).holder, Serving(lines).uses[i], Serving(lines).frames[i];
            && (h.Holds() && c.now - h.lastValidated < 900 ==>
                  uses != [] && uses[0] == Use(h.auth.value.value, c.now, h.lastValidated))
            && (!h.Holds() || c.now - h.lastValidated >= 900 ==>
                  if uses != [] then uses[0] == Use(uses[0].session, c.now, c.now) && Checked(c, Some(uses[0].session), "")
                  else frame.Refusal? && Checked(c, None, frame.code))
            && (uses != [] && !first.Expired? ==> |uses| == 1 && Tells(frame, first))
  {
    ServedByLine(lines, i);
    CheckCases(c);
  }

  /**
  An expired operation is repeated once, with the session a forced check verifies, and the
  second outcome is what the frame tells; when that check fails, its reason is.
  */
  lemma ExpiryIsRetriedOnce(lines: seq<Line>, i: nat, c: Check, recheck: Check, second: Outcome)
    requires i < |lines| && lines[i] == MarketRead(c, Expired, recheck, second)
    ensures var uses, frame := Serving(lines).uses[i], Serving(lines).frames[i];
            uses != [] ==>
              if |uses| == 2 then
                && uses[1] == Use(uses[1].session, recheck.now, recheck.now)
                && Checked(recheck, Some(uses[1].session), "") && Tells(frame, second)
              else |uses| == 1 && frame.Refusal? && Checked(recheck, None, frame.code)
  {
    ServedByLine(lines, i);
    CheckCases(recheck);
  }

  /** A session that is verified and not found expired is held for the next line, with the time of its verification. */
  lemma VerifiedIsHeld(lines: seq<Line>, line: Line)
    ensures var h, n, uses := Serving(lines).holder, Serving(lines + [line]).holder, Serving(lines + [line]).uses[|lines|];
            && (line.Warm? ==> Serving(lines + [line]).frames[|lines|] == Ack ==> n.Holds() && line.check.now - n.lastValidated < 900)
            && (line.MarketRead? && uses != [] && !(if |uses| == 1 then line.first else line.second).Expired? ==>
                  n.Holds() && uses[|uses| - 1] == Use(n.auth.value.value, uses[|uses| - 1].checkedAt, n.lastValidated))
            && (line.MarketRead? && |uses| == 2 && line.second.Expired? ==> !n.Holds())
            && (!line.Warm? && !line.MarketRead? ==> n == h)
  {
    assert (lines + [line])[..|lines|] == lines;
  }

  /**
  Over any command sequence, with any store and validation failures: every upstream
  operation uses a session that a check of this or an earlier line verified less than
  fifteen minutes before the operation's own check.
  */
  lemma {:induction false} UsesAreVerified(lines: seq<Line>, i: nat, k: nat)
    requires i < |lines| && k < |Serving(lines).uses[i]|
    ensures var u := Serving(lines).uses[i][k];
            u.checkedAt - u.verifiedAt < 900 && VerifiedIn(lines[..i + 1], u.session, u.verifiedAt)
  {
    var before, line := lines[..|lines| - 1], lines[|lines| - 1];
    if i < |lines| - 1 {
      UsesAreVerified(before, i, k);
      assert before[..i + 1] == lines[..i + 1];
    } else {
      var u := Serving(lines).uses[i][k];
      HeldIsVerified(before);
      assert lines[..i + 1] == before + [line];
      VerifiedLater(before, line, u.session, u.verifiedAt);
    }
  }
}
