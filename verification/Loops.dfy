/**
 The two bounded loops: the resend loop inside one exchange (internal/api/client.go,
 Do) and the poll loop that follows a command (internal/poll/poll.go, Watch).

 The server is any sequence of answers, and a `Pace` says how long each call takes
 and how late each sleep ends. Times are nanoseconds; a count of seconds becomes a
 duration in 64 bits, which wraps, and then neither loop need ever end. Each is
 therefore watched for `patience` rounds, as many as one likes; what bounds it is
 proved of the rounds themselves.
 */
module Loops {
  import opened Wrappers
  import opened Outcomes
  import opened Api

  const SECOND: int := 1_000_000_000
  const MAX_SECONDS: int := 9_223_372_036
  const MAX_INT64: int := 0x7FFF_FFFF_FFFF_FFFF
  const DEFAULT_RETRY_BUDGET: int := 60 * SECOND

  /** `time.Duration(n) * time.Second` in signed 64 bits. */
  function Seconds(n: int): int {
    Wrap64(n * SECOND)
  }

  function Wrap64(x: int): int {
    (x + 0x8000_0000_0000_0000) % 0x1_0000_0000_0000_0000 - 0x8000_0000_0000_0000
  }

  /** The conversion is exact up to MAX_SECONDS and negative just past it. */
  lemma SecondsExactIff(n: int)
    requires 0 <= n <= 0x7FFF_FFFF_FFFF_FFFF
    ensures Seconds(n) == n * SECOND <==> n <= MAX_SECONDS
    ensures MAX_SECONDS < n <= 2 * MAX_SECONDS ==> Seconds(n) < 0
  {
  }

  function Positive(x: int): int {
    if x > 0 then x else 0
  }

  class Clock {
    var now: int

    constructor (start: int)
      ensures now == start
    {
      now := start;
    }

    /** Time passes while something else happens. */
    method Pass(d: nat)
      modifies this
      ensures now == old(now) + d
    {
      now := now + d;
    }

    /** A negative sleep returns at once, and any sleep may end late. */
    method Sleep(d: int, late: nat)
      modifies this
      ensures now == old(now) + Positive(d) + late
    {
      now := now + Positive(d) + late;
    }
  }

  /** How long call `i` takes, and how late the sleep of round `i` ends. */
  datatype Pace = Pace(took: nat -> nat, late: nat -> nat)

  const NOTHING: nat -> nat := (i: nat) => 0
  const AT_ONCE := Pace(NOTHING, NOTHING)

  // ---------- Do ----------

  datatype Request = Request(op: Operation, key: string, body: Option<string>)

  /** The wait before resending, as a duration. */
  function ResendDelay(a: Answer): int {
    Seconds(RetryDelaySeconds(a.retryAfter))
  }

  /** One exchange: what it sends to, at what pace, and how long it may go on. */
  datatype Exchange = Exchange(class_: OpClass, serve: nat -> Answer, pace: Pace, budget: int) {
    /** What the server has asked to be waited before attempt `n`. */
    ghost function Asked(n: nat): nat {
      if n == 0 then 0 else Asked(n - 1) + Positive(ResendDelay(serve(n - 1)))
    }

    /** Time spent before attempt `n`. */
    ghost function Elapsed(n: nat): nat {
      if n == 0 then 0
      else Elapsed(n - 1) + pace.took(n - 1) + Positive(ResendDelay(serve(n - 1))) + pace.late(n - 1)
    }

    /** Another attempt follows attempt `i`: its answer may be resent, and its wait would end within the budget. */
    ghost predicate Resent(i: nat) {
      Resends(class_, serve(i)) && Elapsed(i) + pace.took(i) + ResendDelay(serve(i)) <= budget
    }

    /** Attempt `n` is made, counting from 0. */
    ghost predicate Leaves(n: nat) {
      forall i: nat :: i < n ==> Resent(i)
    }

    /** The first `n` answers ask for no wait that wraps. */
    ghost predicate Fits(n: nat) {
      forall i: nat :: i < n ==> RetryDelaySeconds(serve(i).retryAfter) <= MAX_SECONDS
    }
  }

  function BudgetOf(retryBudget: int): int {
    if retryBudget <= 0 then DEFAULT_RETRY_BUDGET else retryBudget
  }

  // One attempt at a time.

  lemma FirstLeaves(x: Exchange)
    ensures x.Leaves(0) && x.Elapsed(0) == 0
  {
  }

  lemma NextLeaves(x: Exchange, i: nat)
    requires x.Leaves(i) && Resends(x.class_, x.serve(i))
    requires x.Elapsed(i) + x.pace.took(i) + ResendDelay(x.serve(i)) <= x.budget
    ensures x.Leaves(i + 1)
    ensures x.Elapsed(i + 1) == x.Elapsed(i) + x.pace.took(i) + Positive(ResendDelay(x.serve(i))) + x.pace.late(i)
  {
    assert x.Resent(i);
  }

  lemma LastLeaves(x: Exchange, i: nat)
    requires !Resends(x.class_, x.serve(i)) || x.Elapsed(i) + x.pace.took(i) + ResendDelay(x.serve(i)) > x.budget
    ensures !x.Leaves(i + 1)
  {
    assert !x.Resent(i);
  }

  /**
   Sends, and resends what may be resent, within the budget. `sent` is every
   request that left, in order: all of them the same bytes under the same key, and
   exactly the attempts that leave. No result means it is still going, which with
   waits that do not wrap it never is past one attempt a second of budget.
   */
  method Do(
      class_: OpClass, req: Request, serve: nat -> Answer, pace: Pace, clock: Clock, retryBudget: int, patience: nat)
    returns (result: Option<Answer>, sent: seq<Request>)
    requires patience > 0
    modifies clock
    ensures 1 <= |sent| <= patience && forall i :: 0 <= i < |sent| ==> sent[i] == req
    ensures var x := Exchange(class_, serve, pace, if retryBudget <= 0 then 60 * SECOND else retryBudget);
      && x.Leaves(|sent| - 1) && (result.Some? <==> !x.Leaves(|sent|))
      && (x.Fits(patience) ==> |sent| <= 1 + x.budget / SECOND)
      && (x.Fits(patience) && patience > x.budget / SECOND ==> result.Some?)
    ensures result.None? ==> |sent| == patience
    ensures result.Some? ==> result.value == serve(|sent| - 1)
  {
    hide Seconds, Positive, Retryable, Exchange.Fits, Exchange.Leaves, Exchange.Resent, Exchange.Elapsed;
    ghost var x := Exchange(class_, serve, pace, BudgetOf(retryBudget));
    FitsEnds(x, patience);
    FirstLeaves(x);
    var budget := BudgetOf(retryBudget);
    var started := clock.now;
    var i := 0;
    sent := [];
    while i < patience
      invariant i == |sent| <= patience && forall k :: 0 <= k < |sent| ==> sent[k] == req
      invariant x.Leaves(i) && (i > 0 ==> x.Leaves(i - 1))
      invariant clock.now - started == x.Elapsed(i)
    {
      clock.Pass(pace.took(i));
      var answer := serve(i);
      sent := sent + [req];
      if answer.transport.Some? {
        LastLeaves(x, i);
        return Some(answer), sent;
      }
      if !Retryable(class_, answer.status, answer.ErrorCode(), answer.headerCommandId) {
        LastLeaves(x, i);
        return Some(answer), sent;
      }
      var delay := Seconds(RetryDelaySeconds(answer.retryAfter));
      if clock.now + delay - started > budget {
        LastLeaves(x, i);
        return Some(answer), sent;
      }
      NextLeaves(x, i);
      clock.Sleep(delay, pace.late(i));
      i := i + 1;
    }
    result := None;
  }

  /** Nothing is resent after a transport fault, and a `control_create` not at all. */
  lemma NeverResent(x: Exchange, n: nat, i: nat)
    requires x.Leaves(n) && i < n
    ensures x.serve(i).transport.None? && !x.class_.ControlCreate?
  {
    assert x.Resent(i);
  }

  /**
   While every wait is at least a second, what the server asked to be waited is
   within the budget, and at most one request a second of it follows the first.
   Only the last oversleep can carry an attempt past the budget, which then it does.
   */
  lemma {:induction false} WithinBudget(x: Exchange, n: nat)
    requires 0 <= x.budget && x.Leaves(n)
    requires forall i: nat :: i < n ==> ResendDelay(x.serve(i)) >= SECOND
    ensures n * SECOND <= x.Asked(n) <= x.Elapsed(n) && x.Asked(n) <= x.budget && n <= x.budget / SECOND
    ensures n > 0 ==> x.Elapsed(n) - x.pace.late(n - 1) <= x.budget
  {
    if n > 0 {
      WithinBudget(x, n - 1);
      assert x.Resent(n - 1);
    }
  }

  /** Waits that do not wrap are at least a second, so the loop ends. */
  lemma FitsEnds(x: Exchange, patience: nat)
    requires x.budget > 0
    ensures x.Fits(patience) ==> forall n: nat :: n <= patience && x.Leaves(n) ==> n <= x.budget / SECOND
  {
    if x.Fits(patience) {
      forall n: nat | n <= patience && x.Leaves(n)
        ensures n <= x.budget / SECOND
      {
        forall i: nat | i < n
          ensures ResendDelay(x.serve(i)) >= SECOND
        {
          SecondsExactIff(RetryDelaySeconds(x.serve(i).retryAfter));
        }
        WithinBudget(x, n);
      }
    }
  }

  /** A server that always asks for the same wait. */
  function Busy(wait: int): nat -> Answer {
    (i: nat) => Answer(SimulateTransfer, 503, "", false, Some(wait), Some(Envelope(ServiceUnavailable, "", "")), None,
                       Body("", None, None, None))
  }

  /** An exchange with it, in which nothing takes any time but the waits. */
  function AlwaysBusy(wait: int, budget: int): Exchange {
    Exchange(MoneySimulate, Busy(wait), AT_ONCE, budget)
  }

  lemma {:induction false} BusyElapsed(wait: int, budget: int, n: nat)
    requires wait >= 1
    ensures AlwaysBusy(wait, budget).Elapsed(n) == n * Positive(Seconds(wait))
  {
    if n > 0 {
      BusyElapsed(wait, budget, n - 1);
      assert AlwaysBusy(wait, budget).serve(n - 1).retryAfter == Some(wait);
      hide Seconds;
    }
  }

  lemma BusyResentIff(wait: int, budget: int, i: nat)
    requires wait >= 1
    ensures AlwaysBusy(wait, budget).Resent(i) <==> i * Positive(Seconds(wait)) + Seconds(wait) <= budget
  {
    BusyElapsed(wait, budget, i);
    assert Resends(MoneySimulate, Busy(wait)(i));
    hide Seconds;
  }

  /** How many requests it gets: those whose waits, wrapped as they are, fit in the budget. */
  lemma {:induction false} BusyLeavesIff(wait: int, budget: int, n: nat)
    requires wait >= 1 && budget > 0
    ensures AlwaysBusy(wait, budget).Leaves(n) <==> n * Positive(Seconds(wait)) <= budget
  {
    if n > 0 {
      BusyLeavesIff(wait, budget, n - 1);
      BusyResentIff(wait, budget, n - 1);
      hide Exchange.Resent, Seconds;
      var x := AlwaysBusy(wait, budget);
      assert x.Leaves(n) <==> x.Leaves(n - 1) && x.Resent(n - 1);
    }
  }

  /**
   The promise of one request a second of budget holds of a wait exactly when its
   duration is at least a second after wrapping. Otherwise some budget is exceeded,
   and if the duration is not positive the loop never ends.
   */
  lemma OneASecondIff(wait: int)
    requires 1 <= wait <= MAX_INT64
    ensures Seconds(wait) >= SECOND <==>
      forall budget: int, n: nat :: budget > 0 && AlwaysBusy(wait, budget).Leaves(n) ==> n <= budget / SECOND
    ensures Seconds(wait) <= 0 ==> forall budget: int, n: nat :: budget > 0 ==> AlwaysBusy(wait, budget).Leaves(n)
  {
    forall budget: int, n: nat | budget > 0
      ensures AlwaysBusy(wait, budget).Leaves(n) <==> n * Positive(Seconds(wait)) <= budget
    {
      BusyLeavesIff(wait, budget, n);
    }
    if Seconds(wait) >= SECOND {
      forall budget: int, n: nat | budget > 0 && AlwaysBusy(wait, budget).Leaves(n)
        ensures n <= budget / SECOND
      {
        AtLeastASecond(n, Seconds(wait), budget);
      }
    } else {
      TooMany(Positive(Seconds(wait)));
      assert AlwaysBusy(wait, SECOND * SECOND).Leaves(SECOND + 1);
    }
  }

  lemma AtLeastASecond(n: nat, d: int, budget: int)
    requires d >= SECOND && n * d <= budget
    ensures n <= budget / SECOND
  {
    assert n * SECOND <= n * d;
  }

  /** A billion seconds of budget let through one request too many of anything shorter than a second. */
  lemma TooMany(d: nat)
    requires d < SECOND
    ensures (SECOND + 1) * d <= SECOND * SECOND
    ensures SECOND + 1 > SECOND * SECOND / SECOND
  {
    assert (SECOND + 1) * d <= (SECOND + 1) * (SECOND - 1);
  }

  /** A wait that wraps negative, and one that wraps to less than a second. */
  lemma WrappedWaits()
    ensures Seconds(9_223_372_037) < 0
    ensures Seconds(18_446_744_074) == 290_448_384
  {
  }

  // ---------- Watch ----------

  datatype Stop = Stopped | TimedOut | Unreadable | StillPolling

  datatype Watched = Watched(command: Option<Command>, last: Option<Answer>, class_: Class, polls: nat, stop: Stop)

  datatype WatchError = Interrupted | NoCommandId

  /** The command a poll's answer carries. */
  function Decode(a: Answer): Option<Command> {
    if a.transport.Some? || !Is2xx(a.status) then None else DecodeCommand(a.body)
  }

  /** That is a command with an id, in a success that came back. */
  lemma DecodedIff(a: Answer, c: Command)
    ensures Decode(a) == Some(c) <==>
      a.transport.None? && 200 <= a.status < 300 && a.body.command == Some(c) && c.id != ""
  {
  }

  /** The command the last of `n` polls showed. */
  function LastCommand(s: Schedule, n: nat): Option<Command> {
    if n == 0 then None else Decode(s.serve(n - 1))
  }

  /** What is in hand after as many polls: the last answer, and its command. */
  ghost predicate InHand(w: Watched, s: Schedule) {
    && w.last == (if w.polls == 0 then None else Some(s.serve(w.polls - 1)))
    && w.command == LastCommand(s, w.polls)
  }

  /** Still moving, with nothing contradicting it. */
  ghost predicate KeepsPolling(a: Answer) {
    Decode(a).Some? && !Decode(a).value.contradiction && Decode(a).value.state.Moving()
  }

  function Slept(wait: int): nat {
    if wait > 0 then Positive(Seconds(wait)) else 0
  }

  /** A poll that could not be read and was not refused is transient: the command may still be followed. */
  lemma UnreadIsTransient(a: Answer)
    requires a.op == GetCommand && Decode(a).None?
    requires a.transport.Some? || Is2xx(a.status) || a.envelope.None?
    ensures Classify(a.Input(false, "")).Transient?
  {
  }

  /** One call of the loop: what it polls, at what pace, from when and until when. */
  datatype Schedule = Schedule(initialDelay: int, serve: nat -> Answer, pace: Pace, start: int, deadline: int) {
    /** The wait before poll `i`, in seconds: the first answer's, and then each poll's own. */
    function Wait(i: nat): int {
      if i == 0 then initialDelay
      else if Decode(serve(i - 1)).Some? then CommandDelaySeconds(Decode(serve(i - 1)).value)
      else 1
    }

    /** When round `i` of the loop begins. */
    ghost function Round(i: nat): int {
      if i == 0 then start else Round(i - 1) + Slept(Wait(i - 1)) + Late(i - 1) + pace.took(i - 1)
    }

    /** How late the sleep of round `i` ends, if it has one. */
    function Late(i: nat): nat {
      if Wait(i) > 0 then pace.late(i) else 0
    }

    /** When the wait of round `i` should end. */
    ghost function Due(i: nat): int {
      Round(i) + Slept(Wait(i))
    }

    /** When poll `i` is sent. */
    ghost function SentAt(i: nat): int {
      Due(i) + Late(i)
    }

    /** The wait of round `i` is begun: there is none, or it should end before the deadline. */
    ghost predicate Begins(i: nat) {
      Wait(i) > 0 ==> Round(i) + Seconds(Wait(i)) < deadline
    }

    /** The first `n` polls are made, if no signal comes. */
    ghost predicate Polls(n: nat) {
      && (forall i: nat :: i < n ==> Begins(i))
      && (forall i: nat :: i + 1 < n ==> KeepsPolling(serve(i)))
    }

    /** The first `n` answers ask for no wait that wraps. */
    ghost predicate Fits(n: nat) {
      forall i: nat :: i < n && Decode(serve(i)).Some? ==> CommandDelaySeconds(Decode(serve(i)).value) <= MAX_SECONDS
    }
  }

  /** The wait of one round, cut short by a signal before or after it. */
  method WaitOut(delay: int, deadline: int, clock: Clock, late: nat) returns (inTime: bool, signalled: bool)
    modifies clock
    ensures inTime <==> (delay > 0 ==> old(clock.now) + Seconds(delay) < deadline)
    ensures inTime && !signalled ==> clock.now == old(clock.now) + Slept(delay) + if delay > 0 then late else 0
  {
    inTime, signalled := true, false;
    if delay > 0 {
      if !(clock.now + Seconds(delay) < deadline) {
        return false, false;
      }
      signalled := *;
      if signalled {
        return;
      }
      clock.Sleep(Seconds(delay), late);
    }
    signalled := *;
  }

  // One round at a time.

  lemma FirstRound(s: Schedule)
    ensures s.Round(0) == s.start && s.Wait(0) == s.initialDelay && s.Polls(0) && AllMoving(s, 0)
  {
  }

  lemma BeginsIff(s: Schedule, n: nat)
    ensures s.Begins(n) <==> (s.Wait(n) > 0 ==> s.Round(n) + Seconds(s.Wait(n)) < s.deadline)
  {
  }

  lemma FirstBetween(w: Watched, s: Schedule)
    requires w == Watched(None, None, Pending, 0, StillPolling)
    ensures Between(w, s, s.initialDelay, s.start)
  {
    FirstRound(s);
  }

  lemma NextRound(s: Schedule, n: nat)
    requires s.Polls(n) && s.Begins(n) && AllMoving(s, n)
    ensures s.Polls(n + 1)
    ensures s.Round(n + 1) == s.Round(n) + Slept(s.Wait(n)) + (if s.Wait(n) > 0 then s.pace.late(n)
      else 0) + s.pace.took(n)
  {
  }

  /** The first `n` answers show the command still on its way. */
  ghost predicate AllMoving(s: Schedule, n: nat) {
    forall i: nat :: i < n ==> KeepsPolling(s.serve(i))
  }

  lemma MovingOn(w: Watched, was: Watched, s: Schedule, n: nat)
    requires AllMoving(s, n) && ReadFrom(w, was, s.serve(n)) && w.stop.StillPolling?
    requires w.polls == n + 1 && w.last == Some(s.serve(n))
    ensures AllMoving(s, n + 1) && InHand(w, s) && w.command.Some? &&
      s.Wait(n + 1) == CommandDelaySeconds(w.command.value)
  {
    PollAgainIff(Decode(s.serve(n)).value);
  }

  // What each way of stopping means.

  lemma EndsTimedOut(w: Watched, s: Schedule, patience: nat)
    requires w.stop.TimedOut? && w.class_.Pending? && !s.Begins(w.polls) && AllMoving(s, w.polls) && InHand(w, s)
    ensures Ended(w, s, patience)
  {
  }

  lemma EndsStillPolling(w: Watched, s: Schedule, delay: int, now: int, patience: nat)
    requires Between(w, s, delay, now) && w.polls == patience
    ensures Ended(w, s, patience)
  {
  }

  lemma EndsRead(w: Watched, was: Watched, s: Schedule, patience: nat)
    requires w.polls > 0 && w.last == Some(s.serve(w.polls - 1)) && !w.stop.StillPolling?
    requires ReadFrom(w, was, s.serve(w.polls - 1)) && was.command == LastCommand(s, w.polls - 1)
    ensures Ended(w, s, patience)
  {
  }

  /** What an answer settles: it cannot be read, or its command is still moving, or that is the end of it. */
  ghost predicate ReadFrom(w: Watched, was: Watched, res: Answer) {
    match Decode(res)
    case None => w.stop.Unreadable? && w.command == was.command && w.class_ == Classify(res.Input(false, ""))
    case Some(command) =>
      && w.command == Some(command) && w.class_ == ClassifyCommand(command)
      && w.stop == if w.class_.Pending? then StillPolling else Stopped
  }

  method Read(res: Answer, was: Watched) returns (out: Watched)
    ensures out.polls == was.polls && out.last == was.last && ReadFrom(out, was, res)
  {
    hide Classify, ClassifyCommand, Decode;
    out := was;
    var command := Decode(res);
    if command.None? {
      out := out.(stop := Unreadable, class_ := Classify(res.Input(false, "")));
    } else {
      out := out.(command := command, class_ := ClassifyCommand(command.value));
      out := out.(stop := if out.class_.Pending? then StillPolling else Stopped);
    }
  }

  /** About to begin round `w.polls`, this long after the last poll. */
  ghost predicate Between(w: Watched, s: Schedule, delay: int, now: int) {
    && w.stop.StillPolling? && delay == s.Wait(w.polls) && now == s.Round(w.polls)
    && s.Polls(w.polls) && AllMoving(s, w.polls) && InHand(w, s)
  }

  /** One round of the loop: the wait, the poll, and what its answer settles. `delay` becomes the next wait. */
  method OneRound(ghost s: Schedule, was: Watched, waited: int, clock: Clock, ghost patience: nat, deadline: int,
    res: Answer,
                  took: nat, late: nat)
    returns (out: Watched, delay: int, signalled: bool)
    requires Between(was, s, waited, clock.now) && s.deadline == deadline
    requires s.serve(was.polls) == res && s.pace.took(was.polls) == took && s.pace.late(was.polls) == late
    modifies clock
    ensures (out.polls == was.polls || out.polls == was.polls + 1) && s.Polls(out.polls)
    ensures !signalled ==>
      if out.stop.StillPolling? then Between(out, s, delay, clock.now) && out.polls > was.polls
        else Ended(out, s, patience)
  {
    hide Seconds, Slept, Schedule.Round, Schedule.Begins, Schedule.Polls, Schedule.Wait;
    hide KeepsPolling, AllMoving, Ended, ReadFrom, CommandDelaySeconds;
    var n := was.polls;
    out, delay := was, waited;
    BeginsIff(s, n);
    var inTime;
    inTime, signalled := WaitOut(waited, deadline, clock, late);
    if !inTime {
      out := out.(stop := TimedOut, class_ := Pending);
      EndsTimedOut(out, s, patience);
      return out, delay, false;
    }
    if signalled {
      return;
    }
    NextRound(s, n);
    clock.Pass(took);
    out := out.(polls := n + 1, last := Some(res));
    signalled := *;
    if signalled {
      return;
    }
    ghost var polled := out;
    out := Read(res, out);
    if out.stop.StillPolling? {
      MovingOn(out, polled, s, n);
      delay := CommandDelaySeconds(out.command.value);
    } else {
      EndsRead(out, polled, s, patience);
    }
  }

  /** What a call of the loop comes to. */
  ghost predicate Followed(r: Result<Watched, WatchError>, polls: nat, s: Schedule, patience: nat) {
    && polls <= patience && s.Polls(polls)
    && (r.Success? ==> r.value.polls == polls && Ended(r.value, s, patience))
    && (s.Fits(patience) ==>
      && polls <= PollBound(s.start, s.deadline)
      && (patience > PollBound(s.start, s.deadline) && r.Success? ==> !r.value.stop.StillPolling?))
  }

  lemma FollowedIf(r: Result<Watched, WatchError>, polls: nat, s: Schedule, patience: nat)
    requires polls <= patience && s.Polls(polls)
    requires r.Success? ==> r.value.polls == polls && Ended(r.value, s, patience)
    ensures Followed(r, polls, s, patience)
  {
    FitsStops(s, patience);
  }

  /**
   Follows a command until it stops moving, the deadline would be passed, or a
   signal arrives: each poll made is one that `Polls` allows, the last of them
   settled the matter, and a time-out means the next is not allowed. With waits that
   do not wrap it always stops, within one poll a second up to the deadline.
   */
  method Watch(
    commandId: string, initialDelay: int, deadline: int, serve: nat -> Answer, pace: Pace, clock: Clock, patience: nat)
    returns (r: Result<Watched, WatchError>, ghost polls: nat)
    modifies clock
    ensures r == Failure(NoCommandId) <==> commandId == ""
    ensures Followed(r, polls, Schedule(initialDelay, serve, pace, old(clock.now), deadline), patience)
  {
    ghost var s := Schedule(initialDelay, serve, pace, clock.now, deadline);
    FirstRound(s);
    hide Between, Followed, Ended, Schedule.Polls;
    polls := 0;
    if commandId == "" {
      r := Failure(NoCommandId);
      FollowedIf(r, polls, s, patience);
      return;
    }
    var delay := initialDelay;
    var out := Watched(None, None, Pending, 0, StillPolling);
    FirstBetween(out, s);
    while out.polls < patience
      invariant out.polls == polls <= patience
      invariant s.Polls(polls) && Between(out, s, delay, clock.now)
      decreases patience - out.polls
    {
      var n, signalled := out.polls, false;
      out, delay, signalled := OneRound(s, out, delay, clock, patience, deadline, serve(n), pace.took(n), pace.late(n));
      polls := out.polls;
      if signalled || !out.stop.StillPolling? {
        r := if signalled then Failure(Interrupted) else Success(out);
        FollowedIf(r, polls, s, patience);
        return;
      }
    }
    EndsStillPolling(out, s, delay, clock.now, patience);
    r := Success(out);
    FollowedIf(r, polls, s, patience);
  }

  /** What each way of stopping means. */
  ghost predicate Ended(w: Watched, s: Schedule, patience: nat) {
    match w.stop
    case TimedOut => w.class_.Pending? && !s.Begins(w.polls) && AllMoving(s, w.polls) && InHand(w, s)
    case StillPolling => w.polls == patience && AllMoving(s, w.polls) && InHand(w, s)
    case Unreadable =>
      && w.polls > 0 && w.last == Some(s.serve(w.polls - 1)) && Decode(s.serve(w.polls - 1)).None?
      && w.command == LastCommand(s, w.polls - 1)
      && w.class_ == Classify(s.serve(w.polls - 1).Input(false, ""))
    case Stopped =>
      && w.polls > 0 && w.last == Some(s.serve(w.polls - 1))
      && w.command.Some? && w.command == Decode(s.serve(w.polls - 1))
      && w.class_ == ClassifyCommand(w.command.value) && !w.class_.Pending?
  }

  /**
   The deadline is checked before the sleep and not after it. A delayed poll whose
   wait does not wrap is due before the deadline, and is sent before it exactly when
   the sleep is not later than what was left.
   */
  lemma DelayedPollInTimeIff(s: Schedule, n: nat)
    requires s.Polls(n + 1) && s.Wait(n) > 0 && Seconds(s.Wait(n)) >= 0
    ensures s.Due(n) < s.deadline
    ensures s.SentAt(n) < s.deadline <==> s.pace.late(n) < s.deadline - s.Due(n)
  {
    assert s.Begins(n);
  }

  /** A sleep that ends late enough sends the poll at the deadline, or as far past it as one likes. */
  lemma OversleptPollIsLate(deadline: int, late: nat)
    requires deadline > SECOND && late >= deadline - SECOND
    ensures var s := Schedule(1, AlwaysMoving(1), Pace(NOTHING, (i: nat) => late), 0, deadline);
      s.Polls(1) && s.SentAt(0) == SECOND + late >= deadline
  {
  }

  /** Polls that fit between `start` and `deadline` a second apart: the ceiling, and at least one. */
  function PollBound(start: int, deadline: int): (polls: int)
    ensures polls >= 1
  {
    if deadline <= start then 1 else (deadline - start + SECOND - 1) / SECOND
  }

  /** While every wait after the first poll is at least a second, the polls are that many at most. */
  lemma PollsWithinBound(s: Schedule, n: nat)
    requires s.Polls(n + 1)
    requires forall i: nat :: 0 < i <= n ==> Seconds(s.Wait(i)) >= SECOND
    ensures n + 1 <= PollBound(s.start, s.deadline)
  {
    if n > 0 {
      RoundsApart(s, n);
      assert KeepsPolling(s.serve(n - 1)) && s.Wait(n) >= 1;
      DelayedPollInTimeIff(s, n);
    }
  }

  lemma {:induction false} RoundsApart(s: Schedule, n: nat)
    requires forall i: nat :: 0 < i <= n ==> Seconds(s.Wait(i)) >= SECOND && s.Wait(i) > 0
    ensures s.Due(n) >= s.start + n * SECOND
  {
    if n > 0 {
      RoundsApart(s, n - 1);
    }
  }

  /** Waits that do not wrap are at least a second, so the loop stops. */
  lemma FitsStops(s: Schedule, patience: nat)
    ensures s.Fits(patience) ==> forall n: nat :: n <= patience && s.Polls(n) ==> n <= PollBound(s.start, s.deadline)
  {
    if s.Fits(patience) {
      forall n: nat | n <= patience && s.Polls(n)
        ensures n <= PollBound(s.start, s.deadline)
      {
        if n > 0 {
          forall i: nat | 0 < i <= n - 1
            ensures Seconds(s.Wait(i)) >= SECOND
          {
            assert KeepsPolling(s.serve(i - 1));
            SecondsExactIff(s.Wait(i));
          }
          PollsWithinBound(s, n - 1);
        }
      }
    }
  }

  /** A command that keeps moving and always asks for the same wait. */
  function AlwaysMoving(wait: int): nat -> Answer {
    (i: nat) => Answer(GetCommand, 200, "", false, None, None, None,
      Body("", Some(Command("cmd", SimulateTransfer, Inflight, false, None, Unknown(""), Some(wait))), None, None))
  }

  /** Following it at once, with nothing taking any time but the waits. */
  function FollowMoving(wait: int, deadline: int): Schedule {
    Schedule(0, AlwaysMoving(wait), AT_ONCE, 0, deadline)
  }

  lemma MovingWait(wait: int, deadline: int, i: nat)
    requires wait >= 1
    ensures FollowMoving(wait, deadline).Wait(i) == if i == 0 then 0 else wait
  {
  }

  lemma {:induction false} MovingRound(wait: int, deadline: int, n: nat)
    requires wait >= 1
    ensures FollowMoving(wait, deadline).Round(n) == if n == 0 then 0 else (n - 1) * Positive(Seconds(wait))
  {
    if n > 0 {
      MovingRound(wait, deadline, n - 1);
      MovingWait(wait, deadline, n - 1);
      var s, slept := FollowMoving(wait, deadline), Positive(Seconds(wait));
      assert s.Late(n - 1) == 0 && Slept(s.Wait(n - 1)) == if n == 1 then 0 else slept;
      hide Seconds, Positive, Schedule.Wait, Slept, Schedule.Late, AlwaysMoving;
      assert n > 1 ==> (n - 1) * slept == (n - 2) * slept + slept;
    }
  }

  lemma MovingBegins(wait: int, deadline: int, i: nat)
    requires wait >= 1 && deadline > 0
    ensures FollowMoving(wait, deadline).Begins(i) <==>
      i == 0 || (i - 1) * Positive(Seconds(wait)) + Seconds(wait) < deadline
  {
    MovingRound(wait, deadline, i);
    MovingWait(wait, deadline, i);
    hide Seconds, Schedule.Wait, Schedule.Round, AlwaysMoving;
  }

  /** A wait that wraps to nothing or less is never waited, and the polling never ends however near the deadline. */
  lemma WrappedWaitPollsForever(wait: int, deadline: int, n: nat)
    requires 1 <= wait <= MAX_INT64 && Seconds(wait) <= 0 && deadline > 0
    ensures FollowMoving(wait, deadline).Polls(n)
  {
    var s := FollowMoving(wait, deadline);
    forall i: nat | i < n
      ensures s.Begins(i)
    {
      MovingBegins(wait, deadline, i);
    }
    assert forall i: nat :: i < n ==> KeepsPolling(s.serve(i));
    hide Schedule.Begins;
  }
}
