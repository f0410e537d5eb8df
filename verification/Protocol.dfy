/**
 The money path as a transition system (internal/noun/transfers: money.go,
 create.go, execute.go, resume.go) over one run and every invocation that ever
 holds it.

 `RunLock` proves that at most one process holds the run and that what it holds
 is what is on disk, so the world has one record, at most one holder, and the
 requests that left. An invocation may die or be interrupted between any two
 events, every save may fail in either of its two ways, a power cut may strike
 at any time, and the server answers anything.
 */
module Protocol {
  import opened Wrappers
  import opened DurableStore
  import opened Records
  import L = Ledger
  import O = Outcomes
  import A = Api
  import C = Consent
  import E = Exit

  /** What an invocation was asked to do. */
  datatype Flow = CreateSimulate | CreateBroadcast | ExecutePlan | ResumeRun | Maintain

  datatype Options = Options(yes: bool, tty: bool, noWait: bool)

  /** What a consent verdict was given on. */
  datatype Evidence = Evidence(request: C.Request, prompt: C.Prompt) {
    function Verdict(): C.Verdict {
      C.Ask(request, prompt)
    }
  }

  /** Where an invocation stands between two events. */
  datatype Pc =
    | Deciding                                              // resume: the run is open
    | Asking(body: Option<RequestBody>, selfConsent: bool)  // perform(execute): consent comes first
    | Prompted(body: Option<RequestBody>, selfConsent: bool) // awaiting_confirmation is durable, the prompt is up
    | Ready(step: StepName, body: Option<RequestBody>)      // consent in hand, or a simulate: Begin is next
    | Begun(step: StepName)                                 // Begin returned nil
    | Sending(step: StepName, sent: nat)                    // the in-flight flag is set, requests leave
    | Answered(step: StepName, a: A.Answer)                 // the exchange returned, nothing recorded
    | Recorded(step: StepName, a: A.Answer)
    | Following(step: StepName, a: A.Answer)                // a 202's execute step is closed
    | Performed(step: StepName, said: E.Source, a: A.Answer)
    | Maintaining                                           // decline, scrub or prune: the run is open
    | Ended                                                 // only the report is left

  datatype Invocation = Invocation(
    flow: Flow,
    opts: Options,
    pc: Pc,
    mem: Run,                    // the handle's run
    flag: bool,                  // the in-flight flag
    left: bool,                  // a request of this invocation left
    simulated: bool,             // this invocation's simulate was answered
    consent: Option<Evidence>,   // the verdict given for the send being prepared
    report: Option<E.Source>)    // the outcome a money verb ends by reporting

  /** A request on the wire. `plainResume` is a resume that did not itself simulate. */
  datatype Sent = Sent(step: StepName, key: string, body: RequestBody, consent: Option<Evidence>, opts: Options,
    plainResume: bool)

  /** What a process said of itself when it ended, and what it had said and done. */
  datatype Report = Report(code: nat, left: bool, flag: bool, money: bool, ending: E.Ending, said: Option<E.Source>)

  datatype World = World(
    store: Store<Run>,
    holder: Option<Invocation>,
    minted: Option<Run>,         // the run as it was created; run ids are never minted twice
    wire: seq<Sent>,
    issued: set<string>,         // tokens of fresh simulate answers this run received
    reports: seq<Report>,
    pruned: bool)

  function Start(): World {
    World(Empty(), None, None, [], {}, [], false)
  }

  /** One poll result: the last command decoded, and whether the loop stopped on it. */
  datatype Poll = Poll(command: Option<O.Command>, stopped: bool, response: Response) {
    function Said(): E.Source {
      if stopped && command.Some? then E.OfPoll(command.value) else E.NotEstablished
    }
  }

  datatype Event =
    | Create(flow: Flow, opts: Options, run: Run, o: SaveOutcome)
    | Open(flow: Flow, opts: Options)
    | Decide
    | Ask(o: SaveOutcome)
    | ReadLine(prompt: C.Prompt, o: SaveOutcome)
    | Begin(o: SaveOutcome)
    | Mark
    | Send
    | GetAnswer(a: A.Answer)
    | RecordAnswer(structural: Option<string>, o: SaveOutcome)
    | CloseOn202(o: SaveOutcome)
    | FollowUp(poll: Poll, structural: Option<string>, o: SaveOutcome)
    | Proceed(plan: Option<Plan>, o: SaveOutcome)
    | DeclineRun(o: SaveOutcome)
    | ScrubRun(now: int, o: SaveOutcome)
    | PruneRun(cutoff: int)
    | Leave(ending: E.Ending)
    | Crash
    | DirFsync
    | PowerCut(back: Option<Run>)

  // ---------- Helpers ----------

  function Hold(w: World, inv: Invocation): World {
    w.(holder := Some(inv))
  }

  function At(w: World, inv: Invocation, pc: Pc): Option<World> {
    Some(Hold(w, inv.(pc := pc)))
  }

  /** A handle method: refused, or saved with outcome `o`; any error ends the work. */
  function Commit(w: World, inv: Invocation, next: L.RunResult, kept: Run, o: SaveOutcome, pc: Pc): Option<World> {
    match next
    case Failure(_) => At(w, inv, Ended)
    case Success(r) =>
      Some(w.(store := w.store.Save(r, o),
              holder := Some(if o.Saved? then inv.(mem := r, pc := pc) else inv.(mem := kept, pc := Ended))))
  }

  /** What memory holds after a method that does not roll back. */
  function Taken(next: L.RunResult, m: Run): Run {
    if next.Success? then next.value else m
  }

  function CommitRun(w: World, inv: Invocation, next: L.RunResult, o: SaveOutcome, pc: Pc): Option<World> {
    Commit(w, inv, next, Taken(next, inv.mem), o, pc)
  }

  /** The first step a resume may act on. */
  function Resumable(steps: seq<Step>, first: bool := true): Option<Step> {
    if steps == [] then None
    else if steps[0].Unresolved() || (steps[0].state.NotStarted? && !first && steps[0].HasPlanToken()) then
      Some(steps[0])
    else Resumable(steps[1..], false)
  }

  function Recordable(a: A.Answer): Option<Response> {
    Some(Response(a.status, a.body.text))
  }

  function LedgerOutcomeOf(c: O.Class): Option<LedgerOutcome> {
    Some(LedgerOutcome(c.Exit()))
  }

  function OpOf(step: StepName): O.Operation {
    match step case Simulate => O.SimulateTransfer case Execute => O.ExecuteTransfer
  }

  /** A step as the source mints it. */
  predicate Fresh(s: Step) {
    s == Step(s.name, s.key, None, s.body, None, None, NotStarted, 0, None, None)
  }

  /** The steps each creating flow mints: only the first carries the caller's body. */
  predicate NewRun(flow: Flow, r: Run) {
    && (forall i :: 0 <= i < |r.steps| ==> Fresh(r.steps[i]))
    && match flow
       case CreateSimulate => |r.steps| == 1 && r.steps[0].name.Simulate? && r.steps[0].body.Some?
       case CreateBroadcast =>
         |r.steps| == 2 && r.steps[0].name.Simulate? && r.steps[0].body.Some?
         && r.steps[1].name.Execute? && r.steps[1].body.None?
       case ExecutePlan =>
         |r.steps| == 1 && r.steps[0].name.Execute? && r.steps[0].body.Some? && r.steps[0].body.value.PlanTokenDocument?
       case _ => false
  }

  // ---------- Events ----------

  function OnCreate(w: World, flow: Flow, opts: Options, r: Run, o: SaveOutcome): Option<World> {
    if w.minted.Some? || w.holder.Some? || !NewRun(flow, r) then None
    else
      match L.ValidateNew(r)
      case Failure(_) => None
      case Success(run) =>
        var pc := if flow.ExecutePlan? then Asking(run.steps[0].body, true) else Ready(Simulate, run.steps[0].body);
        Some(w.(minted := Some(run), store := w.store.Save(run, o),
                holder := if o.Saved? then Some(Invocation(flow, opts, pc, run, false, false, false, None, None))
                  else None))
  }

  function OnOpen(w: World, flow: Flow, opts: Options): Option<World> {
    if w.holder.Some? || w.store.current.None? || !(flow.ResumeRun? || flow.Maintain?) then None
    else Some(Hold(w, Invocation(flow, opts, if flow.ResumeRun? then Deciding else Maintaining,
                                 w.store.current.value, false, false, false, None, None)))
  }

  /** resume and resumeStep: which step, and with which bytes. */
  function Resuming(m: Run): Pc {
    match Resumable(m.steps)
    case None => Ended
    case Some(s) =>
      if s.name.Simulate? then Ready(Simulate, None)
      else if s.body.Some? then Asking(None, false)
      else if s.HasPlanToken() then Asking(Some(PlanTokenDocument(s.planToken.value)), false)
      else Ended
  }

  function OnDecide(w: World, inv: Invocation): Option<World> {
    if !inv.pc.Deciding? then None else At(w, inv, Resuming(inv.mem))
  }

  function RequestFor(inv: Invocation, selfConsent: bool): C.Request {
    C.Request(inv.opts.yes, inv.opts.tty, selfConsent)
  }

  const NO_PROMPT := C.Prompt(false, false, false, false, "", C.EndOfInput)

  /** obtainConsent up to the prompt. */
  function OnAsk(w: World, inv: Invocation, o: SaveOutcome): Option<World> {
    if !inv.pc.Asking? then None
    else
      var evidence := Evidence(RequestFor(inv, inv.pc.selfConsent), NO_PROMPT);
      if evidence.Verdict().Granted? then
        At(w, inv.(consent := Some(evidence)), Ready(Execute, inv.pc.body))
      else if !inv.opts.tty then At(w, inv, Ended)
      else CommitRun(w, inv, L.AwaitRun(inv.mem, Execute), o, Prompted(inv.pc.body, inv.pc.selfConsent))
  }

  /** The prompt's answer; a decline is written. */
  function OnReadLine(w: World, inv: Invocation, prompt: C.Prompt, o: SaveOutcome): Option<World> {
    if !inv.pc.Prompted? || !prompt.stateWritten then None
    else
      var evidence := Evidence(RequestFor(inv, inv.pc.selfConsent), prompt);
      match evidence.Verdict()
      case Granted => At(w, inv.(consent := Some(evidence)), Ready(Execute, inv.pc.body))
      case Declined =>
        (match L.DeclineRun(inv.mem, Execute)
         case Success(Some(r)) => CommitRun(w, inv, Success(r), o, Ended)
         case _ => At(w, inv, Ended))
      case _ => At(w, inv, Ended)
  }

  function OnBegin(w: World, inv: Invocation, o: SaveOutcome): Option<World> {
    if !inv.pc.Ready? then None
    else Commit(w, inv, L.BeginRun(inv.mem, inv.pc.step, inv.pc.body), L.BegunKept(inv.mem, inv.pc.step, inv.pc.body),
      o,
                Begun(inv.pc.step))
  }

  function OnMark(w: World, inv: Invocation): Option<World> {
    if !inv.pc.Begun? then None else At(w, inv.(flag := true), Sending(inv.pc.step, 0))
  }

  /** One request leaves, with the bytes and the key the record holds. */
  function OnSend(w: World, inv: Invocation): Option<World> {
    if !inv.pc.Sending? then None
    else
      match inv.mem.Find(inv.pc.step)
      case None => None
      case Some(s) =>
        if s.body.None? then None
        else
          var sent := Sent(s.name, s.key, s.body.value, inv.consent, inv.opts, inv.flow.ResumeRun? && !inv.simulated);
          Some(Hold(w, inv.(left := true, pc := Sending(inv.pc.step, inv.pc.sent + 1))).(wire := w.wire + [sent]))
  }

  /** The exchange ends: an answer to something sent, or a transport fault. */
  ghost function OnAnswer(w: World, inv: Invocation, a: A.Answer): Option<World> {
    if !inv.pc.Sending? || !A.IsMoneyAnswer(a) || a.op != OpOf(inv.pc.step) ||
      (a.transport.None? && inv.pc.sent == 0) then None
    else
      var token := A.FreshPlanToken(a);
      Some(Hold(w, inv.(pc := Pc.Answered(inv.pc.step, a), simulated := inv.simulated || inv.pc.step.Simulate?))
             .(issued := if token.Some? then w.issued + {token.value} else w.issued))
  }

  function OnRecord(w: World, inv: Invocation, structural: Option<string>, o: SaveOutcome): Option<World> {
    if !inv.pc.Answered? then None
    else
      var a := inv.pc.a;
      CommitRun(w, inv, L.RecordRun(inv.mem, inv.pc.step, Recordable(a), structural,
        LedgerOutcomeOf(A.ClassifyAnswer(a))), o,
                Recorded(inv.pc.step, a))
  }

  function OnCloseOn202(w: World, inv: Invocation, o: SaveOutcome): Option<World> {
    if !inv.pc.Recorded? then None
    else if inv.flow.CreateBroadcast? && inv.pc.step.Simulate? && inv.pc.a.status == 202 then
      CommitRun(w, inv, L.UnreachableRun(inv.mem, Execute), o, Following(inv.pc.step, inv.pc.a))
    else At(w, inv, Following(inv.pc.step, inv.pc.a))
  }

  /** followUp: the answer stands, or the poll's does and is recorded over it. */
  function OnFollowUp(
      w: World, inv: Invocation, poll: Poll, structural: Option<string>, o: SaveOutcome): Option<World> {
    if !inv.pc.Following? then None
    else
      var step, a := inv.pc.step, inv.pc.a;
      if A.PollTarget(a).None? || inv.opts.noWait then At(w, inv, Performed(step, E.OfAnswer(A.MoneyInput(a)), a))
      else if poll.command.None? then At(w, inv, Performed(step, poll.Said(), a))
      else CommitRun(w, inv,
        L.RecordRun(inv.mem, step, Some(poll.response), structural, LedgerOutcomeOf(poll.Said().Class())), o,
                     Performed(step, poll.Said(), a))
  }

  /** The verb ends by reporting this outcome. */
  function Reporting(w: Option<World>, said: E.Source): Option<World> {
    if w.Some? && w.value.holder.Some? then Some(Hold(w.value, w.value.holder.value.(report := Some(said)))) else w
  }

  /** The token a broadcast goes on with: its simulate succeeded, and handed one to this invocation. */
  function GoesOn(said: E.Source, a: A.Answer): Option<string> {
    if said.Class().Exit() == 0 then A.FreshPlanToken(a) else None
  }

  /** What is reported when it does not go on. */
  function StopsWith(said: E.Source): E.Source {
    if said.Class().Exit() == 0 then E.NoFreshToken else said
  }

  /**
   After a simulate of a two-step run: the execute with a fresh token, or its step
   closed and the outcome reported.
   */
  function OnProceed(w: World, inv: Invocation, plan: Option<Plan>, o: SaveOutcome): Option<World> {
    if !inv.pc.Performed? then None
    else if inv.pc.step.Execute? || inv.mem.Find(Execute).None? then Reporting(At(w, inv, Ended), inv.pc.said)
    else
      match GoesOn(inv.pc.said, inv.pc.a)
      case Some(token) =>
        CommitRun(w, inv, L.SetPlanRun(inv.mem, Execute, plan, token), o, Asking(Some(PlanTokenDocument(token)), true))
      case None => Reporting(CloseExecute(w, inv, o), StopsWith(inv.pc.said))
  }

  /** Best effort: nothing for a step that is settled or may have been sent, and a failed save is dropped. */
  function CloseExecute(w: World, inv: Invocation, o: SaveOutcome): Option<World>
    requires inv.mem.Find(Execute).Some?
  {
    var e := inv.mem.Find(Execute).value;
    if e.state.IsTerminal() || e.state.MayHaveSent() then At(w, inv, Ended)
    else CommitRun(w, inv, L.UnreachableRun(inv.mem, Execute), o, Ended)
  }

  function OnDecline(w: World, inv: Invocation, o: SaveOutcome): Option<World> {
    if !inv.pc.Maintaining? then None
    else
      match L.DeclineRun(inv.mem, Execute)
      case Success(Some(r)) => CommitRun(w, inv, Success(r), o, Ended)
      case _ => At(w, inv, Ended)
  }

  function OnScrub(w: World, inv: Invocation, now: int, o: SaveOutcome): Option<World> {
    if !inv.pc.Maintaining? then None
    else if L.ScrubRun(inv.mem, now) == inv.mem then At(w, inv, Ended)
    else CommitRun(w, inv, Success(L.ScrubRun(inv.mem, now)), o, Ended)
  }

  function OnPrune(w: World, inv: Invocation, cutoff: int): Option<World> {
    if !inv.pc.Maintaining? then None
    else if inv.mem.Prunable() && inv.mem.createdAt < cutoff then
      Some(w.(store := w.store.Unlinked(), holder := None, pruned := true))
    else At(w, inv, Ended)
  }

  /** Maintenance ends as it likes; a money verb writes only its report, and writes it whole, or returns an error. */
  predicate MayEnd(inv: Invocation, ending: E.Ending) {
    inv.flow.Maintain? || E.MoneyEnds(ending, inv.report)
  }

  function ReportOf(inv: Invocation, ending: E.Ending): Report {
    Report(E.ExitCode(ending, inv.flag), inv.left, inv.flag, !inv.flow.Maintain?, ending, inv.report)
  }

  /** The invocation ends by itself, on any error, panic or signal at any point, and the process exits. */
  function OnLeave(w: World, inv: Invocation, ending: E.Ending): Option<World> {
    if !MayEnd(inv, ending) then None
    else Some(w.(holder := None, reports := w.reports + [ReportOf(inv, ending)]))
  }

  ghost function Apply(w: World, e: Event): Option<World> {
    match e
    case Create(flow, opts, run, o) => OnCreate(w, flow, opts, run, o)
    case Open(flow, opts) => OnOpen(w, flow, opts)
    case DirFsync => Some(w.(store := w.store.Settled()))
    case PowerCut(back) =>
      if back in w.store.recoverable then Some(w.(store := w.store.PowerCut(back), holder := None)) else None
    case _ => if w.holder.None? then None else ApplyHeld(w, w.holder.value, e)
  }

  ghost function ApplyHeld(w: World, inv: Invocation, e: Event): Option<World> {
    match e
    case Decide => OnDecide(w, inv)
    case Ask(o) => OnAsk(w, inv, o)
    case ReadLine(prompt, o) => OnReadLine(w, inv, prompt, o)
    case Begin(o) => OnBegin(w, inv, o)
    case Mark => OnMark(w, inv)
    case Send => OnSend(w, inv)
    case GetAnswer(a) => OnAnswer(w, inv, a)
    case RecordAnswer(structural, o) => OnRecord(w, inv, structural, o)
    case CloseOn202(o) => OnCloseOn202(w, inv, o)
    case FollowUp(poll, structural, o) => OnFollowUp(w, inv, poll, structural, o)
    case Proceed(plan, o) => OnProceed(w, inv, plan, o)
    case DeclineRun(o) => OnDecline(w, inv, o)
    case ScrubRun(now, o) => OnScrub(w, inv, now, o)
    case PruneRun(cutoff) => OnPrune(w, inv, cutoff)
    case Leave(ending) => OnLeave(w, inv, ending)
    case Crash => Some(w.(holder := None))
    case _ => None
  }

  /** A history: the events in order, each from the world the last one left. */
  ghost function Play(w: World, events: seq<Event>): Option<World>
    decreases |events|
  {
    if events == [] then Some(w)
    else
      match Apply(w, events[0])
      case None => None
      case Some(w') => Play(w', events[1..])
  }
}
