/**
 Which handle method each event of the protocol calls, and that its effect is the one
 `Ledger.Handle` is proved to have.
 */
module ProtocolHandle {
  import opened Wrappers
  import opened DurableStore
  import opened Records
  import opened Protocol
  import L = Ledger
  import A = Api
  import C = Consent
  import E = Exit

  datatype HandleCall =
    | CallBegin(step: StepName, body: Option<RequestBody>)
    | CallAwait
    | CallSetPlan(plan: Option<Plan>, token: string)
    | CallRecord(step: StepName, resp: Option<Response>, structural: Option<string>, oc: Option<LedgerOutcome>)
    | CallDecline
    | CallUnreachable
    | CallSave(next: Run)

  /** The postcondition of the method of `Ledger.Handle`, over its run and its record before and after. */
  ghost predicate Made(
      call: HandleCall, before: Run, store: Store<Run>, after: Run, store': Store<Run>, err: Option<L.LedgerError>,
      o: SaveOutcome) {
    match call
    case CallBegin(step, body) =>
      L.Saves(before, store, L.BeginRun(before, step, body), L.BegunKept(before, step, body), false, after, store',
        err, o)
    case CallAwait => Keeps(L.AwaitRun(before, Execute), before, store, after, store', err, o)
    case CallSetPlan(plan, token) =>
      Keeps(L.SetPlanRun(before, Execute, plan, token), before, store, after, store', err, o)
    case CallRecord(step, resp, structural, oc) =>
      Keeps(L.RecordRun(before, step, resp, structural, oc), before, store, after, store', err, o)
    case CallDecline =>
      (match L.DeclineRun(before, Execute)
       case Failure(e) => err == Some(e) && after == before && store' == store
       case Success(None) => err.None? && after == before && store' == store
       case Success(Some(r)) => L.Saves(before, store, Success(r), r, false, after, store', err, o))
    case CallUnreachable => Keeps(L.UnreachableRun(before, Execute), before, store, after, store', err, o)
    case CallSave(next) => L.Saves(before, store, Success(next), next, false, after, store', err, o)
  }

  /** The methods that do not roll back. */
  ghost predicate Keeps(
      next: L.RunResult, before: Run, store: Store<Run>, after: Run, store': Store<Run>, err: Option<L.LedgerError>,
      o: SaveOutcome) {
    L.Saves(before, store, next, if next.Success? then next.value else before, false, after, store', err, o)
  }

  function VerdictOf(inv: Invocation, selfConsent: bool, prompt: C.Prompt): C.Verdict {
    Evidence(RequestFor(inv, selfConsent), prompt).Verdict()
  }

  /** The method an event calls; None is an event that writes nothing. */
  function CallOf(inv: Invocation, e: Event): Option<HandleCall> {
    match e
    case Ask(_) =>
      if !inv.pc.Asking? || VerdictOf(inv, inv.pc.selfConsent, NO_PROMPT).Granted? || !inv.opts.tty then None
        else Some(CallAwait)
    case ReadLine(prompt, _) =>
      if inv.pc.Prompted? && VerdictOf(inv, inv.pc.selfConsent, prompt).Declined? then Some(CallDecline) else None
    case Begin(_) => if inv.pc.Ready? then Some(CallBegin(inv.pc.step, inv.pc.body)) else None
    case RecordAnswer(structural, _) =>
      if inv.pc.Answered? then
        Some(CallRecord(inv.pc.step, Recordable(inv.pc.a), structural, LedgerOutcomeOf(A.ClassifyAnswer(inv.pc.a))))
      else None
    case CloseOn202(_) =>
      if inv.pc.Recorded? && inv.flow.CreateBroadcast? && inv.pc.step.Simulate? && inv.pc.a.status == 202 then
        Some(CallUnreachable) else None
    case FollowUp(poll, structural, _) =>
      if inv.pc.Following? && A.PollTarget(inv.pc.a).Some? && !inv.opts.noWait && poll.command.Some? then
        Some(CallRecord(inv.pc.step, Some(poll.response), structural, LedgerOutcomeOf(poll.Said().Class())))
      else None
    case Proceed(plan, _) =>
      if !inv.pc.Performed? || inv.pc.step.Execute? || inv.mem.Find(Execute).None? then None
      else
        (match GoesOn(inv.pc.said, inv.pc.a)
         case Some(token) => Some(CallSetPlan(plan, token))
         case None =>
           var state := inv.mem.Find(Execute).value.state;
           if state.IsTerminal() || state.MayHaveSent() then None else Some(CallUnreachable))
    case DeclineRun(_) => if inv.pc.Maintaining? then Some(CallDecline) else None
    case ScrubRun(now, _) =>
      if inv.pc.Maintaining? && L.ScrubRun(inv.mem, now) != inv.mem then Some(CallSave(L.ScrubRun(inv.mem, now)))
        else None
    case _ => None
  }

  /** How the event's write ended. */
  function OutcomeOf(e: Event): SaveOutcome {
    match e
    case Ask(o) => o
    case ReadLine(_, o) => o
    case Begin(o) => o
    case RecordAnswer(_, o) => o
    case CloseOn202(o) => o
    case FollowUp(_, _, o) => o
    case Proceed(_, o) => o
    case DeclineRun(o) => o
    case ScrubRun(_, o) => o
    case _ => NotWritten
  }

  /** The event did to the run in memory and on disk what the method does. */
  ghost predicate Does(w: World, inv: Invocation, call: HandleCall, w': World, o: SaveOutcome) {
    w'.holder.Some? && exists err :: Made(call, inv.mem, w.store, w'.holder.value.mem, w'.store, err, o)
  }

  /** Writing through the handle, with memory keeping `kept` when the save fails. */
  lemma CommitDoes(w: World, inv: Invocation, next: L.RunResult, kept: Run, o: SaveOutcome, pc: Pc)
    returns (err: Option<L.LedgerError>)
    ensures var w' := Commit(w, inv, next, kept, o, pc).value;
      && L.Saves(inv.mem, w.store, next, kept, false, w'.holder.value.mem, w'.store, err, o)
      && w'.holder.value.pc == if err.None? then pc else Ended
  {
    err := match next case Failure(e) => Some(e) case Success(_) => if o.Saved? then None else Some(L.SaveFailed);
  }

  lemma CommitRunDoes(w: World, inv: Invocation, call: HandleCall, next: L.RunResult, o: SaveOutcome, pc: Pc)
    requires forall err, after, store' ::
      Keeps(next, inv.mem, w.store, after, store', err, o) ==> Made(call, inv.mem, w.store, after, store', err, o)
    ensures Does(w, inv, call, CommitRun(w, inv, next, o, pc).value, o)
  {
    var w' := CommitRun(w, inv, next, o, pc).value;
    var err := CommitDoes(w, inv, next, Taken(next, inv.mem), o, pc);
    assert Keeps(next, inv.mem, w.store, w'.holder.value.mem, w'.store, err, o);
  }

  lemma AskDoes(w: World, inv: Invocation, o: SaveOutcome)
    requires OnAsk(w, inv, o).Some? && CallOf(inv, Ask(o)) == Some(CallAwait)
    ensures Does(w, inv, CallAwait, OnAsk(w, inv, o).value, o)
  {
    hide L.AwaitRun, C.Ask;
    CommitRunDoes(w, inv, CallAwait, L.AwaitRun(inv.mem, Execute), o, Prompted(inv.pc.body, inv.pc.selfConsent));
  }

  lemma BeginDoes(w: World, inv: Invocation, o: SaveOutcome)
    requires OnBegin(w, inv, o).Some?
    ensures Does(w, inv, CallBegin(inv.pc.step, inv.pc.body), OnBegin(w, inv, o).value, o)
  {
    hide L.BeginRun, L.BegunKept;
    var err := CommitDoes(w, inv, L.BeginRun(inv.mem, inv.pc.step, inv.pc.body),
      L.BegunKept(inv.mem, inv.pc.step, inv.pc.body), o, Begun(inv.pc.step));
    var w' := OnBegin(w, inv, o).value;
    assert Made(CallBegin(inv.pc.step, inv.pc.body), inv.mem, w.store, w'.holder.value.mem, w'.store, err, o);
  }

  /** A decline, at the prompt or by `runs decline`. */
  lemma DeclineDoes(w: World, inv: Invocation, o: SaveOutcome, w': World)
    requires match L.DeclineRun(inv.mem, Execute)
      case Success(Some(r)) => w' == CommitRun(w, inv, Success(r), o, Ended).value
      case _ => w' == Hold(w, inv.(pc := Ended))
    ensures Does(w, inv, CallDecline, w', o)
  {
    match L.DeclineRun(inv.mem, Execute)
    case Success(Some(r)) =>
      var err := CommitDoes(w, inv, Success(r), r, o, Ended);
      assert Made(CallDecline, inv.mem, w.store, w'.holder.value.mem, w'.store, err, o);
    case Success(None) => assert Made(CallDecline, inv.mem, w.store, w'.holder.value.mem, w'.store, None, o);
    case Failure(e) => assert Made(CallDecline, inv.mem, w.store, w'.holder.value.mem, w'.store, Some(e), o);
  }

  lemma ReadLineDoes(w: World, inv: Invocation, prompt: C.Prompt, o: SaveOutcome)
    requires OnReadLine(w, inv, prompt, o).Some? && CallOf(inv, ReadLine(prompt, o)) == Some(CallDecline)
    ensures Does(w, inv, CallDecline, OnReadLine(w, inv, prompt, o).value, o)
  {
    hide L.DeclineRun, C.Ask, Does;
    DeclineDoes(w, inv, o, OnReadLine(w, inv, prompt, o).value);
  }

  lemma RecordDoes(w: World, inv: Invocation, call: HandleCall, o: SaveOutcome, pc: Pc)
    requires call.CallRecord?
    ensures Does(w, inv, call,
      CommitRun(w, inv, L.RecordRun(inv.mem, call.step, call.resp, call.structural, call.oc), o, pc).value, o)
  {
    hide L.RecordRun;
    CommitRunDoes(w, inv, call, L.RecordRun(inv.mem, call.step, call.resp, call.structural, call.oc), o, pc);
  }

  lemma AnswerDoes(w: World, inv: Invocation, structural: Option<string>, o: SaveOutcome)
    requires OnRecord(w, inv, structural, o).Some?
    ensures Does(w, inv, CallOf(inv, RecordAnswer(structural, o)).value, OnRecord(w, inv, structural, o).value, o)
  {
    hide L.RecordRun, A.ClassifyAnswer, Does;
    RecordDoes(w, inv, CallOf(inv, RecordAnswer(structural, o)).value, o, Recorded(inv.pc.step, inv.pc.a));
  }

  lemma FollowUpDoes(w: World, inv: Invocation, poll: Poll, structural: Option<string>, o: SaveOutcome)
    requires OnFollowUp(w, inv, poll, structural, o).Some? && CallOf(inv, FollowUp(poll, structural, o)).Some?
    ensures Does(w, inv, CallOf(inv, FollowUp(poll, structural, o)).value,
      OnFollowUp(w, inv, poll, structural, o).value, o)
  {
    hide L.RecordRun, A.PollTarget, Does;
    RecordDoes(w, inv, CallOf(inv, FollowUp(poll, structural, o)).value, o,
      Performed(inv.pc.step, poll.Said(), inv.pc.a));
  }

  lemma UnreachableDoes(w: World, inv: Invocation, o: SaveOutcome, pc: Pc)
    ensures Does(w, inv, CallUnreachable, CommitRun(w, inv, L.UnreachableRun(inv.mem, Execute), o, pc).value, o)
  {
    hide L.UnreachableRun;
    CommitRunDoes(w, inv, CallUnreachable, L.UnreachableRun(inv.mem, Execute), o, pc);
  }

  lemma CloseOn202Does(w: World, inv: Invocation, o: SaveOutcome)
    requires OnCloseOn202(w, inv, o).Some? && CallOf(inv, CloseOn202(o)).Some?
    ensures Does(w, inv, CallUnreachable, OnCloseOn202(w, inv, o).value, o)
  {
    hide L.UnreachableRun, Does;
    UnreachableDoes(w, inv, o, Following(inv.pc.step, inv.pc.a));
  }

  lemma SetPlanDoes(w: World, inv: Invocation, plan: Option<Plan>, token: string, o: SaveOutcome, pc: Pc)
    ensures Does(w, inv, CallSetPlan(plan, token),
      CommitRun(w, inv, L.SetPlanRun(inv.mem, Execute, plan, token), o, pc).value, o)
  {
    hide L.SetPlanRun;
    CommitRunDoes(w, inv, CallSetPlan(plan, token), L.SetPlanRun(inv.mem, Execute, plan, token), o, pc);
  }

  /** What is reported is not the handle's business. */
  lemma ReportingDoes(w: World, inv: Invocation, call: HandleCall, w': World, o: SaveOutcome, said: E.Source)
    requires Does(w, inv, call, w', o)
    ensures Does(w, inv, call, Reporting(Some(w'), said).value, o)
  {
    hide Made;
  }

  lemma ProceedDoes(w: World, inv: Invocation, plan: Option<Plan>, o: SaveOutcome)
    requires OnProceed(w, inv, plan, o).Some? && CallOf(inv, Proceed(plan, o)).Some?
    ensures Does(w, inv, CallOf(inv, Proceed(plan, o)).value, OnProceed(w, inv, plan, o).value, o)
  {
    hide L.SetPlanRun, L.UnreachableRun, GoesOn, StopsWith, Does, Reporting;
    match GoesOn(inv.pc.said, inv.pc.a)
    case Some(token) => SetPlanDoes(w, inv, plan, token, o, Asking(Some(PlanTokenDocument(token)), true));
    case None =>
      UnreachableDoes(w, inv, o, Ended);
      ReportingDoes(w, inv, CallUnreachable, CommitRun(w, inv, L.UnreachableRun(inv.mem, Execute), o, Ended).value, o,
        StopsWith(inv.pc.said));
  }

  lemma ScrubDoes(w: World, inv: Invocation, now: int, o: SaveOutcome)
    requires OnScrub(w, inv, now, o).Some? && CallOf(inv, ScrubRun(now, o)).Some?
    ensures Does(w, inv, CallSave(L.ScrubRun(inv.mem, now)), OnScrub(w, inv, now, o).value, o)
  {
    hide L.ScrubRun;
    CommitRunDoes(w, inv, CallSave(L.ScrubRun(inv.mem, now)), Success(L.ScrubRun(inv.mem, now)), o, Ended);
  }

  lemma DeclineRunDoes(w: World, inv: Invocation, o: SaveOutcome)
    requires OnDecline(w, inv, o).Some?
    ensures Does(w, inv, CallDecline, OnDecline(w, inv, o).value, o)
  {
    hide L.DeclineRun, Does;
    DeclineDoes(w, inv, o, OnDecline(w, inv, o).value);
  }

  /** Each event that writes makes exactly one handle call, with exactly that call's effect on memory and disk. */
  lemma EventIsTheHandleCall(w: World, inv: Invocation, e: Event)
    requires ApplyHeld(w, inv, e).Some? && CallOf(inv, e).Some?
    ensures Does(w, inv, CallOf(inv, e).value, ApplyHeld(w, inv, e).value, OutcomeOf(e))
  {
    hide Does, OnAsk, OnReadLine, OnBegin, OnRecord, OnCloseOn202, OnFollowUp, OnProceed, OnDecline, OnScrub;
    match e
    case Ask(o) => AskDoes(w, inv, o);
    case ReadLine(prompt, o) => ReadLineDoes(w, inv, prompt, o);
    case Begin(o) => BeginRuns(w, inv, o);
    case RecordAnswer(structural, o) => AnswerDoes(w, inv, structural, o);
    case CloseOn202(o) => CloseOn202Does(w, inv, o);
    case FollowUp(poll, structural, o) => FollowUpDoes(w, inv, poll, structural, o);
    case Proceed(plan, o) => ProceedDoes(w, inv, plan, o);
    case DeclineRun(o) => DeclineRunDoes(w, inv, o);
    case ScrubRun(now, o) => ScrubDoes(w, inv, now, o);
  }

  lemma BeginRuns(w: World, inv: Invocation, o: SaveOutcome)
    requires OnBegin(w, inv, o).Some? && CallOf(inv, Begin(o)).Some?
    ensures Does(w, inv, CallOf(inv, Begin(o)).value, OnBegin(w, inv, o).value, o)
  {
    hide Does, OnBegin;
    BeginDoes(w, inv, o);
  }

  // ---------- And nothing else writes ----------

  lemma ProceedWritesNothing(w: World, inv: Invocation, plan: Option<Plan>, o: SaveOutcome)
    requires OnProceed(w, inv, plan, o).Some? && CallOf(inv, Proceed(plan, o)).None?
    ensures OnProceed(w, inv, plan, o).value.store == w.store
  {
    hide L.SetPlanRun, L.UnreachableRun, GoesOn, StopsWith;
  }

  /** An event without a call leaves the record alone, except the prune that removes it. */
  lemma OtherEventsWriteNothing(w: World, inv: Invocation, e: Event)
    requires ApplyHeld(w, inv, e).Some? && CallOf(inv, e).None? && !e.PruneRun?
    ensures ApplyHeld(w, inv, e).value.store == w.store
  {
    hide OnProceed, C.Ask, A.PollTarget, A.ClassifyAnswer, L.ScrubRun, Resumable, A.FreshPlanToken, A.IsMoneyAnswer;
    if e.Proceed? {
      ProceedWritesNothing(w, inv, e.plan, e.o);
    }
  }
}
