/**
 What one invocation is, event by event: its options stay, its in-flight flag only
 rises, and on a terminal without --yes it can start an execute but never resend one.
 */
module ProtocolInvocation {
  import opened Wrappers
  import opened DurableStore
  import opened Records
  import opened Protocol
  import opened ProtocolSafety
  import opened ProtocolSteps
  import opened ProtocolGate
  import L = Ledger
  import O = Outcomes
  import C = Consent
  import A = Api
  import E = Exit

  /** Between the prompt and the first request. */
  predicate AboutToSend(pc: Pc) {
    pc.Prompted? || ((pc.Ready? || pc.Begun?) && pc.step.Execute?) || (pc.Sending? && pc.step.Execute? && pc.sent == 0)
  }

  /** What an event leaves of the invocation, if it leaves one. */
  ghost predicate Frame(w: World, inv: Invocation, e: Event, w': World) {
    && w'.reports == (if e.Leave? then w.reports + [ReportOf(inv, e.ending)] else w.reports)
    && (w'.holder.Some? ==> Same(w, inv, e, w', w'.holder.value))
  }

  ghost predicate Same(w: World, inv: Invocation, e: Event, w': World, inv': Invocation) {
    && inv'.flow == inv.flow && inv'.opts == inv.opts
    && (inv'.flag <==> inv.flag || e.Mark?)
    && (e.Send? || w'.wire == w.wire)
    && (AboutToSend(inv'.pc) ==> e.Ask? || AboutToSend(inv.pc))
    && (inv'.pc.Recorded? ==> e.RecordAnswer?)
    && Tells(w, inv, e, w', inv')
  }

  /** What is said of an invocation is what happened in it: what it sent, what answered, and who consented. */
  ghost predicate Tells(w: World, inv: Invocation, e: Event, w': World, inv': Invocation) {
    && (inv'.left <==> inv.left || e.Send?)
    && (inv'.simulated <==> inv.simulated || (e.GetAnswer? && e.a.op.SimulateTransfer?))
    && (inv'.consent == inv.consent || (inv'.consent.Some? && GivenBy(e, inv'.consent.value)))
    && (inv'.report == inv.report || e.Proceed?) && (inv'.pc.Performed? ==> e.FollowUp?)
    && (e.Send? ==> |w'.wire| == |w.wire| + 1 && SentBy(inv, w'.wire[|w.wire|]))
  }

  /** A verdict rests on the prompt's own answer, or on no prompt at all. */
  predicate GivenBy(e: Event, evidence: Evidence) {
    (e.Ask? && evidence.prompt == NO_PROMPT) || (e.ReadLine? && evidence.prompt == e.prompt)
  }

  predicate SentBy(inv: Invocation, q: Sent) {
    && inv.pc.Sending? && q.step == inv.pc.step && q.opts == inv.opts && q.consent == inv.consent
    && (q.plainResume <==> inv.flow.ResumeRun? && !inv.simulated)
  }

  lemma CommitFrame(w: World, inv: Invocation, next: L.RunResult, kept: Run, o: SaveOutcome, pc: Pc, e: Event)
    requires AboutToSend(pc) ==> e.Ask? || AboutToSend(inv.pc)
    requires !e.Mark? && !e.Leave? && !e.Send? && !e.GetAnswer?
    requires (pc.Recorded? ==> e.RecordAnswer?) && (pc.Performed? ==> e.FollowUp?)
    ensures Frame(w, inv, e, Commit(w, inv, next, kept, o, pc).value)
  {
  }

  lemma ReadLineFrame(w: World, inv: Invocation, prompt: C.Prompt, o: SaveOutcome)
    requires OnReadLine(w, inv, prompt, o).Some?
    ensures Frame(w, inv, ReadLine(prompt, o), OnReadLine(w, inv, prompt, o).value)
  {
    hide L.DeclineRun, C.Ask, Frame, Commit;
    var e, evidence := ReadLine(prompt, o), Evidence(RequestFor(inv, inv.pc.selfConsent), prompt);
    EndFrame(w, inv, e);
    GrantFrame(w, inv, prompt, o, evidence);
    match L.DeclineRun(inv.mem, Execute)
    case Success(Some(r)) => CommitFrame(w, inv, Success(r), r, o, Ended, e);
    case _ =>
  }

  lemma GrantFrame(w: World, inv: Invocation, prompt: C.Prompt, o: SaveOutcome, evidence: Evidence)
    requires inv.pc.Prompted? && evidence.prompt == prompt
    ensures Frame(w, inv, ReadLine(prompt, o),
      Hold(w, inv.(consent := Some(evidence), pc := Ready(Execute, inv.pc.body))))
  {
  }

  lemma RecordFrame(w: World, inv: Invocation, structural: Option<string>, o: SaveOutcome)
    requires OnRecord(w, inv, structural, o).Some?
    ensures Frame(w, inv, RecordAnswer(structural, o), OnRecord(w, inv, structural, o).value)
  {
    hide L.RecordRun, A.ClassifyAnswer;
  }

  lemma FollowUpFrame(w: World, inv: Invocation, poll: Poll, structural: Option<string>, o: SaveOutcome)
    requires OnFollowUp(w, inv, poll, structural, o).Some?
    ensures Frame(w, inv, FollowUp(poll, structural, o), OnFollowUp(w, inv, poll, structural, o).value)
  {
    hide L.RecordRun, A.PollTarget, A.MoneyInput, E.Source.Class, Poll.Said;
  }

  lemma CloseFrame(w: World, inv: Invocation, o: SaveOutcome, e: Event)
    requires w.holder == Some(inv) && inv.mem.Find(Execute).Some? && e.Proceed?
    ensures CloseExecute(w, inv, o).Some? && Frame(w, inv, e, CloseExecute(w, inv, o).value)
  {
    hide L.UnreachableRun;
  }

  lemma ReportingFrame(w: World, inv: Invocation, e: Event, w': World, said: E.Source)
    requires Frame(w, inv, e, w') && e.Proceed?
    ensures Frame(w, inv, e, Reporting(Some(w'), said).value)
  {
  }

  lemma ProceedFrame(w: World, inv: Invocation, plan: Option<Plan>, o: SaveOutcome)
    requires w.holder == Some(inv) && OnProceed(w, inv, plan, o).Some?
    ensures Frame(w, inv, Proceed(plan, o), OnProceed(w, inv, plan, o).value)
  {
    hide L.SetPlanRun, GoesOn, StopsWith, CloseExecute, Frame, Reporting;
    var e := Proceed(plan, o);
    if inv.pc.step.Execute? || inv.mem.Find(Execute).None? {
      EndFrame(w, inv, e);
      ReportingFrame(w, inv, e, Hold(w, inv.(pc := Ended)), inv.pc.said);
    } else {
      match GoesOn(inv.pc.said, inv.pc.a)
      case Some(token) =>
        var next := L.SetPlanRun(inv.mem, Execute, plan, token);
        CommitFrame(w, inv, next, Taken(next, inv.mem), o, Asking(Some(PlanTokenDocument(token)), true), e);
      case None =>
        CloseFrame(w, inv, o, e);
        ReportingFrame(w, inv, e, CloseExecute(w, inv, o).value, StopsWith(inv.pc.said));
    }
  }

  lemma EndFrame(w: World, inv: Invocation, e: Event)
    requires !e.Mark? && !e.Leave? && !e.Send? && !e.GetAnswer?
    ensures Frame(w, inv, e, Hold(w, inv.(pc := Ended)))
  {
  }

  lemma AskFrame(w: World, inv: Invocation, o: SaveOutcome)
    requires OnAsk(w, inv, o).Some?
    ensures Frame(w, inv, Ask(o), OnAsk(w, inv, o).value)
  {
    hide L.AwaitRun, C.Ask;
  }

  lemma BeginFrame(w: World, inv: Invocation, o: SaveOutcome)
    requires OnBegin(w, inv, o).Some?
    ensures Frame(w, inv, Begin(o), OnBegin(w, inv, o).value)
  {
    hide L.BeginRun, L.BegunKept;
  }

  lemma CloseOn202Frame(w: World, inv: Invocation, o: SaveOutcome)
    requires OnCloseOn202(w, inv, o).Some?
    ensures Frame(w, inv, CloseOn202(o), OnCloseOn202(w, inv, o).value)
  {
    hide L.UnreachableRun;
  }

  lemma DeclineFrame(w: World, inv: Invocation, o: SaveOutcome)
    requires OnDecline(w, inv, o).Some?
    ensures Frame(w, inv, DeclineRun(o), OnDecline(w, inv, o).value)
  {
    hide L.DeclineRun;
  }

  lemma ScrubFrame(w: World, inv: Invocation, now: int, o: SaveOutcome)
    requires OnScrub(w, inv, now, o).Some?
    ensures Frame(w, inv, ScrubRun(now, o), OnScrub(w, inv, now, o).value)
  {
    hide L.ScrubRun;
  }

  lemma MoveFrame(w: World, inv: Invocation, e: Event)
    requires w.holder == Some(inv) && ApplyHeld(w, inv, e).Some?
    requires e.Decide? || e.Mark? || e.Send? || e.GetAnswer? || e.PruneRun? || e.Leave? || e.Crash?
    ensures Frame(w, inv, e, ApplyHeld(w, inv, e).value)
  {
    hide Resumable, A.FreshPlanToken, A.IsMoneyAnswer, MayEnd, E.ExitCode;
  }

  lemma HeldFrame(w: World, inv: Invocation, e: Event)
    requires w.holder == Some(inv) && ApplyHeld(w, inv, e).Some?
    ensures Frame(w, inv, e, ApplyHeld(w, inv, e).value)
  {
    hide Frame, OnAsk, OnReadLine, OnBegin, OnRecord, OnCloseOn202, OnFollowUp, OnProceed, OnDecline, OnScrub;
    match e
    case Ask(o) => AskFrame(w, inv, o);
    case ReadLine(prompt, o) => ReadLineFrame(w, inv, prompt, o);
    case Begin(o) => BeginFrame(w, inv, o);
    case RecordAnswer(structural, o) => RecordFrame(w, inv, structural, o);
    case CloseOn202(o) => CloseOn202Frame(w, inv, o);
    case FollowUp(poll, structural, o) => FollowUpFrame(w, inv, poll, structural, o);
    case Proceed(plan, o) => ProceedFrame(w, inv, plan, o);
    case DeclineRun(o) => DeclineFrame(w, inv, o);
    case ScrubRun(now, o) => ScrubFrame(w, inv, now, o);
    case _ =>
      MoveFrame(w, inv, e);
  }

  // ---------- The in-flight flag ----------

  /** While an invocation works, its flag rises at Mark and never falls. */
  lemma FlagOnlyRises(w: World, e: Event, w': World)
    requires Apply(w, e) == Some(w') && w.holder.Some? && w'.holder.Some?
    ensures w'.holder.value.flag <==> w.holder.value.flag || e.Mark?
  {
    hide ApplyHeld;
    if !e.DirFsync? {
      HeldFrame(w, w.holder.value, e);
    }
  }

  /** It is up before every request leaves, and whoever has sent has it up. */
  lemma FlagBeforeSend(events: seq<Event>, w: World)
    requires Play(Start(), events) == Some(w) && w.holder.Some?
    ensures Apply(w, Send).Some? ==> w.holder.value.flag
    ensures w.holder.value.left ==> w.holder.value.flag
  {
    PlayKeeps(Start(), events);
    WellFlag(w);
  }

  lemma WellFlag(w: World)
    requires Inv(w) && w.holder.Some?
    ensures Apply(w, Send).Some? ==> w.holder.value.flag
    ensures w.holder.value.left ==> w.holder.value.flag
  {
  }

  // ---------- What a process says when it ends ----------

  ghost predicate ReportWell(r: Report) {
    && r.code == E.ExitCode(r.ending, r.flag) && (r.left ==> r.flag)
    && (r.money ==> E.MoneyEnds(r.ending, r.said))
  }

  ghost predicate ReportsWell(w: World) {
    forall i :: 0 <= i < |w.reports| ==> ReportWell(w.reports[i])
  }

  lemma LeaveReports(w: World, inv: Invocation, ending: E.Ending)
    requires Held(w, inv) && OnLeave(w, inv, ending).Some?
    ensures ReportWell(ReportOf(inv, ending))
  {
    hide E.ExitCode, E.MoneyEnds;
  }

  lemma ApplyReports(w: World, e: Event)
    requires Inv(w) && ReportsWell(w) && Apply(w, e).Some?
    ensures ReportsWell(Apply(w, e).value)
  {
    hide ReportWell, Same, ApplyHeld;
    if e.Create? || e.Open? || e.DirFsync? || e.PowerCut? {
      assert Apply(w, e).value.reports == w.reports;
    } else {
      HeldFrame(w, w.holder.value, e);
      if e.Leave? {
        LeaveApplied(w, w.holder.value, e.ending);
      }
    }
  }

  lemma LeaveApplied(w: World, inv: Invocation, ending: E.Ending)
    requires Held(w, inv) && ApplyHeld(w, inv, Leave(ending)).Some?
    ensures ReportWell(ReportOf(inv, ending))
  {
    hide OnLeave, ReportWell;
    LeaveReports(w, inv, ending);
  }

  lemma {:induction false} PlayReports(w: World, events: seq<Event>)
    requires Inv(w) && ReportsWell(w) && Play(w, events).Some?
    ensures ReportsWell(Play(w, events).value)
    decreases |events|
  {
    hide Apply, ReportsWell, Inv;
    if events != [] {
      ApplyReports(w, events[0]);
      ApplyKeeps(w, events[0]);
      PlayReports(Apply(w, events[0]).value, events[1..]);
    }
  }

  /** An outcome was reported, and it is a success. */
  predicate Zero(said: Option<E.Source>) {
    said.Some? && said.value.Class().Exit() == 0
  }

  /**
   Whatever happened, wherever an invocation stopped: with the flag up, a panic, a
   signal or a local failure exits 6 unless the verb had already reported; a money
   verb exits 0 exactly when it reported an outcome that does, and what that outcome
   rests on was read.
   */
  lemma ExitCodesAreTrue(events: seq<Event>, w: World, i: nat)
    requires Play(Start(), events) == Some(w) && i < |w.reports|
    ensures var r := w.reports[i];
      && (r.flag && !E.Ordinary(r.ending, true) && (r.ending.panicked || !r.ending.wrote) ==> r.code == 6)
      && (r.money ==> (r.code == 0 <==> !r.ending.panicked && r.ending.wrote && Zero(r.said)))
      && (r.money && r.code == 0 ==> r.said.Some? && E.Succeeds(r.said.value))
  {
    PlayReports(Start(), events);
    ReportIsTrue(w.reports[i]);
  }

  lemma ReportIsTrue(r: Report)
    requires ReportWell(r)
    ensures r.flag && !E.Ordinary(r.ending, true) && (r.ending.panicked || !r.ending.wrote) ==> r.code == 6
    ensures r.money ==> (r.code == 0 <==> !r.ending.panicked && r.ending.wrote && Zero(r.said))
    ensures r.money && r.code == 0 ==> r.said.Some? && E.Succeeds(r.said.value)
  {
    if r.flag && !E.Ordinary(r.ending, true) {
      E.AbnormalCode(r.ending, true);
    }
    if r.money {
      E.MoneyExitsZeroIff(r.ending, r.flag, r.said);
      if r.code == 0 {
        E.SuccessIsRead(r.said.value);
      }
    }
  }

  // ---------- What an answer leaves on disk ----------

  /** The step holds this answer: its status, and what the structural pass left of its body but for tokens. */
  ghost predicate HoldsAnswer(m: Run, step: StepName, a: A.Answer, structural: Option<string>) {
    && m.Find(step).Some? && m.Find(step).value.response.Some?
    && m.Find(step).value.response.value.status == a.status
    && L.StoredAs(m.Find(step).value.response.value.body, a.body.text, structural)
  }

  ghost predicate AnswerStored(w: World) {
    w.holder.Some? && w.holder.value.pc.Recorded? ==>
      exists structural :: HoldsAnswer(w.holder.value.mem, w.holder.value.pc.step, w.holder.value.pc.a, structural)
  }

  lemma RecordHolds(m: Run, step: StepName, a: A.Answer, structural: Option<string>, oc: Option<LedgerOutcome>)
    requires L.RecordRun(m, step, Recordable(a), structural, oc).Success?
    ensures HoldsAnswer(L.RecordRun(m, step, Recordable(a), structural, oc).value, step, a, structural)
  {
    var s := m.Find(step).value;
    var s' := L.RecordStep(s, Recordable(a), structural, oc);
    L.RecordStores(s, Recordable(a), structural, oc);
    L.RecordKeepsRequest(s, Recordable(a), structural, oc);
    hide L.RecordStep, L.StoredAs;
    FindAfterReplace(m.steps, s', step);
    assert L.StoredAs(s'.response.value.body, a.body.text, structural);
  }

  lemma RecordStored(w: World, inv: Invocation, structural: Option<string>, o: SaveOutcome)
    requires w.holder == Some(inv) && OnRecord(w, inv, structural, o).Some?
    ensures AnswerStored(OnRecord(w, inv, structural, o).value)
  {
    RecordedNow(w, inv, structural, o);
    hide OnRecord, HoldsAnswer;
  }

  lemma ApplyStored(w: World, e: Event)
    requires Inv(w) && AnswerStored(w) && Apply(w, e).Some?
    ensures AnswerStored(Apply(w, e).value)
  {
    hide ApplyHeld, HoldsAnswer;
    if e.Create? || e.Open? || e.DirFsync? || e.PowerCut? {
      OutsideStored(w, e);
    } else {
      HeldFrame(w, w.holder.value, e);
      if e.RecordAnswer? {
        RecordApplied(w, w.holder.value, e.structural, e.o);
      }
    }
  }

  lemma OutsideStored(w: World, e: Event)
    requires AnswerStored(w) && Apply(w, e).Some? && (e.Create? || e.Open? || e.DirFsync? || e.PowerCut?)
    ensures AnswerStored(Apply(w, e).value)
  {
    hide HoldsAnswer;
  }

  lemma RecordApplied(w: World, inv: Invocation, structural: Option<string>, o: SaveOutcome)
    requires w.holder == Some(inv) && ApplyHeld(w, inv, RecordAnswer(structural, o)).Some?
    ensures AnswerStored(ApplyHeld(w, inv, RecordAnswer(structural, o)).value)
  {
    hide OnRecord, AnswerStored;
    RecordStored(w, inv, structural, o);
  }

  lemma {:induction false} PlayStored(w: World, events: seq<Event>)
    requires Inv(w) && AnswerStored(w) && Play(w, events).Some?
    ensures AnswerStored(Play(w, events).value)
    decreases |events|
  {
    hide Apply, AnswerStored, Inv;
    if events != [] {
      ApplyStored(w, events[0]);
      ApplyKeeps(w, events[0]);
      PlayStored(Apply(w, events[0]).value, events[1..]);
    }
  }

  /** An answer recorded is an answer kept: every version a power cut could leave holds it. */
  lemma AnswerIsStored(events: seq<Event>, w: World, v: Option<Run>)
    requires Play(Start(), events) == Some(w) && w.holder.Some? && w.holder.value.pc.Recorded? &&
      v in w.store.recoverable
    ensures v.Some? && exists structural :: HoldsAnswer(v.value, w.holder.value.pc.step, w.holder.value.pc.a,
      structural)
  {
    PlayStored(Start(), events);
    PlayKeeps(Start(), events);
    RecordedIsDurable(w);
    hide HoldsAnswer, Inv;
  }

  lemma RecordedIsDurable(w: World)
    requires Inv(w) && w.holder.Some? && w.holder.value.pc.Recorded?
    ensures w.store.Durable(w.holder.value.mem)
  {
  }

  /** And what it holds is what this very record was given. */
  lemma RecordedIsTheAnswer(events: seq<Event>, w: World, structural: Option<string>, o: SaveOutcome, w': World)
    requires Play(Start(), events) == Some(w) && Apply(w, RecordAnswer(structural, o)) == Some(w')
    requires w'.holder.Some? && w'.holder.value.pc.Recorded?
    ensures forall v :: v in w'.store.recoverable ==>
      v.Some? && HoldsAnswer(v.value, w'.holder.value.pc.step, w.holder.value.pc.a, structural)
  {
    hide HoldsAnswer, Inv, OnRecord;
    PlayKeeps(Start(), events);
    ApplyKeeps(w, RecordAnswer(structural, o));
    RecordedIsDurable(w');
    RecordedNow(w, w.holder.value, structural, o);
  }

  lemma RecordedNow(w: World, inv: Invocation, structural: Option<string>, o: SaveOutcome)
    requires w.holder == Some(inv) && OnRecord(w, inv, structural, o).Some?
    ensures var inv' := OnRecord(w, inv, structural, o).value.holder.value;
      inv'.pc.Recorded? ==>
        inv'.pc == Recorded(inv.pc.step, inv.pc.a) && HoldsAnswer(inv'.mem, inv.pc.step, inv.pc.a, structural)
  {
    var oc := LedgerOutcomeOf(A.ClassifyAnswer(inv.pc.a));
    if L.RecordRun(inv.mem, inv.pc.step, Recordable(inv.pc.a), structural, oc).Success? {
      RecordHolds(inv.mem, inv.pc.step, inv.pc.a, structural, oc);
    }
    hide L.RecordRun, A.ClassifyAnswer, HoldsAnswer;
  }

  // ---------- The prompt ----------

  ghost predicate AskedFirst(w: World) {
    w.holder.Some? && w.holder.value.opts.tty && !w.holder.value.opts.yes && AboutToSend(w.holder.value.pc) ==>
      NoneSent(w)
  }

  lemma AwaitedIn(m: Run)
    requires L.AwaitRun(m, Execute).Success?
    ensures var r := L.AwaitRun(m, Execute).value;
      r.Find(Execute).Some? && r.Find(Execute).value.state.AwaitingConfirmation?
  {
    FindAfterReplace(m.steps, L.AwaitStep(m.Find(Execute).value).value, Execute);
  }

  /** The question is put only once awaiting_confirmation is durable. */
  lemma PromptedAfterSave(w: World, inv: Invocation, o: SaveOutcome)
    requires inv.pc.Asking? && inv.opts.tty && !inv.opts.yes
    ensures var w' := OnAsk(w, inv, o).value;
      AboutToSend(w'.holder.value.pc) ==>
        o.Saved? && L.AwaitRun(inv.mem, Execute).Success? &&
          w'.store == w.store.Save(L.AwaitRun(inv.mem, Execute).value, Saved)
  {
    hide L.AwaitRun;
  }

  /** And that version proves that nothing left. */
  lemma AskFirst(w: World, inv: Invocation, o: SaveOutcome)
    requires Held(w, inv) && OnAsk(w, inv, o).Some?
    ensures AskedFirst(OnAsk(w, inv, o).value)
  {
    hide Tells;
    if inv.opts.tty && !inv.opts.yes {
      AskKeeps(w, inv, o);
      PromptedAfterSave(w, inv, o);
      AskFrame(w, inv, o);
      hide OnAsk;
      var w' := OnAsk(w, inv, o).value;
      if AboutToSend(w'.holder.value.pc) {
        AwaitedIn(inv.mem);
        NeverBegunNeverSent(w', L.AwaitRun(inv.mem, Execute).value);
      }
    } else {
      AskFrame(w, inv, o);
    }
  }

  lemma CreateFirst(w: World, e: Event)
    requires Inv(w) && Apply(w, e).Some? && (e.Create? || e.Open? || e.DirFsync? || e.PowerCut?) && AskedFirst(w)
    ensures AskedFirst(Apply(w, e).value)
  {
    hide ApplyHeld;
  }

  lemma ApplyFirst(w: World, e: Event)
    requires Inv(w) && Apply(w, e).Some? && AskedFirst(w)
    ensures AskedFirst(Apply(w, e).value)
  {
    hide ApplyHeld;
    if e.Create? || e.Open? || e.DirFsync? || e.PowerCut? {
      CreateFirst(w, e);
    } else if e.Ask? {
      AskApplied(w, w.holder.value, e.o);
    } else {
      HeldFrame(w, w.holder.value, e);
      if e.Send? {
        SendFirst(w, w.holder.value, e);
      }
    }
  }

  lemma AskApplied(w: World, inv: Invocation, o: SaveOutcome)
    requires Held(w, inv) && ApplyHeld(w, inv, Ask(o)).Some?
    ensures AskedFirst(ApplyHeld(w, inv, Ask(o)).value)
  {
    hide OnAsk;
    AskFirst(w, inv, o);
  }

  /** Once it has sent, it is no longer about to. */
  lemma SendFirst(w: World, inv: Invocation, e: Event)
    requires w.holder == Some(inv) && ApplyHeld(w, inv, e).Some? && e.Send?
    ensures var w' := ApplyHeld(w, inv, e).value; w'.holder.Some? && !AboutToSend(w'.holder.value.pc)
  {
  }

  lemma {:induction false} PlayFirst(w: World, events: seq<Event>)
    requires Inv(w) && AskedFirst(w) && Play(w, events).Some?
    ensures AskedFirst(Play(w, events).value)
    decreases |events|
  {
    hide Apply;
    if events != [] {
      ApplyFirst(w, events[0]);
      ApplyKeeps(w, events[0]);
      PlayFirst(Apply(w, events[0]).value, events[1..]);
    }
  }

  /**
   When an invocation on a terminal without --yes is about to send its first
   execute request, no execute of this run has ever left: a request whose fate is
   unknown is resent only with --yes.
   */
  lemma TerminalNeverResends(events: seq<Event>, w: World)
    requires Play(Start(), events) == Some(w) && w.holder.Some?
    requires w.holder.value.opts.tty && !w.holder.value.opts.yes && w.holder.value.pc == Sending(Execute, 0)
    ensures NoneSent(w)
  {
    PlayFirst(Start(), events);
  }
}
