/**
 One invocation from the event that takes the run to the one that lets it go: what it
 sent, who consented, and what it may say, in terms of its own events.
 */
module ProtocolSession {
  import opened Wrappers
  import opened DurableStore
  import opened Records
  import opened Protocol
  import opened ProtocolSafety
  import opened ProtocolSteps
  import opened ProtocolInvocation
  import opened ProtocolTheorems
  import L = Ledger
  import O = Outcomes
  import A = Api
  import C = Consent
  import E = Exit
  import Loops

  /** The run is held from here through every event: it is one invocation. */
  ghost predicate Stays(w: World, events: seq<Event>)
    decreases |events|
  {
    w.holder.Some? && (events == [] || (Apply(w, events[0]).Some? && Stays(Apply(w, events[0]).value, events[1..])))
  }

  /** An invocation that takes the run from nobody. */
  ghost predicate Enters(w: World, e: Event, w': World) {
    (e.Create? || e.Open?) && Apply(w, e) == Some(w') && w'.holder.Some?
  }

  predicate Simulated(e: Event) {
    e.GetAnswer? && e.a.op.SimulateTransfer?
  }

  /** What an invocation has told and done, from one world of it to a later one. */
  ghost predicate Since(w: World, events: seq<Event>, w': World)
    requires w.holder.Some?
  {
    w'.holder.Some? &&
    var inv, inv' := w.holder.value, w'.holder.value;
    && inv'.flow == inv.flow && inv'.opts == inv.opts
    && (if Send in events then inv'.left && |w'.wire| > |w.wire| else inv'.left == inv.left && w'.wire == w.wire)
    && (inv'.simulated ==> inv.simulated || exists k :: 0 <= k < |events| && Simulated(events[k]))
    && (inv'.consent == inv.consent
        || (inv'.consent.Some? && exists k :: 0 <= k < |events| && GivenBy(events[k], inv'.consent.value)))
  }

  lemma OneMore(w: World, e: Event, w': World)
    requires Apply(w, e) == Some(w') && w.holder.Some? && w'.holder.Some?
    ensures Since(w, [e], w')
  {
    hide ApplyHeld;
    if e.DirFsync? {
      assert w'.holder == w.holder && w'.wire == w.wire;
    } else {
      HeldFrame(w, w.holder.value, e);
      assert [e][0] == e;
    }
  }

  lemma SinceJoin(w: World, e: Event, w1: World, rest: seq<Event>, w': World)
    requires w.holder.Some? && Since(w, [e], w1) && Since(w1, rest, w')
    ensures Since(w, [e] + rest, w')
  {
    var all := [e] + rest;
    assert all[0] == e && forall k :: 0 <= k < |rest| ==> all[k + 1] == rest[k];
    assert Send in all <==> e == Send || Send in rest;
  }

  lemma {:induction false} StaysSince(w: World, events: seq<Event>)
    requires Stays(w, events)
    ensures Play(w, events).Some? && Since(w, events, Play(w, events).value)
    decreases |events|
  {
    hide Apply, Since;
    if events == [] {
      NothingSince(w);
    } else {
      var w1 := Apply(w, events[0]).value;
      StaysSince(w1, events[1..]);
      OneMore(w, events[0], w1);
      SinceJoin(w, events[0], w1, events[1..], Play(w1, events[1..]).value);
      assert [events[0]] + events[1..] == events;
    }
  }

  lemma NothingSince(w: World)
    requires w.holder.Some?
    ensures Since(w, [], w)
  {
  }

  /** Whoever takes the run has told and done nothing yet. */
  lemma EntersFresh(w: World, e: Event, w': World)
    requires Enters(w, e, w')
    ensures w'.wire == w.wire && w'.reports == w.reports
    ensures var inv := w'.holder.value;
      && inv.flow == e.flow && inv.opts == e.opts
      && !inv.left && !inv.simulated && inv.consent.None? && inv.report.None?
  {
  }

  /** After some history, someone took the run from nobody, and these are the events since. */
  ghost predicate Session(before: seq<Event>, w0: World, enter: Event, events: seq<Event>, w: World) {
    && Play(Start(), before) == Some(w0) && Apply(w0, enter).Some? && Enters(w0, enter, Apply(w0, enter).value)
    && Stays(Apply(w0, enter).value, events) && Play(Apply(w0, enter).value, events) == Some(w)
  }

  /** What the invocation is, in terms of how it was entered and its own events. */
  ghost predicate Tale(w0: World, enter: Event, events: seq<Event>, w: World)
    requires enter.Create? || enter.Open?
  {
    w.holder.Some? &&
    var inv := w.holder.value;
    && inv.flow == enter.flow && inv.opts == enter.opts
    && (if Send in events then inv.left && |w.wire| > |w0.wire| else !inv.left && w.wire == w0.wire)
    && (inv.simulated ==> exists k :: 0 <= k < |events| && Simulated(events[k]))
    && (inv.consent.Some? ==> exists k :: 0 <= k < |events| && GivenBy(events[k], inv.consent.value))
  }

  lemma SessionTale(before: seq<Event>, w0: World, enter: Event, events: seq<Event>, w: World)
    requires Session(before, w0, enter, events, w)
    ensures Inv(w) && Tale(w0, enter, events, w)
  {
    hide Inv, Apply;
    var w1 := Apply(w0, enter).value;
    EntersFresh(w0, enter, w1);
    StaysSince(w1, events);
    Reached(before);
    ApplyKeeps(w0, enter);
    PlayKeeps(w1, events);
  }

  // ---------- What it sent ----------

  /** An invocation that exits 1 put nothing on the wire. */
  lemma ExitOneLeavesTheWire(
      before: seq<Event>, w0: World, enter: Event, events: seq<Event>, w: World, ending: E.Ending, w': World)
    requires Session(before, w0, enter, events, w) && Apply(w, Leave(ending)) == Some(w')
    ensures |w'.reports| > 0 && (w'.reports[|w'.reports| - 1].code == 1 ==> w'.wire == w0.wire)
  {
    hide Session, Inv, Apply;
    SessionTale(before, w0, enter, events, w);
    LeftTells(w, ending, w');
  }

  lemma LeftTells(w: World, ending: E.Ending, w': World)
    requires Inv(w) && w.holder.Some? && Apply(w, Leave(ending)) == Some(w')
    ensures w'.wire == w.wire && |w'.reports| > 0
    ensures w'.reports[|w'.reports| - 1].code == 1 ==> !w.holder.value.left
  {
    ApplyKeeps(w, Leave(ending));
    hide MayEnd, E.ExitCode;
  }

  // ---------- Who consented ----------

  /** The line typed at this prompt is a yes, and no signal came first. */
  predicate SaysYes(e: Event) {
    && e.ReadLine? && C.Affirmative(e.prompt.line)
    && e.prompt.stateWritten && e.prompt.questionWritten && !e.prompt.interruptedBefore && !e.prompt.interruptWins
  }

  /**
   An execute leaves only in an invocation that itself got a yes: with --yes, typed in
   this invocation, or with no terminal by the command itself, which a resume is only
   once it has simulated.
   */
  lemma ExecuteIsTyped(before: seq<Event>, w0: World, enter: Event, events: seq<Event>, w: World)
    requires Session(before, w0, enter, events, w) && Apply(w, Send).Some? && w.holder.value.pc.step.Execute?
    ensures
      || enter.opts.yes
      || (!enter.opts.tty && (enter.flow.ResumeRun? ==> exists k :: 0 <= k < |events| && Simulated(events[k])))
      || (enter.opts.tty && exists k :: 0 <= k < |events| && SaysYes(events[k]))
  {
    SessionTale(before, w0, enter, events, w);
    assert enter.Create? || enter.Open?;
    hide Session, Inv, Apply;
    var q := SendTells(w);
    var p := q.consent.value.prompt;
    var k :| 0 <= k < |events| && GivenBy(events[k], q.consent.value);
    if enter.opts.tty && !enter.opts.yes {
      assert SaysYes(events[k]);
    }
  }

  lemma SendTells(w: World) returns (q: Sent)
    requires Inv(w) && w.holder.Some? && Apply(w, Send).Some? && w.holder.value.pc.step.Execute?
    ensures SentBy(w.holder.value, q) && q.consent.Some?
    ensures var p := q.consent.value.prompt;
      || q.opts.yes
      || (!q.opts.tty && !q.plainResume)
      || (q.opts.tty && C.Affirmative(p.line) && p.stateWritten && p.questionWritten && !p.interruptedBefore &&
        !p.interruptWins)
  {
    SentIsWell(w, w.holder.value);
    q := Apply(w, Send).value.wire[|w.wire|];
    C.GrantedIff(q.consent.value.request, q.consent.value.prompt);
  }

  // ---------- What it reports ----------

  /** An outcome of the execute itself. */
  predicate OfExecute(said: E.Source) {
    match said
    case OfAnswer(in_) => in_.op.ExecuteTransfer?
    case OfPoll(command) => command.operation.ExecuteTransfer?
    case _ => false
  }

  /** The report comes last; of a run with an execute, a success is the execute's. */
  ghost predicate Honest(w: World) {
    w.holder.Some? ==>
      var inv := w.holder.value;
      && (inv.report.Some? ==> inv.pc.Ended? && (Zero(inv.report) && inv.mem.Find(Execute).Some? ==>
            OfExecute(inv.report.value)))
      && (inv.pc.Performed? && inv.pc.said.OfAnswer? ==> inv.pc.said.in_.op == OpOf(inv.pc.step))
  }

  lemma FollowUpHonest(w: World, inv: Invocation, poll: Poll, structural: Option<string>, o: SaveOutcome)
    requires Held(w, inv) && Honest(w) && OnFollowUp(w, inv, poll, structural, o).Some?
    ensures Honest(OnFollowUp(w, inv, poll, structural, o).value)
  {
    hide Inv, L.RecordRun, A.PollTarget, A.MoneyInput, E.Source.Class, OpOf, Zero, OfExecute;
    AboutTheStep(w, inv);
  }

  lemma AboutTheStep(w: World, inv: Invocation)
    requires Held(w, inv) && inv.pc.Following?
    ensures A.MoneyInput(inv.pc.a).op == OpOf(inv.pc.step)
  {
  }

  lemma ZeroIsRead(said: E.Source)
    requires said.Class().Exit() == 0
    ensures said.OfAnswer? || (said.OfPoll? && said.command.operation.ExecuteTransfer?)
  {
    E.SuccessIsRead(said);
  }

  lemma ReportingHonest(w: World, said: E.Source)
    requires w.holder.Some? && w.holder.value.pc.Ended?
    requires said.Class().Exit() == 0 ==> OfExecute(said) || w.holder.value.mem.Find(Execute).None?
    ensures Honest(Reporting(Some(w), said).value)
  {
  }

  lemma UnreportedHonest(w: World)
    requires w.holder.Some? ==> w.holder.value.report.None? && !w.holder.value.pc.Performed?
    ensures Honest(w)
  {
  }

  lemma PerformedSays(w: World, inv: Invocation)
    requires w.holder == Some(inv) && Honest(w) && inv.pc.Performed?
    ensures inv.report.None?
    ensures inv.pc.step.Execute? && inv.pc.said.Class().Exit() == 0 ==> OfExecute(inv.pc.said)
  {
    hide E.Source.Class;
    if inv.pc.said.Class().Exit() == 0 {
      ZeroIsRead(inv.pc.said);
    }
  }

  lemma ProceedHonest(w: World, inv: Invocation, plan: Option<Plan>, o: SaveOutcome)
    requires Held(w, inv) && Honest(w) && OnProceed(w, inv, plan, o).Some?
    ensures Honest(OnProceed(w, inv, plan, o).value)
  {
    hide Inv, Honest, L.SetPlanRun, E.Source.Class, GoesOn, StopsWith, CloseExecute, Reporting, OfExecute;
    PerformedSays(w, inv);
    var said := inv.pc.said;
    if inv.pc.step.Execute? || inv.mem.Find(Execute).None? {
      ReportingHonest(Hold(w, inv.(pc := Ended)), said);
    } else {
      StopsUnlessZero(said);
      CloseEnds(w, inv, o);
      match GoesOn(said, inv.pc.a)
      case Some(token) => UnreportedHonest(OnProceed(w, inv, plan, o).value);
      case None => ReportingHonest(CloseExecute(w, inv, o).value, StopsWith(said));
    }
  }

  lemma CloseEnds(w: World, inv: Invocation, o: SaveOutcome)
    requires inv.mem.Find(Execute).Some? && w.holder == Some(inv)
    ensures var out := CloseExecute(w, inv, o);
      out.Some? && out.value.holder.Some? && out.value.holder.value.pc.Ended? &&
        out.value.holder.value.report == inv.report
  {
    hide L.UnreachableRun;
  }

  lemma StopsUnlessZero(said: E.Source)
    ensures StopsWith(said).Class().Exit() != 0
  {
  }

  lemma HeldHonest(w: World, inv: Invocation, e: Event)
    requires Held(w, inv) && Honest(w) && ApplyHeld(w, inv, e).Some?
    ensures Honest(ApplyHeld(w, inv, e).value)
  {
    hide Inv, OnFollowUp, OnProceed;
    match e
    case FollowUp(poll, structural, o) => FollowUpHonest(w, inv, poll, structural, o);
    case Proceed(plan, o) => ProceedHonest(w, inv, plan, o);
    case _ =>
      HeldFrame(w, inv, e);
      if inv.pc.Ended? {
        EndedDoesNothing(w, inv, e);
      }
      hide ApplyHeld, AboutToSend;
  }

  lemma EndedDoesNothing(w: World, inv: Invocation, e: Event)
    requires inv.pc.Ended? && ApplyHeld(w, inv, e).Some?
    ensures e.Leave? || e.Crash?
    ensures ApplyHeld(w, inv, e).value.holder.None?
  {
  }

  lemma ApplyHonest(w: World, e: Event)
    requires Inv(w) && Honest(w) && Apply(w, e).Some?
    ensures Honest(Apply(w, e).value)
  {
    hide Inv, ApplyHeld;
    if !(e.Create? || e.Open? || e.DirFsync? || e.PowerCut?) {
      HeldHonest(w, w.holder.value, e);
    }
  }

  lemma {:induction false} PlayHonest(w: World, events: seq<Event>)
    requires Inv(w) && Honest(w) && Play(w, events).Some?
    ensures Honest(Play(w, events).value)
    decreases |events|
  {
    hide Apply, Inv, Honest;
    if events != [] {
      ApplyHonest(w, events[0]);
      ApplyKeeps(w, events[0]);
      PlayHonest(Apply(w, events[0]).value, events[1..]);
    }
  }

  /**
   Of a run that has an execute step, success is only ever reported for the execute:
   never for its simulate, whatever that answered.
   */
  lemma SuccessIsTheExecute(events: seq<Event>, w: World)
    requires Play(Start(), events) == Some(w) && w.holder.Some?
    requires w.holder.value.mem.Find(Execute).Some? && Zero(w.holder.value.report)
    ensures OfExecute(w.holder.value.report.value) && E.Succeeds(w.holder.value.report.value)
  {
    StartIsWell();
    PlayHonest(Start(), events);
    E.SuccessIsRead(w.holder.value.report.value);
  }

  /**
   What a verb takes its outcome from: the answer when it is not followed, the command
   when the loop stopped on it, and otherwise nothing is established, whatever the
   last command read.
   */
  lemma FollowUpSays(w: World, inv: Invocation, poll: Poll, structural: Option<string>, o: SaveOutcome)
    requires OnFollowUp(w, inv, poll, structural, o).Some?
    ensures var pc := OnFollowUp(w, inv, poll, structural, o).value.holder.value.pc;
      pc.Performed? ==>
        pc.said.Class() ==
          if A.PollTarget(inv.pc.a).None? || inv.opts.noWait then A.ClassifyAnswer(inv.pc.a)
          else if poll.stopped && poll.command.Some? then O.ClassifyCommand(poll.command.value) else O.Pending
  {
    hide A.PollTarget, A.MoneyInput, O.Classify, O.ClassifyCommand, L.RecordRun;
  }

  /** And that is the class the poll loop ended with, except that an unreadable poll establishes nothing. */
  lemma PollSaysWhatWatchEnded(w: Loops.Watched, s: Loops.Schedule, patience: nat, response: Response)
    requires Loops.Ended(w, s, patience) && !w.stop.StillPolling?
    ensures Poll(w.command, w.stop.Stopped?, response).Said().Class() ==
      if w.stop.Unreadable? then O.Pending else w.class_
  {
    hide O.Classify, O.ClassifyCommand;
  }

  /**
   How a verb goes on from its outcome. Only a simulate that succeeded and handed this
   invocation a token goes on, and with that very token; one that succeeded without
   asks for another simulate (exit code 4); everything else is reported as it is.
   */
  lemma ProceedSays(w: World, inv: Invocation, plan: Option<Plan>, o: SaveOutcome)
    requires w.holder == Some(inv) && OnProceed(w, inv, plan, o).Some?
    ensures var inv' := OnProceed(w, inv, plan, o).value.holder.value;
      var gated := inv.pc.step.Simulate? && inv.mem.Find(Execute).Some?;
      var zero := inv.pc.said.Class().Exit() == 0;
      && (!gated || !zero ==> inv'.pc.Ended? && inv'.report == Some(inv.pc.said))
      && (gated && zero && A.FreshPlanToken(inv.pc.a).None? ==>
            inv'.pc.Ended? && inv'.report.Some? && inv'.report.value.Class().Exit() == 4)
      && (gated && zero && A.FreshPlanToken(inv.pc.a).Some? ==>
            inv'.report == inv.report && (!inv'.pc.Ended? ==>
              inv'.pc == Asking(Some(PlanTokenDocument(A.FreshPlanToken(inv.pc.a).value)), true)))
  {
    hide L.SetPlanRun, CloseExecute, A.FreshPlanToken, O.Classify, O.ClassifyCommand;
    if inv.mem.Find(Execute).Some? {
      CloseEnds(w, inv, o);
    }
  }

  // ---------- And the record agrees ----------

  /** The step stands as this outcome leaves it. */
  ghost predicate StandsAs(r: Run, step: StepName, said: E.Source) {
    && r.Find(step).Some? && r.Find(step).value.outcome == Some(LedgerOutcome(said.Class().Exit()))
    && r.Find(step).value.state == if said.Class().Exit() in {5, 6} then State.Answered else Terminal
  }

  /**
   When a verb has its outcome, and whatever it then goes on to, every version of the
   record that a power cut could leave has the step as that outcome.
   */
  lemma OutcomeIsOnDisk(events: seq<Event>, w: World, plan: Option<Plan>, o: SaveOutcome, w': World)
    requires Play(Start(), events) == Some(w) && Apply(w, Proceed(plan, o)) == Some(w')
    ensures w.holder.Some? && w.holder.value.pc.Performed?
    ensures forall v :: v in w'.store.recoverable ==>
      v.Some? && StandsAs(v.value, w.holder.value.pc.step, w.holder.value.pc.said)
  {
    hide Inv, StandsAs, Play;
    Reached(events);
    var inv := w.holder.value;
    PerformedStands(w, inv);
    ProceedStands(w, inv, plan, o);
  }

  lemma PerformedStands(w: World, inv: Invocation)
    requires Held(w, inv) && inv.pc.Performed?
    ensures w.store.Durable(inv.mem) && StandsAs(inv.mem, inv.pc.step, inv.pc.said)
  {
    hide E.Source.Class;
  }

  lemma ProceedStands(w: World, inv: Invocation, plan: Option<Plan>, o: SaveOutcome)
    requires w.store.Durable(inv.mem) && OnProceed(w, inv, plan, o).Some? && StandsAs(inv.mem, inv.pc.step, inv.pc.said)
    ensures forall v :: v in OnProceed(w, inv, plan, o).value.store.recoverable ==>
      v.Some? && StandsAs(v.value, inv.pc.step, inv.pc.said)
  {
    hide GoesOn, StopsWith, E.Source.Class, StandsAs, Commit, OpOf;
    if inv.pc.step.Simulate? && inv.mem.Find(Execute).Some? {
      var close := L.UnreachableRun(inv.mem, Execute);
      ElsewhereStands(inv, L.UnreachableStep(inv.mem.Find(Execute).value));
      CommitStands(w, inv, close, o, Ended);
      match GoesOn(inv.pc.said, inv.pc.a)
      case Some(token) =>
        var next := L.SetPlanRun(inv.mem, Execute, plan, token);
        ElsewhereStands(inv, L.SetPlanStep(inv.mem.Find(Execute).value, plan, token));
        CommitStands(w, inv, next, o, Asking(Some(PlanTokenDocument(token)), true));
      case None =>
    }
    hide L.UnreachableRun, L.SetPlanRun;
  }

  lemma CommitStands(w: World, inv: Invocation, next: L.RunResult, o: SaveOutcome, pc: Pc)
    requires w.store.Durable(inv.mem) && inv.pc.Performed? && StandsAs(inv.mem, inv.pc.step, inv.pc.said)
    requires next.Success? ==> StandsAs(next.value, inv.pc.step, inv.pc.said)
    ensures forall v :: v in CommitRun(w, inv, next, o, pc).value.store.recoverable ==>
      v.Some? && StandsAs(v.value, inv.pc.step, inv.pc.said)
  {
    hide StandsAs;
  }

  /** A write to the execute leaves the simulate as it stands. */
  lemma ElsewhereStands(inv: Invocation, s: L.StepResult)
    requires inv.pc.Performed? && inv.pc.step.Simulate? && inv.mem.Find(Execute).Some?
    requires StandsAs(inv.mem, Simulate, inv.pc.said) && (s.Success? ==> s.value.name == Execute)
    ensures s.Success? ==> StandsAs(inv.mem.With(s.value), Simulate, inv.pc.said)
  {
    if s.Success? {
      FindAfterReplace(inv.mem.steps, s.value, Simulate);
    }
  }
}
