/**
 The other half of `ProtocolGate`: a refusal whose write did not last is reopened.
 Each case ends in a history in which an execute request leaves, and the two
 halves together say exactly when a decline and a closed gate are final.
 */
module ProtocolReopen {
  import opened Wrappers
  import opened DurableStore
  import opened Records
  import opened Protocol
  import opened ProtocolSafety
  import opened ProtocolSteps
  import opened ProtocolGate
  import L = Ledger
  import O = Outcomes
  import A = Api
  import E = Exit

  /** Some continuation sends an execute request. */
  ghost predicate MaySendExecute(w: World) {
    exists events: seq<Event> :: Play(w, events).Some? && !NoneSent(Play(w, events).value)
  }

  lemma Before(w: World, e: Event, w': World)
    requires Apply(w, e) == Some(w') && MaySendExecute(w')
    ensures MaySendExecute(w)
  {
    var events: seq<Event> :| Play(w', events).Some? && !NoneSent(Play(w', events).value);
    assert ([e] + events)[1..] == events;
    assert Play(w, [e] + events) == Play(w', events);
  }

  lemma SentNow(w: World)
    requires !NoneSent(w)
    ensures MaySendExecute(w)
  {
    assert Play(w, []) == Some(w);
  }

  /** What is shut may not, and that is all a refusal can promise. */
  lemma ShutNeverSends(w: World)
    requires Inv(w) && Shut(w)
    ensures !MaySendExecute(w)
  {
    forall events | Play(w, events).Some?
      ensures NoneSent(Play(w, events).value)
    {
      ShutForever(w, events);
    }
  }

  // ---------- An invocation with --yes runs through ----------

  ghost predicate Runnable(inv: Invocation, e: Step, body: Option<RequestBody>) {
    && inv.mem.Find(Execute) == Some(e)
    && !e.state.IsTerminal()
    && if body.None? then e.body.Some? else e.digest.None? && !body.value.NotUtf8?
  }

  lemma BegunSends(w: World, inv: Invocation)
    requires w.holder == Some(inv) && inv.pc.Begun? && inv.pc.step.Execute?
    requires inv.mem.Find(Execute).Some? && inv.mem.Find(Execute).value.body.Some?
    ensures MaySendExecute(w)
  {
    var w1 := OnMark(w, inv).value;
    var w2 := OnSend(w1, w1.holder.value).value;
    assert w2.wire[|w.wire|].step.Execute?;
    SentNow(w2);
    Before(w1, Send, w2);
    Before(w, Mark, w1);
  }

  lemma BeginsRunnable(m: Run, e: Step, body: Option<RequestBody>)
    requires m.Find(Execute) == Some(e) && !e.state.IsTerminal()
    requires if body.None? then e.body.Some? else e.digest.None? && !body.value.NotUtf8?
    ensures var next := L.BeginRun(m, Execute, body);
      next.Success? && next.value.Find(Execute).Some? && next.value.Find(Execute).value.body.Some?
  {
    FindAfterReplace(m.steps, L.BeginStep(e, body).value, Execute);
  }

  lemma BeforeBegin(w: World, inv: Invocation, w1: World)
    requires w.holder == Some(inv) && OnBegin(w, inv, Saved) == Some(w1) && MaySendExecute(w1)
    ensures MaySendExecute(w)
  {
    Before(w, Begin(Saved), w1);
  }

  /** A begin that is saved. */
  lemma BeginSaved(w: World, inv: Invocation, next: Run) returns (w1: World, inv': Invocation)
    requires inv.pc.Ready? && L.BeginRun(inv.mem, inv.pc.step, inv.pc.body) == Success(next)
    ensures inv' == inv.(mem := next, pc := Begun(inv.pc.step)) && w1.holder == Some(inv')
    ensures OnBegin(w, inv, Saved) == Some(w1)
  {
    inv' := inv.(mem := next, pc := Begun(inv.pc.step));
    w1 := w.(store := w.store.Save(next, Saved), holder := Some(inv'));
  }

  lemma ReadySends(w: World, inv: Invocation, e: Step)
    requires w.holder == Some(inv) && inv.pc.Ready? && inv.pc.step.Execute? && Runnable(inv, e, inv.pc.body)
    ensures MaySendExecute(w)
  {
    BeginsRunnable(inv.mem, e, inv.pc.body);
    var w1, inv' := BeginSaved(w, inv, L.BeginRun(inv.mem, Execute, inv.pc.body).value);
    BegunSends(w1, inv');
    BeforeBegin(w, inv, w1);
  }

  lemma AskingSends(w: World, inv: Invocation, e: Step)
    requires w.holder == Some(inv) && inv.pc.Asking? && inv.opts.yes && Runnable(inv, e, inv.pc.body)
    ensures MaySendExecute(w)
  {
    var w1 := OnAsk(w, inv, Saved).value;
    ReadySends(w1, w1.holder.value, e);
    Before(w, Ask(Saved), w1);
  }

  // ---------- A simulate that may be sent again ----------

  /** The server prices the transfer afresh; any token it issues will do. */
  const FRESH := A.Answer(O.SimulateTransfer, 201, "", false, None, None, None,
                          A.Body("", None, Some(A.Simulation(Some("fresh"), 0)), None))

  lemma FreshIsFresh()
    ensures A.IsMoneyAnswer(FRESH) && A.FreshPlanToken(FRESH) == Some("fresh")
    ensures A.PollTarget(FRESH).None? && A.ClassifyAnswer(FRESH) == O.Done
  {
  }

  lemma FreshGoesOn()
    ensures GoesOn(E.OfAnswer(A.MoneyInput(FRESH)), FRESH) == Some("fresh")
  {
    FreshIsFresh();
  }

  /** An execute step nothing has touched. */
  ghost predicate Untouched(r: Run) {
    && Both(r) && !r.Find(Execute).value.state.IsTerminal()
    && r.Find(Execute).value.digest.None?
  }

  lemma PerformedSends(w: World, inv: Invocation)
    requires w.holder == Some(inv) && inv.pc == Performed(Simulate, E.OfAnswer(A.MoneyInput(FRESH)), FRESH)
    requires inv.opts.yes && Untouched(inv.mem)
    ensures MaySendExecute(w)
  {
    var e := inv.mem.Find(Execute).value;
    var e' := L.SetPlanStep(e, None, "fresh").value;
    FindAfterReplace(inv.mem.steps, e', Execute);
    var next := inv.mem.With(e');
    assert L.SetPlanRun(inv.mem, Execute, None, "fresh") == Success(next);
    var inv' := inv.(mem := next, pc := Asking(Some(PlanTokenDocument("fresh")), true));
    var w1 := w.(store := w.store.Save(next, Saved), holder := Some(inv'));
    FreshGoesOn();
    assert OnProceed(w, inv, None, Saved) == Some(w1);
    AskingSends(w1, inv', e');
    Before(w, Proceed(None, Saved), w1);
  }

  lemma FollowingSends(w: World, inv: Invocation)
    requires w.holder == Some(inv) && inv.pc == Following(Simulate, FRESH) && inv.opts.yes && Untouched(inv.mem)
    ensures MaySendExecute(w)
  {
    FreshIsFresh();
    var poll := Poll(None, false, Response(0, ""));
    var w1 := OnFollowUp(w, inv, poll, None, Saved).value;
    PerformedSends(w1, w1.holder.value);
    Before(w, FollowUp(poll, None, Saved), w1);
  }

  lemma RecordedSends(w: World, inv: Invocation)
    requires w.holder == Some(inv) && inv.pc == Recorded(Simulate, FRESH) && inv.opts.yes && Untouched(inv.mem)
    ensures MaySendExecute(w)
  {
    var w1 := OnCloseOn202(w, inv, Saved).value;
    FollowingSends(w1, w1.holder.value);
    Before(w, CloseOn202(Saved), w1);
  }

  lemma RecordsSimulate(m: Run, resp: Option<Response>, oc: Option<LedgerOutcome>)
    requires Untouched(m)
    ensures Untouched(L.RecordRun(m, Simulate, resp, None, oc).value)
  {
    var s' := L.RecordStep(m.Find(Simulate).value, resp, None, oc);
    FindAfterReplace(m.steps, s', Simulate);
    FindAfterReplace(m.steps, s', Execute);
  }

  lemma FreshRecorded(w: World, inv: Invocation, next: Run)
    requires w.holder == Some(inv) && inv.pc == Pc.Answered(Simulate, FRESH)
    requires L.RecordRun(inv.mem, Simulate, Recordable(FRESH), None,
      LedgerOutcomeOf(A.ClassifyAnswer(FRESH))) == Success(next)
    ensures Apply(w, RecordAnswer(None, Saved)) ==
      Some(w.(store := w.store.Save(next, Saved), holder := Some(inv.(mem := next, pc := Recorded(Simulate, FRESH)))))
  {
  }

  lemma AnsweredSends(w: World, inv: Invocation)
    requires w.holder == Some(inv) && inv.pc == Pc.Answered(Simulate, FRESH) && inv.opts.yes && Untouched(inv.mem)
    ensures MaySendExecute(w)
  {
    var oc := LedgerOutcomeOf(A.ClassifyAnswer(FRESH));
    var next := L.RecordRun(inv.mem, Simulate, Recordable(FRESH), None, oc).value;
    RecordsSimulate(inv.mem, Recordable(FRESH), oc);
    FreshRecorded(w, inv, next);
    var inv' := inv.(mem := next, pc := Recorded(Simulate, FRESH));
    var w1 := w.(store := w.store.Save(next, Saved), holder := Some(inv'));
    RecordedSends(w1, inv');
    Before(w, RecordAnswer(None, Saved), w1);
  }

  lemma SimulateSentSends(w: World, inv: Invocation)
    requires w.holder == Some(inv) && inv.pc == Sending(Simulate, 1) && inv.opts.yes && Untouched(inv.mem)
    ensures MaySendExecute(w)
  {
    FreshIsFresh();
    var w1 := OnAnswer(w, inv, FRESH).value;
    AnsweredSends(w1, w1.holder.value);
    Before(w, GetAnswer(FRESH), w1);
  }

  lemma SimulateBegunSends(w: World, inv: Invocation)
    requires w.holder == Some(inv) && inv.pc == Begun(Simulate) && inv.opts.yes && Untouched(inv.mem)
    requires inv.mem.Find(Simulate).value.body.Some?
    ensures MaySendExecute(w)
  {
    var w1 := OnMark(w, inv).value;
    var w2 := OnSend(w1, w1.holder.value).value;
    SimulateSentSends(w2, w2.holder.value);
    Before(w1, Send, w2);
    Before(w, Mark, w1);
  }

  lemma BeginsSimulate(m: Run)
    requires Untouched(m) && !m.Find(Simulate).value.state.IsTerminal() && m.Find(Simulate).value.body.Some?
    ensures var next := L.BeginRun(m, Simulate, None);
      next.Success? && Untouched(next.value) && next.value.Find(Simulate).value.body.Some?
  {
    var s' := L.BeginStep(m.Find(Simulate).value, None).value;
    FindAfterReplace(m.steps, s', Simulate);
    FindAfterReplace(m.steps, s', Execute);
  }

  lemma SimulateAgainSends(w: World, inv: Invocation)
    requires w.holder == Some(inv) && inv.pc == Ready(Simulate, None) && inv.opts.yes && Untouched(inv.mem)
    requires !inv.mem.Find(Simulate).value.state.IsTerminal() && inv.mem.Find(Simulate).value.body.Some?
    ensures MaySendExecute(w)
  {
    BeginsSimulate(inv.mem);
    CreatedSends(w, inv, None);
  }

  // ---------- Back from a power cut ----------

  const WITH_YES := Options(true, false, false)

  /** The power fails, this version comes back, and the run is resumed with --yes. */
  lemma ComesBack(w: World, r: Run)
    requires Some(r) in w.store.recoverable
    requires var inv := Invocation(ResumeRun, WITH_YES, Resuming(r), r, false, false, false, None, None);
      MaySendExecute(w.(store := w.store.PowerCut(Some(r)), holder := Some(inv)))
    ensures MaySendExecute(w)
  {
    var w1 := w.(store := w.store.PowerCut(Some(r)), holder := None);
    var w2 := OnOpen(w1, ResumeRun, WITH_YES).value;
    var w3 := OnDecide(w2, w2.holder.value).value;
    Before(w2, Decide, w3);
    Before(w1, Open(ResumeRun, WITH_YES), w2);
    Before(w, PowerCut(Some(r)), w1);
  }

  ghost function Resumed(r: Run): Invocation {
    Invocation(ResumeRun, WITH_YES, Resuming(r), r, false, false, false, None, None)
  }

  /** A resume that asks about the execute has something to send. */
  lemma AskingReopens(w: World, r: Run)
    requires Good(w, r) && Some(r) in w.store.recoverable && Resuming(r).Asking?
    ensures MaySendExecute(w)
  {
    ResumableIsFound(w, r);
    ResumableIn(r.steps, true);
    AskingSends(w.(store := w.store.PowerCut(Some(r)), holder := Some(Resumed(r))), Resumed(r), r.Find(Execute).value);
    ComesBack(w, r);
  }

  lemma SimulateUntouched(w: World, r: Run)
    requires Good(w, r) && Resuming(r).Ready? && !Barred(r)
    ensures Resuming(r) == Ready(Simulate, None) && Untouched(r)
    ensures !r.Find(Simulate).value.state.IsTerminal() && r.Find(Simulate).value.body.Some?
  {
    ResumableIsFound(w, r);
    ResumableIn(r.steps, true);
  }

  /** A resume that simulates again may be given a fresh plan. */
  lemma SimulateReopens(w: World, r: Run)
    requires Good(w, r) && Some(r) in w.store.recoverable && Resuming(r).Ready? && !Barred(r)
    ensures MaySendExecute(w)
  {
    SimulateUntouched(w, r);
    SimulateAgainSends(w.(store := w.store.PowerCut(Some(r)), holder := Some(Resumed(r))), Resumed(r));
    ComesBack(w, r);
  }

  // ---------- When nothing more can be executed ----------

  /** Nobody is at work on the run. */
  ghost predicate Idle(w: World) {
    w.minted.Some? && (w.holder.Some? ==> w.holder.value.pc.Ended?)
  }

  /**
   With nobody at work and no execute sent, whether one can ever be sent is
   decided by the record: exactly when some recoverable version is not dead.
   */
  lemma MaySendIff(w: World)
    requires Inv(w) && Idle(w) && NoneSent(w)
    ensures MaySendExecute(w) <==> exists r :: Some(r) in w.store.recoverable && !Dead(r)
  {
    if r :| Some(r) in w.store.recoverable && !Dead(r) {
      assert Good(w, r);
      if Resuming(r).Asking? {
        AskingReopens(w, r);
      } else {
        SimulateReopens(w, r);
      }
    } else {
      ShutNeverSends(w);
    }
  }

  /** A refusal that is the only version left is final. */
  lemma RefusedIsFinal(w: World, r: Run)
    requires Inv(w) && w.minted.Some? && w.store.recoverable == {Some(r)} && RefusedExecute(r)
    requires w.holder.Some? ==> w.holder.value.mem == r
    ensures !MaySendExecute(w)
  {
    NeverBegunNeverSent(w, r);
    ShutNeverSends(w);
  }

  /** Writing a refusal leaves a dead version exactly when all of them are. */
  lemma RefusalVersions(w: World, inv: Invocation, r: Run, o: SaveOutcome)
    requires RefusedExecute(r)
    ensures var w' := CommitRun(w, inv, Success(r), o, Ended).value;
      (forall v :: Some(v) in w'.store.recoverable ==> Dead(v)) <==>
        o.Saved? || forall v :: Some(v) in w.store.recoverable ==> Dead(v)
  {
    var w' := CommitRun(w, inv, Success(r), o, Ended).value;
    assert Dead(r);
    assert forall v :: Some(v) in w'.store.recoverable <==>
      (v == r && !o.NotWritten?) || (!o.Saved? && Some(v) in w.store.recoverable);
  }

  lemma RefusalIdle(w: World, inv: Invocation, r: Run, o: SaveOutcome)
    requires Held(w, inv) && !inv.pc.Ended?
    requires inv.mem.Find(Execute).Some? && !inv.mem.Find(Execute).value.state.MayHaveSent()
    ensures var w' := CommitRun(w, inv, Success(r), o, Ended).value; Idle(w') && NoneSent(w')
  {
    MemIsGood(w, inv);
    NeverBegunNeverSent(w, inv.mem);
  }

  /** What can still be executed after a refusal is what its write left behind. */
  lemma RefusalIsFinalIff(w: World, inv: Invocation, r: Run, o: SaveOutcome)
    requires Held(w, inv) && !inv.pc.Ended? && RefusedExecute(r)
    requires inv.mem.Find(Execute).Some? && !inv.mem.Find(Execute).value.state.MayHaveSent()
    requires Inv(CommitRun(w, inv, Success(r), o, Ended).value)
    ensures !MaySendExecute(CommitRun(w, inv, Success(r), o, Ended).value) <==>
      o.Saved? || forall v :: Some(v) in w.store.recoverable ==> Dead(v)
  {
    RefusalIdle(w, inv, r, o);
    RefusalVersions(w, inv, r, o);
    MaySendIff(CommitRun(w, inv, Success(r), o, Ended).value);
  }

  // ---------- Declining ----------

  /** The user said no: at the prompt, or with `runs decline`. */
  ghost predicate Declines(inv: Invocation, e: Event) {
    || (inv.pc.Maintaining? && e.DeclineRun?)
    || (inv.pc.Prompted? && e.ReadLine? && e.prompt.stateWritten
        && Evidence(RequestFor(inv, inv.pc.selfConsent), e.prompt).Verdict().Declined?)
  }

  lemma DeclineCommits(w: World, inv: Invocation, e: Event, r: Run)
    requires w.holder == Some(inv) && Declines(inv, e) && L.DeclineRun(inv.mem, Execute) == Success(Some(r))
    ensures Apply(w, e) == CommitRun(w, inv, Success(r), e.o, Ended)
  {
  }

  lemma DeclineWritten(w: World, inv: Invocation, o: SaveOutcome, r: Run)
    requires Held(w, inv) && !inv.pc.Ended? && L.DeclineRun(inv.mem, Execute) == Success(Some(r))
    ensures Inv(CommitRun(w, inv, Success(r), o, Ended).value) && RefusedExecute(r)
    ensures inv.mem.Find(Execute).Some? && !inv.mem.Find(Execute).value.state.MayHaveSent()
  {
    DeclineRunKeeps(w, inv, o);
    DeclineBars(inv.mem);
  }

  /**
   A decline that is accepted is final exactly when its write was durable, or no
   version it was written over could have been resumed into an execute. After a
   failed write the refusal may be on disk, and a power cut can take it back.
   */
  lemma DeclineIsFinalIff(w: World, inv: Invocation, e: Event, r: Run)
    requires Held(w, inv) && Declines(inv, e) && L.DeclineRun(inv.mem, Execute) == Success(Some(r))
    ensures Apply(w, e).Some?
    ensures !MaySendExecute(Apply(w, e).value) <==>
      e.o.Saved? || forall v :: Some(v) in w.store.recoverable ==> Dead(v)
  {
    DeclineCommits(w, inv, e, r);
    DeclineWritten(w, inv, e.o, r);
    RefusalIsFinalIff(w, inv, r, e.o);
  }

  // ---------- The broadcast gate ----------

  /** A simulate of a two-step run ended without a token for this invocation. */
  ghost predicate Stops(inv: Invocation) {
    inv.pc.Performed? && inv.pc.step.Simulate? && Both(inv.mem) && GoesOn(inv.pc.said, inv.pc.a).None?
  }

  /** And its execute is there to be closed. */
  ghost predicate Closes(inv: Invocation) {
    Stops(inv) && inv.mem.Find(Execute).value.state.NotStarted?
  }

  /** Over a clean execute, a version is dead exactly when its simulate cannot be sent again. */
  lemma CleanDeadIff(w: World, m: Run)
    requires Good(w, m) && Both(m) && Clean(m) && m.Find(Execute).value.state.NotStarted?
    ensures Dead(m) <==> !m.Find(Simulate).value.Unresolved()
  {
    ResumableIn(m.steps, true);
    if Resumable(m.steps).Some? {
      ResumableIsFound(w, m);
    }
    if m.Find(Simulate).value.Unresolved() {
      UnresolvedIsResumable(m.steps, true, m.Find(Simulate).value);
    }
  }

  lemma {:induction false} UnresolvedIsResumable(steps: seq<Step>, first: bool, s: Step)
    requires s in steps && s.Unresolved()
    ensures Resumable(steps, first).Some?
  {
    if steps[0] != s {
      UnresolvedIsResumable(steps[1..], false, s);
    }
  }

  /** What the simulate's class says about the record it left. */
  lemma SimulateLeft(w: World, inv: Invocation)
    requires Held(w, inv) && inv.pc.Performed? && inv.pc.step.Simulate?
    ensures w.store.Durable(inv.mem) && Clean(inv.mem) && inv.mem.Find(Simulate).Some?
    ensures inv.mem.Find(Simulate).value.Unresolved() <==> LedgerOutcome(inv.pc.said.Class().Exit()).Resumable()
  {
  }

  /** Closing writes the refusal; what is reported does not matter to the record. */
  lemma ProceedCloses(w: World, inv: Invocation, plan: Option<Plan>, o: SaveOutcome, r: Run)
    requires Closes(inv) && L.UnreachableRun(inv.mem, Execute) == Success(r)
    ensures OnProceed(w, inv, plan, o) == Reporting(CommitRun(w, inv, Success(r), o, Ended), StopsWith(inv.pc.said))
  {
  }

  /** The report does not change what can be sent. */
  lemma ReportedMaySend(w: World, said: E.Source)
    requires Inv(w) && Idle(w) && NoneSent(w)
    ensures MaySendExecute(Reporting(Some(w), said).value) <==> MaySendExecute(w)
  {
    ReportingKeeps(w, said);
    MaySendIff(w);
    MaySendIff(Reporting(Some(w), said).value);
  }

  /** The versions a close is written over are dead exactly when its simulate cannot be sent again. */
  lemma GateDeadIff(w: World, inv: Invocation)
    requires Held(w, inv) && Closes(inv)
    ensures (forall v :: Some(v) in w.store.recoverable ==> Dead(v)) <==>
      !LedgerOutcome(inv.pc.said.Class().Exit()).Resumable()
  {
    SimulateLeft(w, inv);
    MemIsGood(w, inv);
    CleanDeadIff(w, inv.mem);
  }

  /** The close's write, before the outcome is reported. */
  lemma CloseIsFinalIff(w: World, inv: Invocation, o: SaveOutcome, r: Run)
    requires Held(w, inv) && Closes(inv) && L.UnreachableRun(inv.mem, Execute) == Success(r)
    ensures var w' := CommitRun(w, inv, Success(r), o, Ended).value;
      && Inv(w') && Idle(w') && NoneSent(w')
      && (!MaySendExecute(w') <==> o.Saved? || !LedgerOutcome(inv.pc.said.Class().Exit()).Resumable())
  {
    UnreachableBars(inv.mem);
    UnreachableCommitKeeps(w, inv, o);
    GateDeadIff(w, inv);
    RefusalIdle(w, inv, r, o);
    RefusalIsFinalIff(w, inv, r, o);
  }

  lemma CloseGateIff(w: World, inv: Invocation, plan: Option<Plan>, o: SaveOutcome)
    requires Held(w, inv) && Closes(inv)
    ensures OnProceed(w, inv, plan, o).Some?
    ensures !MaySendExecute(OnProceed(w, inv, plan, o).value) <==>
      o.Saved? || !LedgerOutcome(inv.pc.said.Class().Exit()).Resumable()
  {
    var r := L.UnreachableRun(inv.mem, Execute).value;
    ProceedCloses(w, inv, plan, o, r);
    CloseIsFinalIff(w, inv, o, r);
    ReportedMaySend(CommitRun(w, inv, Success(r), o, Ended).value, StopsWith(inv.pc.said));
  }

  /**
   Over an execute already refused, however the simulate ended, a token in hand
   included, nothing is written and nothing reopens.
   */
  lemma RefusedGateIsFinal(w: World, inv: Invocation, plan: Option<Plan>, o: SaveOutcome)
    requires Held(w, inv) && inv.pc.Performed? && inv.pc.step.Simulate? && RefusedExecute(inv.mem)
    ensures OnProceed(w, inv, plan, o).Some?
    ensures !MaySendExecute(OnProceed(w, inv, plan, o).value)
  {
    ProceedStops(w, inv, plan, o);
    ProceedKeeps(w, inv, plan, o);
    SimulateLeft(w, inv);
    RefusedIsFinal(OnProceed(w, inv, plan, o).value, inv.mem);
  }

  lemma CleanIsOpenOrRefused(w: World, inv: Invocation)
    requires Held(w, inv) && Stops(inv)
    ensures inv.mem.Find(Execute).value.state.NotStarted? || RefusedExecute(inv.mem)
  {
    SimulateLeft(w, inv);
  }

  /**
   The gate: a simulate that ended without a token for this invocation closes the
   execute for good, in this and every later resume, unless the close was not
   saved, the execute was open, and the simulate itself can be sent again.
   */
  lemma GateIsFinalIff(w: World, inv: Invocation, plan: Option<Plan>, o: SaveOutcome)
    requires Held(w, inv) && Stops(inv)
    ensures OnProceed(w, inv, plan, o).Some?
    ensures !MaySendExecute(OnProceed(w, inv, plan, o).value) <==>
      o.Saved? || RefusedExecute(inv.mem) || !LedgerOutcome(inv.pc.said.Class().Exit()).Resumable()
  {
    CleanIsOpenOrRefused(w, inv);
    if RefusedExecute(inv.mem) {
      RefusedGateIsFinal(w, inv, plan, o);
    } else {
      CloseGateIff(w, inv, plan, o);
    }
  }

  /** A broadcast's simulate was answered 202 and recorded. */
  ghost predicate Accepted(inv: Invocation) {
    inv.pc.Recorded? && inv.pc.step.Simulate? && inv.pc.a.status == 202 && inv.flow.CreateBroadcast? && Both(inv.mem)
  }

  lemma AcceptedIsPending(a: A.Answer)
    requires A.IsMoneyAnswer(a) && a.status == 202
    ensures A.ClassifyAnswer(a) == O.Pending
  {
  }

  lemma AcceptedLeft(w: World, inv: Invocation)
    requires Held(w, inv) && Accepted(inv)
    ensures w.store.Durable(inv.mem) && Clean(inv.mem) && inv.mem.Find(Simulate).value.Unresolved()
    ensures inv.mem.Find(Execute).value.state.NotStarted? || RefusedExecute(inv.mem)
  {
    AcceptedIsPending(inv.pc.a);
  }

  /** The close of a 202 whose save failed: what is left is the version before it. */
  lemma UnsavedCloseIff(w: World, inv: Invocation, o: SaveOutcome, r: Run)
    requires Held(w, inv) && Accepted(inv) && !o.Saved? && L.UnreachableRun(inv.mem, Execute) == Success(r)
    ensures !MaySendExecute(CommitRun(w, inv, Success(r), o, Ended).value) <==> RefusedExecute(inv.mem)
  {
    UnreachableBars(inv.mem);
    UnreachableCommitKeeps(w, inv, o);
    AcceptedDeadIff(w, inv);
    RefusalIsFinalIff(w, inv, r, o);
  }

  lemma AcceptedDeadIff(w: World, inv: Invocation)
    requires Held(w, inv) && Accepted(inv)
    ensures inv.mem.Find(Execute).Some? && !inv.mem.Find(Execute).value.state.MayHaveSent()
    ensures (forall v :: Some(v) in w.store.recoverable ==> Dead(v)) <==> RefusedExecute(inv.mem)
  {
    AcceptedLeft(w, inv);
    MemIsGood(w, inv);
    if !RefusedExecute(inv.mem) {
      CleanDeadIff(w, inv.mem);
    }
  }

  /**
   A 202 closes the execute before it is followed: final exactly when that write was
   saved, or it was closed already.
   */
  lemma CloseOn202IsFinalIff(w: World, inv: Invocation, o: SaveOutcome)
    requires Held(w, inv) && Accepted(inv)
    ensures OnCloseOn202(w, inv, o).Some?
    ensures !MaySendExecute(OnCloseOn202(w, inv, o).value) <==> o.Saved? || RefusedExecute(inv.mem)
  {
    AcceptedLeft(w, inv);
    var r := L.UnreachableRun(inv.mem, Execute).value;
    if o.Saved? {
      UnreachableBars(inv.mem);
      CloseOn202Keeps(w, inv, o);
      RefusedIsFinal(OnCloseOn202(w, inv, o).value, r);
    } else {
      UnsavedCloseIff(w, inv, o, r);
    }
  }

  // ---------- A whole run ----------

  function NewStep(name: StepName, key: string, body: Option<RequestBody>): Step {
    Step(name, key, None, body, None, None, NotStarted, 0, None, None)
  }

  const BODY := RequestBody.Text("{}")

  /** `transfers create --broadcast` writes its run. */
  lemma BroadcastCreated(id: string) returns (r: Run, w: World, inv: Invocation)
    requires |id| <= 240 && forall i :: 0 <= i < |id| ==> ' ' <= id[i] <= '~'
    ensures Apply(Start(), Create(CreateBroadcast, WITH_YES, r, Saved)) == Some(w)
    ensures w.holder == Some(inv) && inv.flow.CreateBroadcast? && inv.opts == WITH_YES
    ensures inv.pc == Ready(Simulate, Some(BODY))
    ensures |inv.mem.steps| == 2 && inv.mem.steps[1] == NewStep(Execute, StepKey(id, Execute), None)
    ensures inv.mem.steps[0] == L.Digested(NewStep(Simulate, StepKey(id, Simulate), Some(BODY)))
  {
    var sim, exe := NewStep(Simulate, StepKey(id, Simulate), Some(BODY)), NewStep(Execute, StepKey(id, Execute), None);
    r := Run(id, 0, "p", "e", [sim, exe]);
    StepKeyInjective(id, Simulate, id, Execute);
    NewTwoStep(r, sim, exe);
    var run := r.(steps := [L.Digested(sim), exe]);
    inv := Invocation(CreateBroadcast, WITH_YES, Ready(Simulate, Some(BODY)), run, false, false, false, None, None);
    w := Start().(minted := Some(run), store := Start().store.Save(run, Saved), holder := Some(inv));
    assert OnCreate(Start(), CreateBroadcast, WITH_YES, r, Saved) == Some(w);
  }

  /** A broadcast, from nothing to an execute on the wire. */
  lemma BroadcastRuns(id: string)
    requires |id| <= 240 && forall i :: 0 <= i < |id| ==> ' ' <= id[i] <= '~'
    ensures MaySendExecute(Start())
  {
    var r, w, inv := BroadcastCreated(id);
    FreshBegins(inv.mem, Some(BODY));
    CreatedSends(w, inv, Some(BODY));
    Before(Start(), Create(CreateBroadcast, WITH_YES, r, Saved), w);
  }

  lemma CreatedSends(w: World, inv: Invocation, body: Option<RequestBody>)
    requires w.holder == Some(inv) && inv.pc == Ready(Simulate, body) && inv.opts.yes
    requires var next := L.BeginRun(inv.mem, Simulate, body);
      next.Success? && Untouched(next.value) && next.value.Find(Simulate).value.body.Some?
    ensures MaySendExecute(w)
  {
    var w1, inv' := BeginSaved(w, inv, L.BeginRun(inv.mem, Simulate, body).value);
    SimulateBegunSends(w1, inv');
    BeforeBegin(w, inv, w1);
  }

  lemma NewTwoStep(r: Run, sim: Step, exe: Step)
    requires r.steps == [sim, exe]
    requires ValidKey(sim.key) && ValidKey(exe.key) && sim.key != exe.key
    requires sim == NewStep(Simulate, sim.key, Some(BODY)) && exe == NewStep(Execute, exe.key, None)
    ensures NewRun(CreateBroadcast, r) && L.ValidateNew(r) == Success(r.(steps := [L.Digested(sim), exe]))
  {
    assert L.WithDigests([sim, exe]) == [L.Digested(sim), exe];
  }

  lemma FreshBegins(m: Run, body: Option<RequestBody>)
    requires |m.steps| == 2 && body == Some(BODY)
    requires m.steps[0] == L.Digested(NewStep(Simulate, m.steps[0].key, body))
    requires m.steps[1] == NewStep(Execute, m.steps[1].key, None)
    ensures var next := L.BeginRun(m, Simulate, body);
      next.Success? && Untouched(next.value) && next.value.Find(Simulate).value.body.Some?
  {
    var s' := L.BeginStep(m.steps[0], body).value;
    FindAfterReplace(m.steps, s', Simulate);
    FindAfterReplace(m.steps, s', Execute);
    assert m.Find(Execute) == FindIn(m.steps[1..], Execute);
  }
}
