/**
 Histories from the start that reach each place where a refusal can be lost: the
 theorems of `ProtocolReopen` are about worlds that really come about.
 */
module ProtocolWitnesses {
  import opened Wrappers
  import opened DurableStore
  import opened Records
  import opened Protocol
  import opened ProtocolSafety
  import opened ProtocolSteps
  import opened ProtocolGate
  import opened ProtocolReopen
  import L = Ledger
  import O = Outcomes
  import A = Api
  import C = Consent
  import E = Exit

  ghost predicate Reachable(w: World) {
    exists events: seq<Event> :: Play(Start(), events) == Some(w)
  }

  lemma {:induction false} PlaySnoc(w: World, events: seq<Event>, e: Event)
    requires Play(w, events).Some?
    ensures Play(w, events + [e]) == Apply(Play(w, events).value, e)
    decreases |events|
  {
    if events == [] {
      assert events + [e] == [e] && [e][1..] == [];
    } else {
      assert (events + [e])[1..] == events[1..] + [e];
      PlaySnoc(Apply(w, events[0]).value, events[1..], e);
    }
  }

  lemma ReachedNext(w: World, e: Event, w': World)
    requires Reachable(w) && Apply(w, e) == Some(w')
    ensures Reachable(w')
  {
    var events: seq<Event> :| Play(Start(), events) == Some(w);
    PlaySnoc(Start(), events, e);
  }

  lemma ReachableIsWell(w: World)
    requires Reachable(w)
    ensures Inv(w)
  {
    var events: seq<Event> :| Play(Start(), events) == Some(w);
    PlayKeeps(Start(), events);
  }

  // ---------- A broadcast whose simulate is answered ----------

  /** A broadcast under way, its execute still untouched. */
  ghost predicate Underway(w: World, inv: Invocation) {
    && Reachable(w) && w.holder == Some(inv) && inv.flow.CreateBroadcast? && inv.opts == WITH_YES
    && TwoStep(inv.mem) && inv.mem.Find(Execute).value.state.NotStarted?
    && inv.mem.Find(Simulate).value.body.Some?
  }

  ghost predicate TwoStep(r: Run) {
    Both(r) && |r.steps| == 2 && r.steps[0].name.Simulate? && r.steps[1].name.Execute?
  }

  lemma Created(id: string) returns (w: World, inv: Invocation)
    requires |id| <= 240 && forall i :: 0 <= i < |id| ==> ' ' <= id[i] <= '~'
    ensures Underway(w, inv) && inv.pc == Ready(Simulate, Some(BODY))
    ensures inv.mem.Find(Simulate).value.state.NotStarted?
    ensures inv.mem.Find(Simulate).value.digest == Some(Digest(BODY))
  {
    var r;
    r, w, inv := BroadcastCreated(id);
    assert inv.mem.Find(Execute) == FindIn(inv.mem.steps[1..], Execute);
    assert Play(Start(), []) == Some(Start());
    ReachedNext(Start(), Event.Create(CreateBroadcast, WITH_YES, r, Saved), w);
  }

  lemma SimulateBegins(m: Run, body: Option<RequestBody>)
    requires TwoStep(m) && m.Find(Execute).value.state.NotStarted? && body == Some(BODY)
    requires var s := m.Find(Simulate).value; s.state.NotStarted? && s.digest == Some(Digest(BODY))
    ensures var next := L.BeginRun(m, Simulate, body);
      next.Success? && TwoStep(next.value) && next.value.Find(Execute).value.state.NotStarted? &&
        next.value.Find(Simulate).value.body == body
  {
    var s' := L.BeginStep(m.Find(Simulate).value, body).value;
    FindAfterReplace(m.steps, s', Simulate);
    FindAfterReplace(m.steps, s', Execute);
  }

  // One event at a time.

  lemma AfterBegin(w: World, inv: Invocation, w': World)
    requires Reachable(w) && w.holder == Some(inv) && OnBegin(w, inv, Saved) == Some(w')
    ensures Reachable(w')
  {
    hide OnBegin;
    ReachedNext(w, Begin(Saved), w');
  }

  lemma AfterRecord(w: World, inv: Invocation, w': World)
    requires Reachable(w) && w.holder == Some(inv) && OnRecord(w, inv, None, Saved) == Some(w')
    ensures Reachable(w')
  {
    hide OnRecord;
    ReachedNext(w, RecordAnswer(None, Saved), w');
  }

  lemma AfterProceed(w: World, inv: Invocation, w': World)
    requires Reachable(w) && w.holder == Some(inv) && OnProceed(w, inv, None, Saved) == Some(w')
    ensures Reachable(w')
  {
    hide OnProceed;
    ReachedNext(w, Proceed(None, Saved), w');
  }

  lemma AfterFollowUp(w: World, inv: Invocation, poll: Poll, w': World)
    requires Reachable(w) && w.holder == Some(inv) && OnFollowUp(w, inv, poll, None, Saved) == Some(w')
    ensures Reachable(w')
  {
    hide OnFollowUp;
    ReachedNext(w, FollowUp(poll, None, Saved), w');
  }

  lemma AfterSend(w: World, inv: Invocation, w': World)
    requires Reachable(w) && w.holder == Some(inv) && OnSend(w, inv) == Some(w')
    ensures Reachable(w')
  {
    hide OnSend;
    ReachedNext(w, Send, w');
  }

  lemma SimulateBegun(id: string) returns (w: World, inv: Invocation)
    requires |id| <= 240 && forall i :: 0 <= i < |id| ==> ' ' <= id[i] <= '~'
    ensures Underway(w, inv) && inv.pc == Begun(Simulate)
  {
    var w0, inv0 := Created(id);
    var body := inv0.pc.body;
    SimulateBegins(inv0.mem, body);
    w, inv := BeginSaved(w0, inv0, L.BeginRun(inv0.mem, Simulate, body).value);
    AfterBegin(w0, inv0, w);
  }

  lemma SimulateSent(id: string) returns (w: World, inv: Invocation)
    requires |id| <= 240 && forall i :: 0 <= i < |id| ==> ' ' <= id[i] <= '~'
    ensures Underway(w, inv) && inv.pc == Sending(Simulate, 1)
  {
    var w0, inv0 := SimulateBegun(id);
    var inv1 := inv0.(flag := true, pc := Sending(Simulate, 0));
    ReachedNext(w0, Mark, Hold(w0, inv1));
    w, inv := OneSent(Hold(w0, inv1), inv1);
  }

  lemma OneSent(w0: World, inv0: Invocation) returns (w: World, inv: Invocation)
    requires Reachable(w0) && w0.holder == Some(inv0) && inv0.pc == Sending(Simulate, 0)
    requires inv0.mem.Find(Simulate).Some? && inv0.mem.Find(Simulate).value.body.Some?
    ensures inv == inv0.(left := true, pc := Sending(Simulate, 1)) && w.holder == Some(inv) && Reachable(w)
  {
    w := OnSend(w0, inv0).value;
    inv := w.holder.value;
    AfterSend(w0, inv0, w);
  }

  /** Any answer at all may come. */
  lemma SimulateAnswered(id: string, a: A.Answer) returns (w: World, inv: Invocation)
    requires |id| <= 240 && forall i :: 0 <= i < |id| ==> ' ' <= id[i] <= '~'
    requires A.IsMoneyAnswer(a) && a.op == O.SimulateTransfer
    ensures Underway(w, inv) && inv.pc == Pc.Answered(Simulate, a)
  {
    var w0, inv0 := SimulateSent(id);
    w := OnAnswer(w0, inv0, a).value;
    inv := w.holder.value;
    ReachedNext(w0, GetAnswer(a), w);
  }

  lemma RecordsOnly(m: Run, resp: Option<Response>, oc: Option<LedgerOutcome>)
    requires TwoStep(m) && m.Find(Execute).value.state.NotStarted?
    ensures var r := L.RecordRun(m, Simulate, resp, None, oc).value;
      TwoStep(r) && r.Find(Execute) == m.Find(Execute) && r.Find(Simulate).value.body == m.Find(Simulate).value.body
  {
    var s' := L.RecordStep(m.Find(Simulate).value, resp, None, oc);
    L.RecordKeepsRequest(m.Find(Simulate).value, resp, None, oc);
    hide L.RecordStep;
    FindAfterReplace(m.steps, s', Simulate);
    FindAfterReplace(m.steps, s', Execute);
  }

  /** And be recorded. */
  lemma SimulateRecorded(id: string, a: A.Answer) returns (w: World, inv: Invocation)
    requires |id| <= 240 && forall i :: 0 <= i < |id| ==> ' ' <= id[i] <= '~'
    requires A.IsMoneyAnswer(a) && a.op == O.SimulateTransfer
    ensures Underway(w, inv) && inv.pc == Recorded(Simulate, a)
  {
    var w0, inv0 := SimulateAnswered(id, a);
    var c := LedgerOutcomeOf(A.ClassifyAnswer(a));
    var next := L.RecordRun(inv0.mem, Simulate, Recordable(a), None, c).value;
    RecordsOnly(inv0.mem, Recordable(a), c);
    w, inv := RecordSaved(w0, inv0, a, next);
  }

  lemma RecordSaved(w0: World, inv0: Invocation, a: A.Answer, next: Run) returns (w: World, inv: Invocation)
    requires Reachable(w0) && w0.holder == Some(inv0) && inv0.pc == Pc.Answered(Simulate, a)
    requires L.RecordRun(inv0.mem, Simulate, Recordable(a), None, LedgerOutcomeOf(A.ClassifyAnswer(a))) == Success(next)
    ensures inv == inv0.(mem := next, pc := Recorded(Simulate, a)) && w.holder == Some(inv) && Reachable(w)
  {
    inv := inv0.(mem := next, pc := Recorded(Simulate, a));
    w := w0.(store := w0.store.Save(next, Saved), holder := Some(inv));
    assert OnRecord(w0, inv0, None, Saved) == Some(w);
    AfterRecord(w0, inv0, w);
  }

  /** An answer that is neither a 202 nor followed stands. */
  lemma SimulatePerformed(id: string, a: A.Answer) returns (w: World, inv: Invocation)
    requires |id| <= 240 && forall i :: 0 <= i < |id| ==> ' ' <= id[i] <= '~'
    requires A.IsMoneyAnswer(a) && a.op == O.SimulateTransfer && a.status != 202 && A.PollTarget(a).None?
    ensures Underway(w, inv) && inv.pc == Performed(Simulate, E.OfAnswer(A.MoneyInput(a)), a)
  {
    var w0, inv0 := SimulateRecorded(id, a);
    var inv1 := inv0.(pc := Following(Simulate, a));
    ReachedNext(w0, CloseOn202(Saved), Hold(w0, inv1));
    w, inv := NotFollowed(Hold(w0, inv1), inv1, a);
  }

  lemma NotFollowed(w0: World, inv0: Invocation, a: A.Answer) returns (w: World, inv: Invocation)
    requires Reachable(w0) && w0.holder == Some(inv0) && inv0.pc == Following(Simulate, a) && A.PollTarget(a).None?
    ensures inv == inv0.(pc := Performed(Simulate, E.OfAnswer(A.MoneyInput(a)), a))
    ensures Reachable(w) && w == Hold(w0, inv)
  {
    inv := inv0.(pc := Performed(Simulate, E.OfAnswer(A.MoneyInput(a)), a));
    w := Hold(w0, inv);
    AfterFollowUp(w0, inv0, Poll(None, false, Response(0, "")), w);
  }

  // ---------- The ways to lose a refusal ----------

  /** A busy upstream, with no command to follow. */
  const BUSY := A.Answer(O.SimulateTransfer, 503, "", false, None, Some(O.Envelope(O.UpstreamBusy, "", "")), None,
                         A.Body("", None, None, None))

  lemma BusyIsTransient()
    ensures A.IsMoneyAnswer(BUSY) && A.PollTarget(BUSY).None? && A.FreshPlanToken(BUSY).None?
    ensures A.ClassifyAnswer(BUSY) == O.Transient
  {
  }

  /** The gate closes on a busy simulate, the write fails, and the run can still execute. */
  lemma GateCanBeLost(id: string) returns (w: World, inv: Invocation)
    requires |id| <= 240 && forall i :: 0 <= i < |id| ==> ' ' <= id[i] <= '~'
    ensures Reachable(w) && w.holder == Some(inv) && Closes(inv)
    ensures OnProceed(w, inv, None, NotWritten).Some? && MaySendExecute(OnProceed(w, inv, None, NotWritten).value)
  {
    BusyIsTransient();
    w, inv := SimulatePerformed(id, BUSY);
    ReachableIsWell(w);
    GateIsFinalIff(w, inv, None, NotWritten);
  }

  const ACCEPTED := A.Answer(O.SimulateTransfer, 202, "cmd", false, None, None, None, A.Body("", None, None, None))

  /** A 202 closes the execute, the write fails, and the run can still execute. */
  lemma CloseOn202CanBeLost(id: string) returns (w: World, inv: Invocation)
    requires |id| <= 240 && forall i :: 0 <= i < |id| ==> ' ' <= id[i] <= '~'
    ensures Reachable(w) && w.holder == Some(inv) && Accepted(inv)
    ensures OnCloseOn202(w, inv, NotWritten).Some? && MaySendExecute(OnCloseOn202(w, inv, NotWritten).value)
  {
    w, inv := SimulateRecorded(id, ACCEPTED);
    ReachableIsWell(w);
    CloseOn202IsFinalIff(w, inv, NotWritten);
  }

  lemma PlanStored(m: Run)
    requires TwoStep(m) && m.Find(Execute).value.state.NotStarted? && m.Find(Simulate).value.state.Terminal?
    ensures var next := L.SetPlanRun(m, Execute, None, "fresh");
      next.Success? && TwoStep(next.value) && L.DeclineRun(next.value, Execute).Success? &&
        L.DeclineRun(next.value, Execute).value.Some?
      && !Dead(next.value)
  {
    var e' := L.SetPlanStep(m.Find(Execute).value, None, "fresh").value;
    FindAfterReplace(m.steps, e', Execute);
    FindAfterReplace(m.steps, e', Simulate);
    var r := m.With(e');
    assert r.Find(Simulate) == Some(r.steps[0]);
    assert r.Find(Execute) == FindIn(r.steps[1..], Execute) == Some(r.steps[1]);
    assert Resumable(r.steps) == Resumable(r.steps[1..], false);
    assert !r.steps[1].state.IsTerminal() && r.steps[1].HasPlanToken();
  }

  lemma PlannedRun(id: string) returns (w: World, inv: Invocation)
    requires |id| <= 240 && forall i :: 0 <= i < |id| ==> ' ' <= id[i] <= '~'
    ensures Reachable(w) && w.holder == Some(inv) && w.store.current == Some(inv.mem)
    ensures L.DeclineRun(inv.mem, Execute).Success? && L.DeclineRun(inv.mem, Execute).value.Some? && !Dead(inv.mem)
  {
    FreshIsFresh();
    var w0, inv0 := SimulatePerformed(id, FRESH);
    ReachableIsWell(w0);
    SettledByFresh(w0, inv0);
    PlanStored(inv0.mem);
    var next := L.SetPlanRun(inv0.mem, Execute, None, "fresh").value;
    FreshGoesOn();
    w, inv := PlanSaved(w0, inv0, next, "fresh");
  }

  lemma SettledByFresh(w: World, inv: Invocation)
    requires Held(w, inv) && inv.pc == Performed(Simulate, E.OfAnswer(A.MoneyInput(FRESH)), FRESH)
    ensures inv.mem.Find(Simulate).Some? && inv.mem.Find(Simulate).value.state.Terminal?
  {
    FreshIsFresh();
  }

  lemma ProceedsToAsk(w: World, inv: Invocation, next: Run, token: string)
    requires inv.pc.Performed? && inv.pc.step.Simulate? && inv.mem.Find(Execute).Some?
    requires GoesOn(inv.pc.said, inv.pc.a) == Some(token)
    requires L.SetPlanRun(inv.mem, Execute, None, token) == Success(next)
    ensures OnProceed(w, inv, None, Saved) ==
      Some(w.(store := w.store.Save(next, Saved), holder :=
        Some(inv.(mem := next, pc := Asking(Some(PlanTokenDocument(token)), true)))))
  {
  }

  lemma PlanSaved(w0: World, inv0: Invocation, next: Run, token: string) returns (w: World, inv: Invocation)
    requires Reachable(w0) && w0.holder == Some(inv0) && inv0.pc.Performed? && inv0.pc.step.Simulate?
    requires inv0.mem.Find(Execute).Some? && GoesOn(inv0.pc.said, inv0.pc.a) == Some(token)
    requires L.SetPlanRun(inv0.mem, Execute, None, token) == Success(next)
    ensures Reachable(w) && w.holder == Some(inv) && inv.mem == next && w.store.current == Some(next)
  {
    ProceedsToAsk(w0, inv0, next, token);
    inv := inv0.(mem := next, pc := Asking(Some(PlanTokenDocument(token)), true));
    w := w0.(store := w0.store.Save(next, Saved), holder := Some(inv));
    AfterProceed(w0, inv0, w);
  }

  /**
   The process dies between the plan and the prompt; the run is declined, the write
   fails, and it can still execute.
   */
  lemma DeclineOfUnpromptedCanBeLost(id: string) returns (w: World, inv: Invocation)
    requires |id| <= 240 && forall i :: 0 <= i < |id| ==> ' ' <= id[i] <= '~'
    ensures Reachable(w) && w.holder == Some(inv) && Declines(inv, DeclineRun(NotWritten))
    ensures Apply(w, DeclineRun(NotWritten)).Some? && MaySendExecute(Apply(w, DeclineRun(NotWritten)).value)
  {
    var w0, inv0 := PlannedRun(id);
    w, inv := OpenedAgain(w0, inv0);
    DeclineLost(w, inv, DeclineRun(NotWritten));
  }

  lemma OpenedAgain(w0: World, inv0: Invocation) returns (w: World, inv: Invocation)
    requires Reachable(w0) && w0.holder == Some(inv0) && w0.store.current == Some(inv0.mem)
    ensures Reachable(w) && w.holder == Some(inv) && inv.pc.Maintaining? && inv.mem == inv0.mem
  {
    var w1 := w0.(holder := None);
    ReachedNext(w0, Crash, w1);
    w, inv := Opened(w1, inv0.mem);
  }

  lemma Opened(w0: World, m: Run) returns (w: World, inv: Invocation)
    requires Reachable(w0) && w0.holder.None? && w0.store.current == Some(m)
    ensures Reachable(w) && w.holder == Some(inv) && inv.pc.Maintaining? && inv.mem == m
  {
    inv := Invocation(Maintain, WITH_YES, Maintaining, m, false, false, false, None, None);
    w := Hold(w0, inv);
    assert OnOpen(w0, Maintain, WITH_YES) == Some(w);
    ReachedNext(w0, Open(Maintain, WITH_YES), w);
  }

  lemma DeclineLost(w: World, inv: Invocation, e: Event)
    requires Reachable(w) && w.holder == Some(inv) && Declines(inv, e) && !e.o.Saved?
    requires L.DeclineRun(inv.mem, Execute).Success? && L.DeclineRun(inv.mem, Execute).value.Some? && !Dead(inv.mem)
    ensures Apply(w, e).Some? && MaySendExecute(Apply(w, e).value)
  {
    ReachableIsWell(w);
    MemIsGood(w, inv);
    DeclineIsFinalIff(w, inv, e, L.DeclineRun(inv.mem, Execute).value.value);
  }

  // ---------- A decline at the prompt ----------

  const AT_TERMINAL := Options(false, true, false)

  const SAID_NO := C.Prompt(true, true, false, false, "n", C.Newline)

  lemma PlanRunPrompted(key: string) returns (w: World, inv: Invocation)
    requires ValidKey(key)
    ensures Reachable(w) && w.holder == Some(inv) && inv.pc.Prompted? && inv.opts == AT_TERMINAL
    ensures |inv.mem.steps| == 1 && inv.mem.steps[0].name.Execute? && inv.mem.steps[0].state.AwaitingConfirmation?
    ensures inv.mem.steps[0].body.Some?
  {
    var exe := NewStep(Execute, key, Some(PlanTokenDocument("plan")));
    var r := Run("id", 0, "p", "e", [exe]);
    var run := r.(steps := [L.Digested(exe)]);
    assert L.WithDigests([exe]) == [L.Digested(exe)];
    assert L.ValidateNew(r) == Success(run);
    var w0 := OnCreate(Start(), ExecutePlan, AT_TERMINAL, r, Saved).value;
    assert Play(Start(), []) == Some(Start());
    ReachedNext(Start(), Event.Create(ExecutePlan, AT_TERMINAL, r, Saved), w0);
    w, inv := Asked(w0, w0.holder.value, run);
  }

  lemma Asked(w0: World, inv0: Invocation, run: Run) returns (w: World, inv: Invocation)
    requires Reachable(w0) && w0.holder == Some(inv0) && inv0.pc.Asking? && inv0.opts == AT_TERMINAL && inv0.mem == run
    requires |run.steps| == 1 && run.steps[0].name.Execute? && run.steps[0].state.NotStarted? && run.steps[0].body.Some?
    ensures Reachable(w) && w.holder == Some(inv) && inv.pc.Prompted? && inv.opts == AT_TERMINAL
    ensures |inv.mem.steps| == 1 && inv.mem.steps[0].name.Execute? && inv.mem.steps[0].state.AwaitingConfirmation?
    ensures inv.mem.steps[0].body.Some?
  {
    w := OnAsk(w0, inv0, Saved).value;
    inv := w.holder.value;
    ReachedNext(w0, Ask(Saved), w);
  }

  /** A plan is declined at the prompt, the write fails, and it can still be executed. */
  lemma DeclineAtPromptCanBeLost(key: string) returns (w: World, inv: Invocation)
    requires ValidKey(key)
    ensures Reachable(w) && w.holder == Some(inv) && Declines(inv, ReadLine(SAID_NO, NotWritten))
    ensures Apply(w, ReadLine(SAID_NO, NotWritten)).Some?
    ensures MaySendExecute(Apply(w, ReadLine(SAID_NO, NotWritten)).value)
  {
    w, inv := PlanRunPrompted(key);
    NoIsNo(inv);
    assert inv.mem.Find(Execute) == Some(inv.mem.steps[0]);
    assert Resuming(inv.mem).Asking?;
    DeclineLost(w, inv, ReadLine(SAID_NO, NotWritten));
  }

  lemma NoIsNo(inv: Invocation)
    requires inv.opts == AT_TERMINAL && inv.pc.Prompted?
    ensures Declines(inv, ReadLine(SAID_NO, NotWritten))
  {
    assert !C.Affirmative("n") by {
      assert C.TrimLeft("n") == "n" && C.TrimRight("n") == "n";
      assert C.Lower("n")[0] == 'n';
    }
  }
}
