/**
 When a refusal is final: an execute step that was declined or closed is never
 sent, in this or any later invocation, exactly when the write of that refusal
 was durable, or nothing could have reopened it.
 */
module ProtocolGate {
  import opened Wrappers
  import opened DurableStore
  import opened Records
  import opened Protocol
  import opened ProtocolSafety
  import opened ProtocolSteps
  import L = Ledger
  import O = Outcomes
  import A = Api
  import C = Consent

  // ---------- What can no longer be executed ----------

  ghost predicate RefusedExecute(r: Run) {
    r.Find(Execute).Some? && r.Find(Execute).value.state.Refused()
  }

  /** There is no execute, or it was refused. */
  ghost predicate Barred(r: Run) {
    r.Find(Execute).None? || RefusedExecute(r)
  }

  /** A resume of this version cannot lead to an execute: it is barred, or there is nothing to resume. */
  ghost predicate Dead(r: Run) {
    Barred(r) || Resuming(r).Ended?
  }

  ghost predicate Quiet(pc: Pc) {
    pc.Deciding? || pc.Maintaining? || pc.Ended?
  }

  ghost predicate NoneSent(w: World) {
    forall q :: q in w.wire ==> !q.step.Execute?
  }

  /** No version that can be recovered, and no invocation under way, can send the execute. */
  ghost predicate Shut(w: World) {
    && w.minted.Some? && NoneSent(w)
    && (forall r :: Some(r) in w.store.recoverable ==> Dead(r))
    && (w.holder.Some? ==> Barred(w.holder.value.mem) || Quiet(w.holder.value.pc))
  }

  /** A version whose execute never began, a refused one above all, proves that no request for it ever left. */
  lemma NeverBegunNeverSent(w: World, r: Run)
    requires Inv(w) && Some(r) in w.store.recoverable
    requires r.Find(Execute).Some? ==> !r.Find(Execute).value.state.MayHaveSent()
    ensures NoneSent(w)
  {
    forall q | q in w.wire
      ensures !q.step.Execute?
    {
      assert Holds(r, q);
    }
  }

  // ---------- It stays so ----------

  lemma CommitShut(w: World, inv: Invocation, next: L.RunResult, kept: Run, o: SaveOutcome, pc: Pc)
    requires Shut(w) && w.holder == Some(inv)
    requires next.Success? ==> Dead(next.value) && (Barred(next.value) || Quiet(pc))
    ensures Shut(Commit(w, inv, next, kept, o, pc).value)
  {
  }

  lemma MemIsDead(w: World, inv: Invocation)
    requires Held(w, inv) && Shut(w) && !inv.pc.Ended?
    ensures inv.mem.Valid() && Dead(inv.mem)
  {
    MemIsGood(w, inv);
    assert Some(inv.mem) in w.store.recoverable;
  }

  /** Replacing the simulate leaves a barred execute barred. */
  lemma SimulateReplaced(m: Run, s': Step)
    requires Barred(m) && m.Find(Simulate).Some? && s'.name.Simulate?
    ensures Barred(m.With(s'))
  {
    FindAfterReplace(m.steps, s', Execute);
  }

  lemma ExecuteReplaced(m: Run, s': Step)
    requires m.Find(Execute).Some? && s'.name.Execute? && s'.state.Refused()
    ensures RefusedExecute(m.With(s'))
  {
    FindAfterReplace(m.steps, s', Execute);
  }

  // A barred execute stays barred through each operation on the run.

  lemma BeginBarred(m: Run, step: StepName, body: Option<RequestBody>)
    requires Barred(m) && L.BeginRun(m, step, body).Success?
    ensures Barred(L.BeginRun(m, step, body).value)
  {
    assert step.Simulate?;
    SimulateReplaced(m, L.BeginStep(m.Find(Simulate).value, body).value);
  }

  lemma DeclineBars(m: Run)
    requires L.DeclineRun(m, Execute).Success? && L.DeclineRun(m, Execute).value.Some?
    ensures RefusedExecute(L.DeclineRun(m, Execute).value.value)
  {
    ExecuteReplaced(m, L.DeclineStep(m.Find(Execute).value).value.value);
  }

  lemma UnreachableBars(m: Run)
    requires L.UnreachableRun(m, Execute).Success?
    ensures RefusedExecute(L.UnreachableRun(m, Execute).value)
  {
    ExecuteReplaced(m, L.UnreachableStep(m.Find(Execute).value).value);
  }

  lemma BeginShut(w: World, inv: Invocation, o: SaveOutcome)
    requires Shut(w) && w.holder == Some(inv) && OnBegin(w, inv, o).Some?
    ensures Shut(OnBegin(w, inv, o).value)
  {
    var next := L.BeginRun(inv.mem, inv.pc.step, inv.pc.body);
    if next.Success? {
      BeginBarred(inv.mem, inv.pc.step, inv.pc.body);
    }
    CommitShut(w, inv, next, L.BegunKept(inv.mem, inv.pc.step, inv.pc.body), o, Begun(inv.pc.step));
  }

  /** What is in flight on a shut run is its simulate. */
  lemma OnlySimulates(w: World, inv: Invocation)
    requires Held(w, inv) && Shut(w) && (inv.pc.Sending? || inv.pc.Answered? || inv.pc.Following?)
    ensures inv.pc.step.Simulate? && inv.mem.Find(Simulate).Some? && Barred(inv.mem)
  {
  }

  lemma RecordShut(
      w: World, inv: Invocation, resp: Option<Response>, structural: Option<string>, c: O.Class, o: SaveOutcome,
      pc: Pc)
    requires Held(w, inv) && Shut(w) && (inv.pc.Answered? || inv.pc.Following?)
    ensures Shut(CommitRun(w, inv, L.RecordRun(inv.mem, inv.pc.step, resp, structural, LedgerOutcomeOf(c)), o,
      pc).value)
  {
    OnlySimulates(w, inv);
    SimulateReplaced(inv.mem, L.RecordStep(inv.mem.Find(Simulate).value, resp, structural, LedgerOutcomeOf(c)));
    var next := L.RecordRun(inv.mem, inv.pc.step, resp, structural, LedgerOutcomeOf(c));
    CommitShut(w, inv, next, next.value, o, pc);
  }

  lemma UnreachableShut(w: World, inv: Invocation, o: SaveOutcome, pc: Pc)
    requires Shut(w) && w.holder == Some(inv) && (Barred(inv.mem) || Quiet(pc))
    ensures Shut(CommitRun(w, inv, L.UnreachableRun(inv.mem, Execute), o, pc).value)
  {
    var next := L.UnreachableRun(inv.mem, Execute);
    if next.Success? {
      UnreachableBars(inv.mem);
    }
    CommitShut(w, inv, next, Taken(next, inv.mem), o, pc);
  }

  lemma DeclineShut(w: World, inv: Invocation, o: SaveOutcome)
    requires Shut(w) && w.holder == Some(inv) && OnDecline(w, inv, o).Some?
    ensures Shut(OnDecline(w, inv, o).value)
  {
    match L.DeclineRun(inv.mem, Execute)
    case Success(Some(r)) =>
      DeclineBars(inv.mem);
      CommitShut(w, inv, Success(r), r, o, Ended);
    case _ =>
  }

  /** Scrubbing takes tokens away, so it never gives a resume something to do. */
  lemma {:induction false} ScrubResumable(steps: seq<Step>, now: int, first: bool)
    ensures Resumable(steps, first).None? ==> Resumable(L.ScrubSteps(steps, now), first).None?
    ensures Resumable(steps, first).Some? && !Resumable(steps, first).value.HasPlanToken() ==>
      Resumable(L.ScrubSteps(steps, now), first) == Resumable(steps, first)
  {
    if steps != [] {
      assert L.ScrubSteps(steps, now)[1..] == L.ScrubSteps(steps[1..], now);
      ScrubResumable(steps[1..], now, false);
    }
  }

  lemma ScrubEnded(m: Run, now: int)
    requires Resuming(m).Ended?
    ensures Resuming(L.ScrubRun(m, now)).Ended?
  {
    ScrubResumable(m.steps, now, true);
  }

  lemma ScrubBarred(m: Run, now: int)
    requires Barred(m)
    ensures Barred(L.ScrubRun(m, now))
  {
    L.ScrubFind(m.steps, now, Execute);
  }

  lemma ScrubDead(m: Run, now: int)
    requires Dead(m)
    ensures Dead(L.ScrubRun(m, now))
  {
    if Barred(m) {
      ScrubBarred(m, now);
    } else {
      ScrubEnded(m, now);
    }
  }

  lemma ScrubShut(w: World, inv: Invocation, now: int, o: SaveOutcome)
    requires Held(w, inv) && Shut(w) && OnScrub(w, inv, now, o).Some?
    ensures Shut(OnScrub(w, inv, now, o).value)
  {
    MemIsDead(w, inv);
    ScrubDead(inv.mem, now);
    CommitShut(w, inv, Success(L.ScrubRun(inv.mem, now)), L.ScrubRun(inv.mem, now), o, Ended);
  }

  lemma DecideShut(w: World, inv: Invocation)
    requires Held(w, inv) && Shut(w) && OnDecide(w, inv).Some?
    ensures Shut(OnDecide(w, inv).value)
  {
    MemIsDead(w, inv);
  }

  lemma AskShut(w: World, inv: Invocation, o: SaveOutcome)
    requires Shut(w) && w.holder == Some(inv) && OnAsk(w, inv, o).Some?
    ensures Shut(OnAsk(w, inv, o).value)
  {
    assert L.AwaitRun(inv.mem, Execute).Failure?;
  }

  lemma ReadLineShut(w: World, inv: Invocation, prompt: C.Prompt, o: SaveOutcome)
    requires Shut(w) && w.holder == Some(inv) && OnReadLine(w, inv, prompt, o).Some?
    ensures Shut(OnReadLine(w, inv, prompt, o).value)
  {
    assert !(L.DeclineRun(inv.mem, Execute).Success? && L.DeclineRun(inv.mem, Execute).value.Some?);
  }

  lemma SendShut(w: World, inv: Invocation)
    requires Held(w, inv) && Shut(w) && OnSend(w, inv).Some?
    ensures Shut(OnSend(w, inv).value)
  {
    OnlySimulates(w, inv);
  }

  lemma CloseOn202Shut(w: World, inv: Invocation, o: SaveOutcome)
    requires Held(w, inv) && Shut(w) && OnCloseOn202(w, inv, o).Some?
    ensures Shut(OnCloseOn202(w, inv, o).value)
  {
    if inv.flow.CreateBroadcast? && inv.pc.step.Simulate? && inv.pc.a.status == 202 {
      UnreachableShut(w, inv, o, Following(inv.pc.step, inv.pc.a));
    }
  }

  lemma FollowUpShut(w: World, inv: Invocation, poll: Poll, structural: Option<string>, o: SaveOutcome)
    requires Held(w, inv) && Shut(w) && OnFollowUp(w, inv, poll, structural, o).Some?
    ensures Shut(OnFollowUp(w, inv, poll, structural, o).value)
  {
    if A.PollTarget(inv.pc.a).Some? && !inv.opts.noWait && poll.command.Some? {
      RecordShut(w, inv, Some(poll.response), structural, poll.Said().Class(), o,
        Performed(inv.pc.step, poll.Said(), inv.pc.a));
    } else {
      assert Barred(inv.mem);
    }
  }

  lemma CloseShut(w: World, inv: Invocation, o: SaveOutcome)
    requires RefusedExecute(inv.mem)
    ensures CloseExecute(w, inv, o) == Some(Hold(w, inv.(pc := Ended)))
  {
  }

  lemma SetPlanShut(m: Run, plan: Option<Plan>, token: string)
    requires RefusedExecute(m)
    ensures L.SetPlanRun(m, Execute, plan, token).Failure?
  {
  }

  /** On a barred execute nothing is written and the work is over. */
  lemma ProceedStops(w: World, inv: Invocation, plan: Option<Plan>, o: SaveOutcome)
    requires Barred(inv.mem) && OnProceed(w, inv, plan, o).Some?
    ensures exists said :: OnProceed(w, inv, plan, o) == Some(Hold(w, inv.(pc := Ended, report := said)))
  {
    if inv.pc.step.Execute? || inv.mem.Find(Execute).None? {
      assert OnProceed(w, inv, plan, o) == Some(Hold(w, inv.(pc := Ended, report := Some(inv.pc.said))));
    } else {
      match GoesOn(inv.pc.said, inv.pc.a)
      case Some(token) =>
        SetPlanShut(inv.mem, plan, token);
        assert OnProceed(w, inv, plan, o) == Some(Hold(w, inv.(pc := Ended, report := inv.report)));
      case None =>
        CloseShut(w, inv, o);
        assert OnProceed(w, inv, plan, o) == Some(Hold(w, inv.(pc := Ended, report := Some(StopsWith(inv.pc.said)))));
    }
  }

  lemma ProceedShut(w: World, inv: Invocation, plan: Option<Plan>, o: SaveOutcome)
    requires Shut(w) && w.holder == Some(inv) && OnProceed(w, inv, plan, o).Some?
    ensures Shut(OnProceed(w, inv, plan, o).value)
  {
    ProceedStops(w, inv, plan, o);
    var said :| OnProceed(w, inv, plan, o) == Some(Hold(w, inv.(pc := Ended, report := said)));
  }

  lemma ApplyHeldShut(w: World, inv: Invocation, e: Event)
    requires Held(w, inv) && Shut(w) && ApplyHeld(w, inv, e).Some?
    ensures Shut(ApplyHeld(w, inv, e).value)
  {
    match e
    case Decide => DecideShut(w, inv);
    case Ask(o) => AskShut(w, inv, o);
    case ReadLine(prompt, o) => ReadLineShut(w, inv, prompt, o);
    case Begin(o) => BeginShut(w, inv, o);
    case Send => SendShut(w, inv);
    case RecordAnswer(structural, o) =>
      RecordShut(w, inv, Recordable(inv.pc.a), structural, A.ClassifyAnswer(inv.pc.a), o,
        Recorded(inv.pc.step, inv.pc.a));
    case CloseOn202(o) => CloseOn202Shut(w, inv, o);
    case FollowUp(poll, structural, o) => FollowUpShut(w, inv, poll, structural, o);
    case Proceed(plan, o) => ProceedShut(w, inv, plan, o);
    case DeclineRun(o) => DeclineShut(w, inv, o);
    case ScrubRun(now, o) => ScrubShut(w, inv, now, o);
    case PruneRun(cutoff) => PruneShut(w, inv, cutoff);
    case _ => QuietEvents(w, inv, e);
  }

  lemma PruneShut(w: World, inv: Invocation, cutoff: int)
    requires Shut(w) && w.holder == Some(inv) && OnPrune(w, inv, cutoff).Some?
    ensures Shut(OnPrune(w, inv, cutoff).value)
  {
  }

  lemma QuietEvents(w: World, inv: Invocation, e: Event)
    requires Shut(w) && w.holder == Some(inv) && (e.Mark? || e.GetAnswer? || e.Leave? || e.Crash?)
    requires ApplyHeld(w, inv, e).Some?
    ensures Shut(ApplyHeld(w, inv, e).value)
  {
  }

  lemma OpenShut(w: World, flow: Flow, opts: Options)
    requires Inv(w) && Shut(w) && OnOpen(w, flow, opts).Some?
    ensures Shut(OnOpen(w, flow, opts).value)
  {
  }

  lemma ApplyShut(w: World, e: Event)
    requires Inv(w) && Shut(w) && Apply(w, e).Some?
    ensures Shut(Apply(w, e).value)
  {
    match e
    case Create(flow, opts, run, o) =>
    case Open(flow, opts) => OpenShut(w, flow, opts);
    case DirFsync =>
    case PowerCut(back) =>
    case _ => ApplyHeldShut(w, w.holder.value, e);
  }

  /** What is shut stays shut, through every crash, resume and interleaving. */
  lemma {:induction false} ShutForever(w: World, events: seq<Event>)
    requires Inv(w) && Shut(w) && Play(w, events).Some?
    ensures Shut(Play(w, events).value)
    decreases |events|
  {
    if events != [] {
      ApplyShut(w, events[0]);
      ApplyKeeps(w, events[0]);
      ShutForever(Apply(w, events[0]).value, events[1..]);
    }
  }
}
