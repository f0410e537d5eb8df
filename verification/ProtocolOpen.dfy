/**
 Nothing open is out of sight: in every version of the record a step whose request
 may have left, and whose end is not known, is one the orphan check refuses to walk
 past and one a resume can act on.
 */
module ProtocolOpen {
  import opened Wrappers
  import opened DurableStore
  import opened Records
  import opened Protocol
  import opened ProtocolSafety
  import opened ProtocolSteps
  import opened ProtocolReopen
  import L = Ledger
  import O = Outcomes
  import A = Api
  import E = Exit

  /** An answered step is one whose outcome is still open. */
  ghost predicate Tracked(s: Step) {
    s.state.Answered? ==> s.outcome.Some? && s.outcome.value.exitCode in {5, 6}
  }

  ghost predicate TrackedRun(r: Run) {
    forall s :: s in r.steps ==> Tracked(s)
  }

  ghost predicate AllTracked(w: World) {
    forall r :: Some(r) in w.store.recoverable ==> TrackedRun(r)
  }

  // ---------- Every operation keeps it ----------

  lemma WithTracked(m: Run, s': Step)
    requires TrackedRun(m) && Tracked(s')
    ensures TrackedRun(m.With(s'))
  {
    hide Tracked;
    forall s | s in m.With(s').steps
      ensures Tracked(s)
    {
      assert s == s' || s in m.steps;
    }
  }

  lemma AwaitTracked(m: Run)
    requires TrackedRun(m) && L.AwaitRun(m, Execute).Success?
    ensures TrackedRun(L.AwaitRun(m, Execute).value)
  {
    WithTracked(m, L.AwaitStep(m.Find(Execute).value).value);
  }

  lemma BeginTracked(m: Run, step: StepName, body: Option<RequestBody>)
    requires TrackedRun(m) && L.BeginRun(m, step, body).Success?
    ensures TrackedRun(L.BeginRun(m, step, body).value)
  {
    WithTracked(m, L.BeginStep(m.Find(step).value, body).value);
  }

  lemma SetPlanTracked(m: Run, plan: Option<Plan>, token: string)
    requires TrackedRun(m) && L.SetPlanRun(m, Execute, plan, token).Success?
    ensures TrackedRun(L.SetPlanRun(m, Execute, plan, token).value)
  {
    WithTracked(m, L.SetPlanStep(m.Find(Execute).value, plan, token).value);
  }

  lemma RecordTracked(m: Run, step: StepName, resp: Option<Response>, structural: Option<string>, c: O.Class)
    requires TrackedRun(m) && L.RecordRun(m, step, resp, structural, LedgerOutcomeOf(c)).Success?
    ensures TrackedRun(L.RecordRun(m, step, resp, structural, LedgerOutcomeOf(c)).value)
  {
    var s := m.Find(step).value;
    RecordTakes(s, resp, structural, c);
    WithTracked(m, L.RecordStep(s, resp, structural, LedgerOutcomeOf(c)));
  }

  lemma UnreachableTracked(m: Run)
    requires TrackedRun(m) && L.UnreachableRun(m, Execute).Success?
    ensures TrackedRun(L.UnreachableRun(m, Execute).value)
  {
    WithTracked(m, L.UnreachableStep(m.Find(Execute).value).value);
  }

  lemma DeclineTracked(m: Run)
    requires TrackedRun(m) && L.DeclineRun(m, Execute).Success? && L.DeclineRun(m, Execute).value.Some?
    ensures TrackedRun(L.DeclineRun(m, Execute).value.value)
  {
    WithTracked(m, L.DeclineStep(m.Find(Execute).value).value.value);
  }

  lemma ScrubTracked(m: Run, now: int)
    requires TrackedRun(m)
    ensures TrackedRun(L.ScrubRun(m, now))
  {
    forall s' | s' in L.ScrubRun(m, now).steps
      ensures Tracked(s')
    {
      var i :| 0 <= i < |m.steps| && s' == L.ScrubSteps(m.steps, now)[i];
      assert m.steps[i] in m.steps;
      L.RefusalEffect(m.steps[i]);
    }
  }

  // ---------- And every event ----------

  lemma CommitTracked(w: World, inv: Invocation, next: L.RunResult, kept: Run, o: SaveOutcome, pc: Pc)
    requires AllTracked(w) && (next.Success? ==> TrackedRun(next.value))
    ensures AllTracked(Commit(w, inv, next, kept, o, pc).value)
  {
  }

  lemma MemTracked(w: World, inv: Invocation)
    requires Held(w, inv) && !inv.pc.Ended? && AllTracked(w)
    ensures TrackedRun(inv.mem)
  {
    assert Some(inv.mem) in w.store.recoverable;
  }

  lemma AskTracked(w: World, inv: Invocation, o: SaveOutcome)
    requires Held(w, inv) && AllTracked(w) && OnAsk(w, inv, o).Some?
    ensures AllTracked(OnAsk(w, inv, o).value)
  {
    MemTracked(w, inv);
    hide Inv, TrackedRun;
    var next := L.AwaitRun(inv.mem, Execute);
    if next.Success? {
      AwaitTracked(inv.mem);
    }
    hide L.AwaitRun;
    CommitTracked(w, inv, next, Taken(next, inv.mem), o, Prompted(inv.pc.body, inv.pc.selfConsent));
  }

  lemma BeginRunTracked(w: World, inv: Invocation, o: SaveOutcome)
    requires Held(w, inv) && AllTracked(w) && OnBegin(w, inv, o).Some?
    ensures AllTracked(OnBegin(w, inv, o).value)
  {
    MemTracked(w, inv);
    hide Inv, TrackedRun, L.BeginRun, L.BegunKept;
    var next := L.BeginRun(inv.mem, inv.pc.step, inv.pc.body);
    if next.Success? {
      BeginTracked(inv.mem, inv.pc.step, inv.pc.body);
    }
    CommitTracked(w, inv, next, L.BegunKept(inv.mem, inv.pc.step, inv.pc.body), o, Begun(inv.pc.step));
  }

  lemma RecordRunTracked(
      w: World, inv: Invocation, step: StepName, resp: Option<Response>, structural: Option<string>, c: O.Class,
      o: SaveOutcome, pc: Pc)
    requires Held(w, inv) && !inv.pc.Ended? && AllTracked(w)
    ensures AllTracked(CommitRun(w, inv, L.RecordRun(inv.mem, step, resp, structural, LedgerOutcomeOf(c)), o, pc).value)
  {
    MemTracked(w, inv);
    hide Inv, TrackedRun, L.RecordRun;
    var next := L.RecordRun(inv.mem, step, resp, structural, LedgerOutcomeOf(c));
    if next.Success? {
      RecordTracked(inv.mem, step, resp, structural, c);
    }
    CommitTracked(w, inv, next, Taken(next, inv.mem), o, pc);
  }

  lemma AnswerTracked(w: World, inv: Invocation, structural: Option<string>, o: SaveOutcome)
    requires Held(w, inv) && AllTracked(w) && OnRecord(w, inv, structural, o).Some?
    ensures AllTracked(OnRecord(w, inv, structural, o).value)
  {
    hide Inv, AllTracked, L.RecordRun, A.ClassifyAnswer;
    RecordRunTracked(w, inv, inv.pc.step, Recordable(inv.pc.a), structural, A.ClassifyAnswer(inv.pc.a), o,
      Recorded(inv.pc.step, inv.pc.a));
  }

  lemma FollowUpTracked(
      w: World, inv: Invocation, poll: Poll, structural: Option<string>, o: SaveOutcome)
    requires Held(w, inv) && AllTracked(w) && OnFollowUp(w, inv, poll, structural, o).Some?
    ensures AllTracked(OnFollowUp(w, inv, poll, structural, o).value)
  {
    if A.PollTarget(inv.pc.a).Some? && !inv.opts.noWait && poll.command.Some? {
      hide Inv, AllTracked, L.RecordRun, A.PollTarget;
      RecordRunTracked(w, inv, inv.pc.step, Some(poll.response), structural, poll.Said().Class(), o,
        Performed(inv.pc.step, poll.Said(), inv.pc.a));
    } else {
      assert OnFollowUp(w, inv, poll, structural, o).value.store == w.store;
    }
  }

  lemma UnreachableRunTracked(w: World, inv: Invocation, o: SaveOutcome, pc: Pc)
    requires Held(w, inv) && !inv.pc.Ended? && AllTracked(w)
    ensures AllTracked(CommitRun(w, inv, L.UnreachableRun(inv.mem, Execute), o, pc).value)
  {
    MemTracked(w, inv);
    hide Inv, TrackedRun, L.UnreachableRun;
    var next := L.UnreachableRun(inv.mem, Execute);
    if next.Success? {
      UnreachableTracked(inv.mem);
    }
    CommitTracked(w, inv, next, Taken(next, inv.mem), o, pc);
  }

  lemma CloseOn202Tracked(w: World, inv: Invocation, o: SaveOutcome)
    requires Held(w, inv) && AllTracked(w) && OnCloseOn202(w, inv, o).Some?
    ensures AllTracked(OnCloseOn202(w, inv, o).value)
  {
    UnreachableRunTracked(w, inv, o, Following(inv.pc.step, inv.pc.a));
    hide Inv, L.UnreachableRun;
  }

  lemma SetPlanRunTracked(w: World, inv: Invocation, plan: Option<Plan>, token: string, o: SaveOutcome, pc: Pc)
    requires Held(w, inv) && !inv.pc.Ended? && AllTracked(w)
    ensures AllTracked(CommitRun(w, inv, L.SetPlanRun(inv.mem, Execute, plan, token), o, pc).value)
  {
    MemTracked(w, inv);
    hide Inv, TrackedRun, L.SetPlanRun;
    var next := L.SetPlanRun(inv.mem, Execute, plan, token);
    if next.Success? {
      SetPlanTracked(inv.mem, plan, token);
    }
    CommitTracked(w, inv, next, Taken(next, inv.mem), o, pc);
  }

  lemma ReportingTracked(w: World, said: E.Source)
    requires AllTracked(w)
    ensures AllTracked(Reporting(Some(w), said).value)
  {
  }

  lemma CloseTracked(w: World, inv: Invocation, o: SaveOutcome)
    requires Held(w, inv) && !inv.pc.Ended? && AllTracked(w) && inv.mem.Find(Execute).Some?
    ensures CloseExecute(w, inv, o).Some? && AllTracked(CloseExecute(w, inv, o).value)
  {
    UnreachableRunTracked(w, inv, o, Ended);
    hide Inv, L.UnreachableRun;
  }

  lemma ProceedTracked(w: World, inv: Invocation, plan: Option<Plan>, o: SaveOutcome)
    requires Held(w, inv) && AllTracked(w) && OnProceed(w, inv, plan, o).Some?
    ensures AllTracked(OnProceed(w, inv, plan, o).value)
  {
    hide Inv, TrackedRun, L.SetPlanRun, CloseExecute, GoesOn, StopsWith;
    if inv.pc.step.Simulate? && inv.mem.Find(Execute).Some? {
      match GoesOn(inv.pc.said, inv.pc.a)
      case Some(token) => SetPlanRunTracked(w, inv, plan, token, o, Asking(Some(PlanTokenDocument(token)), true));
      case None =>
        CloseTracked(w, inv, o);
        ReportingTracked(CloseExecute(w, inv, o).value, StopsWith(inv.pc.said));
    }
  }

  /** A decline, at the prompt or by `runs decline`. */
  lemma DeclineRunTracked(w: World, inv: Invocation, o: SaveOutcome)
    requires Held(w, inv) && !inv.pc.Ended? && AllTracked(w)
    ensures match L.DeclineRun(inv.mem, Execute)
      case Success(Some(r)) => AllTracked(CommitRun(w, inv, Success(r), o, Ended).value)
      case _ => true
  {
    MemTracked(w, inv);
    hide Inv, TrackedRun, L.DeclineRun;
    match L.DeclineRun(inv.mem, Execute)
    case Success(Some(r)) =>
      DeclineTracked(inv.mem);
      CommitTracked(w, inv, Success(r), r, o, Ended);
    case _ =>
  }

  lemma ScrubRunTracked(w: World, inv: Invocation, now: int, o: SaveOutcome)
    requires Held(w, inv) && AllTracked(w) && OnScrub(w, inv, now, o).Some?
    ensures AllTracked(OnScrub(w, inv, now, o).value)
  {
    MemTracked(w, inv);
    hide Inv, TrackedRun, L.ScrubRun;
    ScrubTracked(inv.mem, now);
    CommitTracked(w, inv, Success(L.ScrubRun(inv.mem, now)), L.ScrubRun(inv.mem, now), o, Ended);
  }

  lemma ApplyHeldTracked(w: World, inv: Invocation, e: Event)
    requires Held(w, inv) && AllTracked(w) && ApplyHeld(w, inv, e).Some?
    ensures AllTracked(ApplyHeld(w, inv, e).value)
  {
    hide Inv, TrackedRun, OnAsk, OnBegin, OnRecord, OnCloseOn202, OnFollowUp, OnProceed, OnScrub, L.DeclineRun;
    match e
    case Ask(o) => AskTracked(w, inv, o);
    case ReadLine(prompt, o) =>
      if inv.pc.Prompted? {
        DeclineRunTracked(w, inv, o);
      }
    case Begin(o) => BeginRunTracked(w, inv, o);
    case RecordAnswer(structural, o) => AnswerTracked(w, inv, structural, o);
    case CloseOn202(o) => CloseOn202Tracked(w, inv, o);
    case FollowUp(poll, structural, o) => FollowUpTracked(w, inv, poll, structural, o);
    case Proceed(plan, o) => ProceedTracked(w, inv, plan, o);
    case DeclineRun(o) =>
      if inv.pc.Maintaining? {
        DeclineRunTracked(w, inv, o);
      }
    case ScrubRun(now, o) => ScrubRunTracked(w, inv, now, o);
    case _ =>
  }

  lemma CreateTracked(w: World, flow: Flow, opts: Options, r: Run, o: SaveOutcome)
    requires AllTracked(w) && OnCreate(w, flow, opts, r, o).Some?
    ensures AllTracked(OnCreate(w, flow, opts, r, o).value)
  {
    NewRunGood(flow, r);
  }

  lemma ApplyTracked(w: World, e: Event)
    requires Inv(w) && AllTracked(w) && Apply(w, e).Some?
    ensures AllTracked(Apply(w, e).value)
  {
    assert w.store.Valid();
    hide Inv, TrackedRun, ApplyHeld, OnCreate;
    match e
    case Create(flow, opts, run, o) => CreateTracked(w, flow, opts, run, o);
    case Open(flow, opts) =>
    case DirFsync =>
    case PowerCut(back) =>
    case _ => ApplyHeldTracked(w, w.holder.value, e);
  }

  lemma {:induction false} PlayTracked(w: World, events: seq<Event>)
    requires Inv(w) && AllTracked(w) && Play(w, events).Some?
    ensures AllTracked(Play(w, events).value)
    decreases |events|
  {
    hide Inv, AllTracked, Apply;
    if events != [] {
      ApplyTracked(w, events[0]);
      ApplyKeeps(w, events[0]);
      PlayTracked(Apply(w, events[0]).value, events[1..]);
    }
  }

  /**
   In every version of every history, a step whose request may have left is either
   done, with its outcome, or unresolved: the orphan check stops at its run, and a
   resume has something to act on.
   */
  lemma OpenIsUnresolved(events: seq<Event>, w: World, r: Run, name: StepName)
    requires Play(Start(), events) == Some(w) && Some(r) in w.store.recoverable
    requires r.Find(name).Some? && r.Find(name).value.state in {State.Pending, State.Answered}
    ensures r.Find(name).value.Unresolved() && r.HasUnresolved() && !r.Prunable()
    ensures Resumable(r.steps).Some?
  {
    PlayTracked(Start(), events);
    hide Play, Tracked, TrackedRun;
    StepOpen(r, name);
  }

  lemma StepOpen(r: Run, name: StepName)
    requires TrackedRun(r) && r.Find(name).Some? && r.Find(name).value.state in {State.Pending, State.Answered}
    ensures r.Find(name).value.Unresolved() && r.HasUnresolved() && !r.Prunable()
    ensures Resumable(r.steps).Some?
  {
    var s := r.Find(name).value;
    assert Tracked(s) && s in r.steps;
    UnresolvedIsResumable(r.steps, true, s);
    PrunableIff(r);
  }

  // ---------- And a resume finds it ----------

  /** A resume has something to do on step `i`: it is unresolved, or its plan is waiting behind an earlier step. */
  ghost predicate Acts(steps: seq<Step>, i: int, first: bool) {
    0 <= i < |steps| &&
      (steps[i].Unresolved() || (steps[i].state == NotStarted && (i > 0 || !first) && steps[i].HasPlanToken()))
  }

  /** It acts on the first such step, and does nothing exactly when there is none. */
  lemma {:induction false} ResumesTheFirst(steps: seq<Step>, first: bool)
    ensures match Resumable(steps, first)
      case Some(s) => exists i :: Acts(steps, i, first) && s == steps[i] && forall j :: 0 <= j < i ==>
        !Acts(steps, j, first)
      case None => forall i :: !Acts(steps, i, first)
  {
    if steps != [] {
      var rest := steps[1..];
      ResumesTheFirst(rest, false);
      forall i: int
        ensures i >= 0 ==> (Acts(rest, i, false) <==> Acts(steps, i + 1, first))
      {
      }
      if Acts(steps, 0, first) {
        assert Resumable(steps, first) == Some(steps[0]);
      } else if Resumable(rest, false).Some? {
        var i :| Acts(rest, i, false) && Resumable(rest, false).value == rest[i] && forall j :: 0 <= j < i ==>
          !Acts(rest, j, false);
        assert Acts(steps, i + 1, first);
        forall j | 0 <= j < i + 1
          ensures !Acts(steps, j, first)
        {
          assert j > 0 ==> !Acts(rest, j - 1, false);
        }
      } else {
        forall j: int
          ensures !Acts(steps, j, first)
        {
          assert j > 0 ==> !Acts(rest, j - 1, false);
        }
      }
    }
  }
}
