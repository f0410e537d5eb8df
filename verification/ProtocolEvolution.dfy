/**
 What no history undoes: along every crash, resume and power cut, a step keeps its
 name, its key and any body it has, and one that may have been sent stays so.
 */
module ProtocolEvolution {
  import opened Wrappers
  import opened DurableStore
  import opened Records
  import opened Protocol
  import opened ProtocolSafety
  import opened ProtocolSteps
  import L = Ledger
  import A = Api

  /** Every version that can be recovered evolves this one. */
  ghost predicate Since(base: Run, w: World) {
    forall r :: Some(r) in w.store.recoverable ==> L.RunEvolves(base, r)
  }

  lemma EvolvesOn(base: Run, r: Run, r': Run)
    requires L.RunEvolves(base, r) && L.RunEvolves(r, r')
    ensures L.RunEvolves(base, r')
  {
    forall i | 0 <= i < |base.steps|
      ensures L.Evolves(base.steps[i], r'.steps[i])
    {
      assert L.Evolves(base.steps[i], r.steps[i]) && L.Evolves(r.steps[i], r'.steps[i]);
    }
  }

  lemma CommitSince(base: Run, w: World, inv: Invocation, next: L.RunResult, kept: Run, o: SaveOutcome, pc: Pc)
    requires Since(base, w) && w.store.Valid() && w.store.current == Some(inv.mem)
    requires next.Success? ==> L.RunEvolves(inv.mem, next.value)
    ensures Since(base, Commit(w, inv, next, kept, o, pc).value)
  {
    assert Some(inv.mem) in w.store.recoverable;
    if next.Success? {
      EvolvesOn(base, inv.mem, next.value);
    }
  }

  lemma AskSince(base: Run, w: World, inv: Invocation, o: SaveOutcome)
    requires Held(w, inv) && Since(base, w) && OnAsk(w, inv, o).Some?
    ensures Since(base, OnAsk(w, inv, o).value)
  {
    MemIsGood(w, inv);
    var next := L.AwaitRun(inv.mem, Execute);
    if next.Success? {
      AwaitGood(w, inv.mem);
    }
    CommitSince(base, w, inv, next, Taken(next, inv.mem), o, Prompted(inv.pc.body, inv.pc.selfConsent));
  }

  lemma DeclineSince(base: Run, w: World, inv: Invocation, o: SaveOutcome)
    requires Held(w, inv) && !inv.pc.Ended? && Since(base, w)
    ensures match L.DeclineRun(inv.mem, Execute)
      case Success(Some(r)) => Since(base, CommitRun(w, inv, Success(r), o, Ended).value)
      case _ => true
  {
    MemIsGood(w, inv);
    match L.DeclineRun(inv.mem, Execute)
    case Success(Some(r)) =>
      DeclineGood(w, inv.mem, r);
      CommitSince(base, w, inv, Success(r), r, o, Ended);
    case _ =>
  }

  lemma BeginSince(base: Run, w: World, inv: Invocation, o: SaveOutcome)
    requires Held(w, inv) && Since(base, w) && OnBegin(w, inv, o).Some?
    ensures Since(base, OnBegin(w, inv, o).value)
  {
    MemIsGood(w, inv);
    var next := L.BeginRun(inv.mem, inv.pc.step, inv.pc.body);
    if next.Success? {
      match inv.pc.step
      case Simulate => BeginSimulateGood(w, inv.mem, inv.pc.body);
      case Execute => BeginExecuteGood(w, inv.mem, inv.pc.body);
    }
    CommitSince(base, w, inv, next, L.BegunKept(inv.mem, inv.pc.step, inv.pc.body), o, Begun(inv.pc.step));
  }

  lemma RecordSince(base: Run, w: World, inv: Invocation, structural: Option<string>, o: SaveOutcome)
    requires Held(w, inv) && Since(base, w) && OnRecord(w, inv, structural, o).Some?
    ensures Since(base, OnRecord(w, inv, structural, o).value)
  {
    MemIsGood(w, inv);
    var step, a := inv.pc.step, inv.pc.a;
    RecordGood(w, inv.mem, step, Recordable(a), structural, A.ClassifyAnswer(a));
    var next := L.RecordRun(inv.mem, step, Recordable(a), structural, LedgerOutcomeOf(A.ClassifyAnswer(a)));
    CommitSince(base, w, inv, next, next.value, o, Recorded(step, a));
  }

  lemma FollowUpSince(base: Run, w: World, inv: Invocation, poll: Poll, structural: Option<string>, o: SaveOutcome)
    requires Held(w, inv) && Since(base, w) && OnFollowUp(w, inv, poll, structural, o).Some?
    ensures Since(base, OnFollowUp(w, inv, poll, structural, o).value)
  {
    if A.PollTarget(inv.pc.a).Some? && !inv.opts.noWait && poll.command.Some? {
      MemIsGood(w, inv);
      FollowedIsAnswered(w, inv);
      RecordGood(w, inv.mem, inv.pc.step, Some(poll.response), structural, poll.Said().Class());
      var next := L.RecordRun(inv.mem, inv.pc.step, Some(poll.response), structural,
        LedgerOutcomeOf(poll.Said().Class()));
      CommitSince(base, w, inv, next, next.value, o, Performed(inv.pc.step, poll.Said(), inv.pc.a));
    }
  }

  lemma UnreachableSince(base: Run, w: World, inv: Invocation, o: SaveOutcome, pc: Pc)
    requires Held(w, inv) && !inv.pc.Ended? && Since(base, w)
    ensures Since(base, CommitRun(w, inv, L.UnreachableRun(inv.mem, Execute), o, pc).value)
  {
    MemIsGood(w, inv);
    var next := L.UnreachableRun(inv.mem, Execute);
    if next.Success? {
      UnreachableGood(w, inv.mem);
    }
    CommitSince(base, w, inv, next, Taken(next, inv.mem), o, pc);
  }

  lemma SetPlanSince(base: Run, w: World, inv: Invocation, plan: Option<Plan>, token: string, o: SaveOutcome)
    requires Held(w, inv) && inv.pc.Performed? && inv.pc.step.Simulate?
    requires GoesOn(inv.pc.said, inv.pc.a) == Some(token) && Since(base, w)
    ensures Since(base, CommitRun(w, inv, L.SetPlanRun(inv.mem, Execute, plan, token), o,
      Asking(Some(PlanTokenDocument(token)), true)).value)
  {
    MemIsGood(w, inv);
    MayGoOn(w, inv, token);
    var next := L.SetPlanRun(inv.mem, Execute, plan, token);
    if next.Success? {
      SetPlanGood(w, inv.mem, plan, token);
    }
    CommitSince(base, w, inv, next, Taken(next, inv.mem), o, Asking(Some(PlanTokenDocument(token)), true));
  }

  lemma CloseSince(base: Run, w: World, inv: Invocation, o: SaveOutcome)
    requires Held(w, inv) && !inv.pc.Ended? && Since(base, w) && inv.mem.Find(Execute).Some?
    ensures CloseExecute(w, inv, o).Some? && Since(base, CloseExecute(w, inv, o).value)
  {
    UnreachableSince(base, w, inv, o, Ended);
  }

  lemma ProceedSince(base: Run, w: World, inv: Invocation, plan: Option<Plan>, o: SaveOutcome)
    requires Held(w, inv) && Since(base, w) && OnProceed(w, inv, plan, o).Some?
    ensures Since(base, OnProceed(w, inv, plan, o).value)
  {
    if inv.pc.step.Simulate? && inv.mem.Find(Execute).Some? {
      match GoesOn(inv.pc.said, inv.pc.a)
      case Some(token) => SetPlanSince(base, w, inv, plan, token, o);
      case None => CloseSince(base, w, inv, o);
    }
  }

  lemma ScrubSince(base: Run, w: World, inv: Invocation, now: int, o: SaveOutcome)
    requires Held(w, inv) && Since(base, w) && OnScrub(w, inv, now, o).Some?
    ensures Since(base, OnScrub(w, inv, now, o).value)
  {
    MemIsGood(w, inv);
    ScrubGood(w, inv.mem, now);
    CommitSince(base, w, inv, Success(L.ScrubRun(inv.mem, now)), L.ScrubRun(inv.mem, now), o, Ended);
  }

  lemma ApplyHeldSince(base: Run, w: World, inv: Invocation, e: Event)
    requires Held(w, inv) && Since(base, w) && ApplyHeld(w, inv, e).Some?
    ensures Since(base, ApplyHeld(w, inv, e).value)
  {
    hide OnBegin, OnRecord, OnFollowUp, OnProceed, OnScrub;
    match e
    case Ask(o) => AskSince(base, w, inv, o);
    case ReadLine(prompt, o) => DeclineSince(base, w, inv, o);
    case Begin(o) => BeginSince(base, w, inv, o);
    case RecordAnswer(structural, o) => RecordSince(base, w, inv, structural, o);
    case CloseOn202(o) => UnreachableSince(base, w, inv, o, Following(inv.pc.step, inv.pc.a));
    case FollowUp(poll, structural, o) => FollowUpSince(base, w, inv, poll, structural, o);
    case Proceed(plan, o) => ProceedSince(base, w, inv, plan, o);
    case DeclineRun(o) => DeclineSince(base, w, inv, o);
    case ScrubRun(now, o) => ScrubSince(base, w, inv, now, o);
    case _ =>
  }

  lemma ApplySince(base: Run, w: World, e: Event)
    requires Inv(w) && w.minted.Some? && Since(base, w) && Apply(w, e).Some?
    ensures Since(base, Apply(w, e).value)
  {
    match e
    case Create(flow, opts, run, o) =>
    case Open(flow, opts) =>
    case DirFsync =>
    case PowerCut(back) =>
    case _ =>
      hide ApplyHeld;
      ApplyHeldSince(base, w, w.holder.value, e);
  }

  /** A run is minted once. */
  lemma MintedOnce(w: World, e: Event)
    requires Apply(w, e).Some? && w.minted.Some?
    ensures Apply(w, e).value.minted == w.minted
  {
    hide L.AwaitRun, L.BeginRun, L.BegunKept, L.RecordRun, L.UnreachableRun, L.SetPlanRun, L.ScrubRun, L.DeclineRun,
      GoesOn, StopsWith, Resumable;
  }

  /** And its first versions are itself. */
  lemma MintedNow(w: World, e: Event)
    requires Inv(w) && Apply(w, e).Some? && w.minted.None?
    ensures var w' := Apply(w, e).value; w'.minted.Some? ==> Since(w'.minted.value, w')
  {
  }

  lemma {:induction false} PlaySince(base: Run, w: World, events: seq<Event>)
    requires Inv(w) && w.minted.Some? && Since(base, w) && Play(w, events).Some?
    ensures Since(base, Play(w, events).value)
    decreases |events|
  {
    if events != [] {
      ApplySince(base, w, events[0]);
      MintedOnce(w, events[0]);
      ApplyKeeps(w, events[0]);
      PlaySince(base, Apply(w, events[0]).value, events[1..]);
    }
  }

  // ---------- The theorems ----------

  /**
   From any point where one version is durable, every version of the record that
   can be recovered later evolves it: the same steps under the same keys, no body
   changed once set, and no step that may have been sent ever read otherwise.
   */
  lemma DurableIsNeverUndone(base: Run, w: World, events: seq<Event>, w': World)
    requires Inv(w) && w.minted.Some? && w.store.Durable(base) && Play(w, events) == Some(w')
    ensures forall r :: Some(r) in w'.store.recoverable ==> L.RunEvolves(base, r)
  {
    PlaySince(base, w, events);
  }

  /**
   Along every history from the start, every version is an evolution of the run as it
   was minted: its keys never change.
   */
  lemma {:induction false} MintedIsNeverUndone(w: World, events: seq<Event>, w': World)
    requires Inv(w) && Play(w, events) == Some(w')
    requires w.minted.Some? ==> Since(w.minted.value, w)
    ensures w'.minted.Some? ==> Since(w'.minted.value, w')
    decreases |events|
  {
    if events != [] {
      var w1 := Apply(w, events[0]).value;
      ApplyKeeps(w, events[0]);
      if w.minted.Some? {
        ApplySince(w.minted.value, w, events[0]);
        MintedOnce(w, events[0]);
      } else {
        MintedNow(w, events[0]);
      }
      MintedIsNeverUndone(w1, events[1..], w');
    }
  }

  /** So the keys a run was created with are its keys in every version there ever is. */
  lemma KeysNeverChange(events: seq<Event>, w: World, r: Run, name: StepName)
    requires Play(Start(), events) == Some(w) && Some(r) in w.store.recoverable && r.Find(name).Some?
    ensures w.minted.Some? && w.minted.value.Find(name).Some?
    ensures r.Find(name).value.key == w.minted.value.Find(name).value.key
  {
    MintedIsNeverUndone(Start(), events, w);
    PlayKeeps(Start(), events);
    L.EvolvesByName(w.minted.value, r, name);
  }

  /** So a step's digest, and with it the bytes every later request carries, is fixed by the first begin that lasts. */
  lemma BodyIsFixed(base: Run, w: World, events: seq<Event>, w': World, r: Run, name: StepName)
    requires Inv(w) && w.minted.Some? && w.store.Durable(base) && Play(w, events) == Some(w')
    requires Some(r) in w'.store.recoverable
    requires base.Find(name).Some?
    ensures r.Find(name).Some? && r.Find(name).value.key == base.Find(name).value.key
    ensures base.Find(name).value.body.Some? ==> r.Find(name).value.body == base.Find(name).value.body
    ensures base.Find(name).value.state.MayHaveSent() ==> r.Find(name).value.state.MayHaveSent()
  {
    DurableIsNeverUndone(base, w, events, w');
    L.EvolvesByName(base, r, name);
  }
}
