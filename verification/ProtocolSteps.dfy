/** Every event of the send protocol keeps the invariant of `ProtocolSafety`. */
module ProtocolSteps {
  import opened Wrappers
  import opened DurableStore
  import opened Records
  import opened Protocol
  import opened ProtocolSafety
  import L = Ledger
  import O = Outcomes
  import A = Api
  import C = Consent
  import E = Exit

  ghost predicate Held(w: World, inv: Invocation) {
    Inv(w) && w.holder == Some(inv)
  }

  // ---------- Moving without writing ----------

  /** Only the holder changes, and it is well where it goes. */
  lemma HoldKeeps(w: World, inv: Invocation)
    requires Inv(w) && w.minted.Some?
    requires (inv.left ==> inv.flag) && (inv.flow.Maintain? ==> !inv.flag && (inv.pc.Maintaining? || inv.pc.Ended?))
    requires w.store.current.Some? && (!inv.pc.Ended? ==> w.store.current == Some(inv.mem)) && AtPc(w, inv)
    ensures Inv(Hold(w, inv))
  {
    SameRecorded(w, Hold(w, inv));
    SameAtPc(w, Hold(w, inv), inv);
  }

  lemma MemIsGood(w: World, inv: Invocation)
    requires Held(w, inv) && !inv.pc.Ended?
    ensures Good(w, inv.mem) && w.store.current == Some(inv.mem)
  {
    assert Some(inv.mem) in w.store.recoverable;
  }

  /** Awaiting confirmation after a settled simulate keeps the gate. */
  lemma AwaitGood(w: World, m: Run)
    requires Good(w, m) && SimSettled(m) && L.AwaitRun(m, Execute).Success?
    ensures Good(w, L.AwaitRun(m, Execute).value) && L.RunEvolves(m, L.AwaitRun(m, Execute).value)
    ensures SimSettled(L.AwaitRun(m, Execute).value)
    ensures Both(L.AwaitRun(m, Execute).value) ==> Both(m)
  {
    var s := m.Find(Execute).value;
    L.AwaitKeeps(s);
    ReplaceKeepsGood(w, m, L.AwaitStep(s).value);
  }

  lemma PromptKeeps(w: World, inv: Invocation, o: SaveOutcome)
    requires Held(w, inv) && inv.pc.Asking?
    ensures Inv(CommitRun(w, inv, L.AwaitRun(inv.mem, Execute), o, Prompted(inv.pc.body, inv.pc.selfConsent)).value)
  {
    MemIsGood(w, inv);
    var next := L.AwaitRun(inv.mem, Execute);
    if next.Success? {
      AwaitGood(w, inv.mem);
    }
    CommitKeeps(w, inv, next, Taken(next, inv.mem), o, Prompted(inv.pc.body, inv.pc.selfConsent));
  }

  lemma AskKeeps(w: World, inv: Invocation, o: SaveOutcome)
    requires Held(w, inv) && OnAsk(w, inv, o).Some?
    ensures Inv(OnAsk(w, inv, o).value)
  {
    MemIsGood(w, inv);
    var evidence := Evidence(RequestFor(inv, inv.pc.selfConsent), NO_PROMPT);
    if evidence.Verdict().Granted? {
      HoldKeeps(w, inv.(consent := Some(evidence), pc := Ready(Execute, inv.pc.body)));
    } else if !inv.opts.tty {
      HoldKeeps(w, inv.(pc := Ended));
    } else {
      PromptKeeps(w, inv, o);
    }
  }

  lemma ReadLineKeeps(w: World, inv: Invocation, prompt: C.Prompt, o: SaveOutcome)
    requires Held(w, inv) && OnReadLine(w, inv, prompt, o).Some?
    ensures Inv(OnReadLine(w, inv, prompt, o).value)
  {
    MemIsGood(w, inv);
    var evidence := Evidence(RequestFor(inv, inv.pc.selfConsent), prompt);
    match evidence.Verdict()
    case Granted => HoldKeeps(w, inv.(consent := Some(evidence), pc := Ready(Execute, inv.pc.body)));
    case Declined => DeclineRunKeeps(w, inv, o);
    case _ => HoldKeeps(w, inv.(pc := Ended));
  }

  lemma DeclineGood(w: World, m: Run, r: Run)
    requires Good(w, m) && L.DeclineRun(m, Execute) == Success(Some(r))
    ensures Good(w, r) && L.RunEvolves(m, r)
  {
    var s := m.Find(Execute).value;
    L.DeclineKeeps(s);
    ReplaceKeepsGood(w, m, L.DeclineStep(s).value.value);
  }

  /** A decline, at the prompt or by `runs decline`. */
  lemma DeclineRunKeeps(w: World, inv: Invocation, o: SaveOutcome)
    requires Held(w, inv) && !inv.pc.Ended?
    ensures match L.DeclineRun(inv.mem, Execute)
      case Success(Some(r)) => Inv(CommitRun(w, inv, Success(r), o, Ended).value)
      case _ => Inv(Hold(w, inv.(pc := Ended)))
  {
    MemIsGood(w, inv);
    match L.DeclineRun(inv.mem, Execute)
    case Success(Some(r)) =>
      DeclineGood(w, inv.mem, r);
      CommitKeeps(w, inv, Success(r), r, o, Ended);
    case _ => HoldKeeps(w, inv.(pc := Ended));
  }

  lemma DeclineEventKeeps(w: World, inv: Invocation, o: SaveOutcome)
    requires Held(w, inv) && OnDecline(w, inv, o).Some?
    ensures Inv(OnDecline(w, inv, o).value)
  {
    DeclineRunKeeps(w, inv, o);
  }

  /** The step a resume picks is found under its name and, if an execute, its simulate has settled. */
  lemma {:induction false} ResumableIn(steps: seq<Step>, first: bool)
    ensures var s := Resumable(steps, first);
      s.Some? ==> s.value in steps && (s.value.Unresolved() || (s.value.state.NotStarted? && s.value.HasPlanToken()))
  {
    if steps != [] {
      ResumableIn(steps[1..], false);
    }
  }

  lemma ResumableIsFound(w: World, m: Run)
    requires Good(w, m) && Resumable(m.steps).Some?
    ensures m.Find(Resumable(m.steps).value.name) == Resumable(m.steps)
    ensures Resumable(m.steps).value.name.Execute? ==> SimSettled(m)
  {
    ResumableIn(m.steps, true);
    var s := Resumable(m.steps).value;
    var i :| 0 <= i < |m.steps| && m.steps[i] == s;
    FindByIndex(m.steps, i);
  }

  lemma DecideAt(w: World, inv: Invocation)
    requires Good(w, inv.mem)
    ensures AtPc(w, inv.(pc := Resuming(inv.mem)))
  {
    if Resumable(inv.mem.steps).Some? {
      ResumableIsFound(w, inv.mem);
    }
  }

  lemma DecideKeeps(w: World, inv: Invocation)
    requires Held(w, inv) && OnDecide(w, inv).Some?
    ensures Inv(OnDecide(w, inv).value)
  {
    MemIsGood(w, inv);
    DecideAt(w, inv);
    HoldKeeps(w, inv.(pc := Resuming(inv.mem)));
  }

  // ---------- Before anything is sent ----------

  lemma BeginSimulateGood(w: World, m: Run, body: Option<RequestBody>)
    requires Good(w, m) && L.BeginRun(m, Simulate, body).Success?
    ensures var r := L.BeginRun(m, Simulate, body).value;
      Good(w, r) && L.RunEvolves(m, r) && r.Find(Simulate).Some? && r.Find(Simulate).value.state.Pending?
  {
    var s := m.Find(Simulate).value;
    L.BeginKeeps(s, body);
    ReplaceKeepsGood(w, m, L.BeginStep(s, body).value);
  }

  lemma BeginExecuteGood(w: World, m: Run, body: Option<RequestBody>)
    requires Good(w, m) && L.BeginRun(m, Execute, body).Success?
    requires SimSettled(m) && (Both(m) && body.Some? ==> FromIssued(w.issued, body.value))
    ensures var r := L.BeginRun(m, Execute, body).value;
      Good(w, r) && L.RunEvolves(m, r) && r.Find(Execute).Some? && r.Find(Execute).value.state.Pending?
  {
    var s := m.Find(Execute).value;
    L.BeginKeeps(s, body);
    ReplaceKeepsGood(w, m, L.BeginStep(s, body).value);
  }

  /** A step that is pending on disk is in flight. */
  lemma BegunKeeps(w: World, inv: Invocation, r: Run, kept: Run, o: SaveOutcome)
    requires Held(w, inv) && inv.pc.Ready? && Good(w, r) && L.RunEvolves(inv.mem, r)
    requires r.Find(inv.pc.step).Some? && r.Find(inv.pc.step).value.state.Pending?
    ensures Inv(Commit(w, inv, Success(r), kept, o, Begun(inv.pc.step)).value)
  {
    hide Consented, LedgerWell, Good, SimSettled, BodyFromIssued;
    CommitKeeps(w, inv, Success(r), kept, o, Begun(inv.pc.step));
  }

  lemma BeginRefusedKeeps(w: World, inv: Invocation, o: SaveOutcome)
    requires Held(w, inv) && inv.pc.Ready? && L.BeginRun(inv.mem, inv.pc.step, inv.pc.body).Failure?
    ensures Inv(OnBegin(w, inv, o).value)
  {
    StopKeeps(w, inv);
  }

  lemma BeginSimulateKeeps(w: World, inv: Invocation, o: SaveOutcome)
    requires Held(w, inv) && inv.pc.Ready? && inv.pc.step.Simulate?
    requires L.BeginRun(inv.mem, Simulate, inv.pc.body).Success?
    ensures Inv(OnBegin(w, inv, o).value)
  {
    MemIsGood(w, inv);
    BeginSimulateGood(w, inv.mem, inv.pc.body);
    var r := L.BeginRun(inv.mem, Simulate, inv.pc.body).value;
    BegunKeeps(w, inv, r, L.BegunKept(inv.mem, Simulate, inv.pc.body), o);
  }

  lemma BeginExecuteKeeps(w: World, inv: Invocation, o: SaveOutcome)
    requires Held(w, inv) && inv.pc.Ready? && inv.pc.step.Execute?
    requires L.BeginRun(inv.mem, Execute, inv.pc.body).Success?
    ensures Inv(OnBegin(w, inv, o).value)
  {
    MemIsGood(w, inv);
    BeginExecuteGood(w, inv.mem, inv.pc.body);
    var r := L.BeginRun(inv.mem, Execute, inv.pc.body).value;
    BegunKeeps(w, inv, r, L.BegunKept(inv.mem, Execute, inv.pc.body), o);
  }

  lemma BeginKeeps(w: World, inv: Invocation, o: SaveOutcome)
    requires Held(w, inv) && inv.pc.Ready?
    ensures OnBegin(w, inv, o).Some? && Inv(OnBegin(w, inv, o).value)
  {
    assert OnBegin(w, inv, o).Some?;
    hide OnBegin, L.BeginRun;
    if L.BeginRun(inv.mem, inv.pc.step, inv.pc.body).Failure? {
      BeginRefusedKeeps(w, inv, o);
    } else {
      match inv.pc.step
      case Simulate => BeginSimulateKeeps(w, inv, o);
      case Execute => BeginExecuteKeeps(w, inv, o);
    }
  }

  lemma MarkKeeps(w: World, inv: Invocation)
    requires Held(w, inv) && OnMark(w, inv).Some?
    ensures Inv(OnMark(w, inv).value)
  {
    HoldKeeps(w, inv.(flag := true, pc := Sending(inv.pc.step, 0)));
  }

  // ---------- The exchange ----------

  lemma SentIsWell(w: World, inv: Invocation)
    requires Held(w, inv) && OnSend(w, inv).Some?
    ensures var w' := OnSend(w, inv).value;
      var q := w'.wire[|w.wire|];
      && w'.wire == w.wire + [q] && q.step == inv.pc.step
      && SentWell(w, q) && Holds(inv.mem, q)
  {
    MemIsGood(w, inv);
    assert w.minted.Some? && SameKeys(w.minted.value, inv.mem);
  }

  lemma SendRecorded(w: World, inv: Invocation, q: Sent)
    requires LedgerWell(w) && w.store.Durable(inv.mem) && Holds(inv.mem, q) && SentWell(w, q)
    ensures LedgerWell(w.(wire := w.wire + [q]))
  {
    var w' := w.(wire := w.wire + [q]);
    forall q' | q' in w'.wire
      ensures SentWell(w', q') && Holds(inv.mem, q')
    {
      assert q' == q || q' in w.wire;
      assert SentWell(w, q');
    }
    forall r | Some(r) in w'.store.recoverable ensures Good(w', r) { assert Good(w, r); }
    assert WriteAhead(w');
  }

  lemma SendKeeps(w: World, inv: Invocation)
    requires Held(w, inv) && OnSend(w, inv).Some?
    ensures Inv(OnSend(w, inv).value)
  {
    var w' := OnSend(w, inv).value;
    SentIsWell(w, inv);
    var q := w'.wire[|w.wire|];
    var sent := w.(wire := w.wire + [q]);
    SendRecorded(w, inv, q);
    SameRecorded(sent, w');
  }

  /** What holds under the tokens issued so far holds when another is issued. */
  lemma IssuingKeeps(w: World, issued: set<string>)
    requires LedgerWell(w) && w.issued <= issued
    ensures LedgerWell(w.(issued := issued))
  {
    var w' := w.(issued := issued);
    forall r | Some(r) in w'.store.recoverable ensures Good(w', r) { assert Good(w, r); }
    forall q | q in w'.wire ensures SentWell(w', q) { assert SentWell(w, q); }
  }

  lemma AnswerKeeps(w: World, inv: Invocation, a: A.Answer)
    requires Held(w, inv) && OnAnswer(w, inv, a).Some?
    ensures Inv(OnAnswer(w, inv, a).value)
  {
    var w' := OnAnswer(w, inv, a).value;
    IssuingKeeps(w, w'.issued);
    SameRecorded(w.(issued := w'.issued), w');
  }

  /** Recording over a step in flight; a simulate that is already terminal is never recorded over. */
  lemma RecordGood(w: World, m: Run, step: StepName, resp: Option<Response>, structural: Option<string>, c: O.Class)
    requires Good(w, m) && m.Find(step).Some? && m.Find(step).value.state.MayHaveSent()
    requires step.Simulate? ==> !m.Find(step).value.state.Terminal?
    ensures var r := L.RecordRun(m, step, resp, structural, LedgerOutcomeOf(c)).value;
      Good(w, r) && L.RunEvolves(m, r) && r.Find(step).Some? && r.Find(step).value.state == StateAfter(c)
      && r.Find(step).value.outcome == LedgerOutcomeOf(c) && (step.Simulate? ==> Clean(r))
  {
    var s := m.Find(step).value;
    var s' := L.RecordStep(s, resp, structural, LedgerOutcomeOf(c));
    L.RecordKeeps(s, resp, structural, LedgerOutcomeOf(c));
    RecordTakes(s, resp, structural, c);
    RecordRespectsGate(w, m, s');
    ReplaceKeepsGood(w, m, s');
  }

  lemma RecordTakes(s: Step, resp: Option<Response>, structural: Option<string>, c: O.Class)
    ensures var s' := L.RecordStep(s, resp, structural, LedgerOutcomeOf(c));
      s'.name == s.name && s'.state == StateAfter(c) && s'.outcome == LedgerOutcomeOf(c)
      && s'.body == s.body && (s'.planToken.Some? ==> s.planToken.Some?) &&
        (s'.HasPlanToken() ==> s'.planToken == s.planToken)
      && !s'.state.AwaitingConfirmation? && !s'.state.Refused()
  {
  }

  lemma RecordRespectsGate(w: World, m: Run, s': Step)
    requires Good(w, m) && m.Find(s'.name).Some? && m.Find(s'.name).value.state.MayHaveSent()
    requires var s := m.Find(s'.name).value;
      && (s.name.Simulate? ==> !s.state.Terminal?)
      && s'.body == s.body && (s'.planToken.Some? ==> s.planToken.Some?) &&
        (s'.HasPlanToken() ==> s'.planToken == s.planToken)
    ensures Both(m) ==>
      Gate(w.issued,
        if s'.name.Simulate? then s' else m.Find(Simulate).value,
        if s'.name.Execute? then s' else m.Find(Execute).value)
    ensures s'.name.Simulate? ==> Clean(m)
  {
  }

  lemma RecordKeeps(w: World, inv: Invocation, structural: Option<string>, o: SaveOutcome)
    requires Held(w, inv) && OnRecord(w, inv, structural, o).Some?
    ensures Inv(OnRecord(w, inv, structural, o).value)
  {
    MemIsGood(w, inv);
    var step, a := inv.pc.step, inv.pc.a;
    var next := L.RecordRun(inv.mem, step, Recordable(a), structural, LedgerOutcomeOf(A.ClassifyAnswer(a)));
    RecordGood(w, inv.mem, step, Recordable(a), structural, A.ClassifyAnswer(a));
    CommitKeeps(w, inv, next, next.value, o, Recorded(step, a));
  }

  lemma UnreachableGood(w: World, m: Run)
    requires Good(w, m) && L.UnreachableRun(m, Execute).Success?
    ensures var r := L.UnreachableRun(m, Execute).value;
      Good(w, r) && L.RunEvolves(m, r) && r.Find(Simulate) == m.Find(Simulate) && (Clean(m) ==> Clean(r))
  {
    var s := m.Find(Execute).value;
    L.UnreachableKeeps(s);
    ReplaceKeepsGood(w, m, L.UnreachableStep(s).value);
  }

  /** The close at the end of an invocation. */
  lemma UnreachableCommitKeeps(w: World, inv: Invocation, o: SaveOutcome)
    requires Held(w, inv) && !inv.pc.Ended?
    ensures Inv(CommitRun(w, inv, L.UnreachableRun(inv.mem, Execute), o, Ended).value)
  {
    MemIsGood(w, inv);
    var next := L.UnreachableRun(inv.mem, Execute);
    if next.Success? {
      UnreachableGood(w, inv.mem);
    }
    hide L.UnreachableRun;
    CommitKeeps(w, inv, next, Taken(next, inv.mem), o, Ended);
  }

  /** A close that leaves the simulate as it was recorded. */
  lemma FollowingKeeps(w: World, inv: Invocation, r: Run, o: SaveOutcome)
    requires Held(w, inv) && inv.pc.Recorded? && inv.pc.step.Simulate? && Good(w, r) && L.RunEvolves(inv.mem, r)
    requires r.Find(Simulate) == inv.mem.Find(Simulate) && Clean(r)
    ensures Inv(CommitRun(w, inv, Success(r), o, Following(inv.pc.step, inv.pc.a)).value)
  {
    hide LedgerWell, Good, Clean, A.IsMoneyAnswer, A.FreshPlanToken, A.ClassifyAnswer;
    CommitKeeps(w, inv, Success(r), r, o, Following(inv.pc.step, inv.pc.a));
  }

  /** The close at a 202, after which the invocation goes on. */
  lemma AcceptedCommitKeeps(w: World, inv: Invocation, o: SaveOutcome)
    requires Held(w, inv) && inv.pc.Recorded? && inv.pc.step.Simulate?
    ensures Inv(CommitRun(w, inv, L.UnreachableRun(inv.mem, Execute), o, Following(inv.pc.step, inv.pc.a)).value)
  {
    hide Inv, LedgerWell, GoodFor, Clean, L.UnreachableRun;
    RecordedClean(w, inv);
    var next := L.UnreachableRun(inv.mem, Execute);
    if next.Success? {
      UnreachableGood(w, inv.mem);
      FollowingKeeps(w, inv, next.value, o);
    } else {
      StopKeeps(w, inv);
    }
  }

  lemma RecordedClean(w: World, inv: Invocation)
    requires Held(w, inv) && inv.pc.Recorded? && inv.pc.step.Simulate?
    ensures Good(w, inv.mem) && Clean(inv.mem)
  {
    MemIsGood(w, inv);
  }

  lemma CloseOn202Keeps(w: World, inv: Invocation, o: SaveOutcome)
    requires Held(w, inv) && OnCloseOn202(w, inv, o).Some?
    ensures Inv(OnCloseOn202(w, inv, o).value)
  {
    MemIsGood(w, inv);
    if inv.flow.CreateBroadcast? && inv.pc.step.Simulate? && inv.pc.a.status == 202 {
      AcceptedCommitKeeps(w, inv, o);
    } else {
      HoldKeeps(w, inv.(pc := Following(inv.pc.step, inv.pc.a)));
    }
  }

  lemma PerformedKeeps(w: World, inv: Invocation, r: Run, said: E.Source, o: SaveOutcome)
    requires Held(w, inv) && inv.pc.Following? && Good(w, r) && L.RunEvolves(inv.mem, r)
    requires RecordedAs(inv.(mem := r), inv.pc.step, said.Class()) && (inv.pc.step.Simulate? ==> Clean(r))
    ensures Inv(CommitRun(w, inv, Success(r), o, Performed(inv.pc.step, said, inv.pc.a)).value)
  {
    hide O.Classify, O.ClassifyCommand, A.IsMoneyAnswer, A.FreshPlanToken, Clean, Holds, GoodFor, SentFor;
    CommitKeeps(w, inv, Success(r), r, o, Performed(inv.pc.step, said, inv.pc.a));
  }

  /** The poll's record goes over an answer that was pending, whatever it says. */
  lemma RecordOverKeeps(
      w: World, inv: Invocation, resp: Response, structural: Option<string>, said: E.Source, o: SaveOutcome)
    requires Held(w, inv) && inv.pc.Following? && StateIs(inv, inv.pc.step, State.Answered)
    ensures var next := L.RecordRun(inv.mem, inv.pc.step, Some(resp), structural, LedgerOutcomeOf(said.Class()));
      Inv(CommitRun(w, inv, next, o, Performed(inv.pc.step, said, inv.pc.a)).value)
  {
    MemIsGood(w, inv);
    RecordGood(w, inv.mem, inv.pc.step, Some(resp), structural, said.Class());
    var next := L.RecordRun(inv.mem, inv.pc.step, Some(resp), structural, LedgerOutcomeOf(said.Class()));
    PerformedKeeps(w, inv, next.value, said, o);
  }

  lemma FollowedIsAnswered(w: World, inv: Invocation)
    requires Held(w, inv) && inv.pc.Following? && A.PollTarget(inv.pc.a).Some?
    ensures StateIs(inv, inv.pc.step, State.Answered) && A.ClassifyAnswer(inv.pc.a) == O.Pending
  {
    A.FollowedIsPending(inv.pc.a);
    assert StateAfter(O.Pending) == State.Answered;
  }

  /** The answer stands: nobody follows it, or nothing could be read. */
  lemma AnswerStands(w: World, inv: Invocation)
    requires Held(w, inv) && inv.pc.Following?
    ensures Inv(Hold(w, inv.(pc := Performed(inv.pc.step, E.OfAnswer(A.MoneyInput(inv.pc.a)), inv.pc.a))))
  {
    HoldKeeps(w, inv.(pc := Performed(inv.pc.step, E.OfAnswer(A.MoneyInput(inv.pc.a)), inv.pc.a)));
  }

  lemma NothingRead(w: World, inv: Invocation)
    requires Held(w, inv) && inv.pc.Following? && A.PollTarget(inv.pc.a).Some?
    ensures Inv(Hold(w, inv.(pc := Performed(inv.pc.step, E.NotEstablished, inv.pc.a))))
  {
    FollowedIsAnswered(w, inv);
    HoldKeeps(w, inv.(pc := Performed(inv.pc.step, E.NotEstablished, inv.pc.a)));
  }

  lemma FollowUpKeeps(w: World, inv: Invocation, poll: Poll, structural: Option<string>, o: SaveOutcome)
    requires Held(w, inv) && OnFollowUp(w, inv, poll, structural, o).Some?
    ensures Inv(OnFollowUp(w, inv, poll, structural, o).value)
  {
    if A.PollTarget(inv.pc.a).None? || inv.opts.noWait {
      AnswerStands(w, inv);
    } else if poll.command.None? {
      NothingRead(w, inv);
    } else {
      FollowedIsAnswered(w, inv);
      RecordOverKeeps(w, inv, poll.response, structural, poll.Said(), o);
    }
  }

  lemma SetPlanGood(w: World, m: Run, plan: Option<Plan>, token: string)
    requires Good(w, m) && SimSettled(m) && token in w.issued && L.SetPlanRun(m, Execute, plan, token).Success?
    ensures var r := L.SetPlanRun(m, Execute, plan, token).value;
      Good(w, r) && L.RunEvolves(m, r) && SimSettled(r)
  {
    var s := m.Find(Execute).value;
    L.SetPlanKeeps(s, plan, token);
    ReplaceKeepsGood(w, m, L.SetPlanStep(s, plan, token).value);
  }

  lemma MayGoOn(w: World, inv: Invocation, token: string)
    requires Held(w, inv) && inv.pc.Performed? && inv.pc.step.Simulate? && GoesOn(inv.pc.said, inv.pc.a) == Some(token)
    ensures SimSettled(inv.mem) && token in w.issued && !PlainResume(inv)
  {
  }

  lemma SetPlanKeeps(w: World, inv: Invocation, plan: Option<Plan>, token: string, o: SaveOutcome)
    requires Held(w, inv) && inv.pc.Performed? && inv.pc.step.Simulate? && GoesOn(inv.pc.said, inv.pc.a) == Some(token)
    ensures var next := L.SetPlanRun(inv.mem, Execute, plan, token);
      Inv(CommitRun(w, inv, next, o, Asking(Some(PlanTokenDocument(token)), true)).value)
  {
    MemIsGood(w, inv);
    MayGoOn(w, inv, token);
    PlanCommitKeeps(w, inv, plan, token, o);
  }

  lemma PlanCommitKeeps(w: World, inv: Invocation, plan: Option<Plan>, token: string, o: SaveOutcome)
    requires Held(w, inv) && !inv.pc.Ended? && !inv.flow.Maintain? && Good(w, inv.mem)
    requires SimSettled(inv.mem) && token in w.issued && !PlainResume(inv)
    ensures var next := L.SetPlanRun(inv.mem, Execute, plan, token);
      Inv(CommitRun(w, inv, next, o, Asking(Some(PlanTokenDocument(token)), true)).value)
  {
    var next := L.SetPlanRun(inv.mem, Execute, plan, token);
    if next.Success? {
      SetPlanGood(w, inv.mem, plan, token);
    }
    CommitKeeps(w, inv, next, Taken(next, inv.mem), o, Asking(Some(PlanTokenDocument(token)), true));
  }

  /** What an invocation ends by reporting is of no consequence to the record. */
  lemma ReportingKeeps(w: World, said: E.Source)
    requires Inv(w)
    ensures Inv(Reporting(Some(w), said).value)
  {
    if w.holder.Some? {
      HoldKeeps(w, w.holder.value.(report := Some(said)));
    }
  }

  lemma CloseExecuteKeeps(w: World, inv: Invocation, o: SaveOutcome)
    requires Held(w, inv) && inv.pc.Performed? && inv.mem.Find(Execute).Some?
    ensures CloseExecute(w, inv, o).Some? && Inv(CloseExecute(w, inv, o).value)
  {
    var e := inv.mem.Find(Execute).value;
    if e.state.IsTerminal() || e.state.MayHaveSent() {
      StopKeeps(w, inv);
    } else {
      UnreachableCommitKeeps(w, inv, o);
    }
  }

  lemma StopKeeps(w: World, inv: Invocation)
    requires Held(w, inv)
    ensures Inv(Hold(w, inv.(pc := Ended)))
  {
    HoldKeeps(w, inv.(pc := Ended));
  }

  lemma ProceedKeeps(w: World, inv: Invocation, plan: Option<Plan>, o: SaveOutcome)
    requires Held(w, inv) && OnProceed(w, inv, plan, o).Some?
    ensures Inv(OnProceed(w, inv, plan, o).value)
  {
    if inv.pc.step.Execute? || inv.mem.Find(Execute).None? {
      StopKeeps(w, inv);
      ReportingKeeps(Hold(w, inv.(pc := Ended)), inv.pc.said);
    } else {
      match GoesOn(inv.pc.said, inv.pc.a)
      case Some(token) => SetPlanKeeps(w, inv, plan, token, o);
      case None =>
        CloseExecuteKeeps(w, inv, o);
        ReportingKeeps(CloseExecute(w, inv, o).value, StopsWith(inv.pc.said));
    }
  }

  // ---------- Maintenance ----------

  lemma ScrubGood(w: World, m: Run, now: int)
    requires Good(w, m)
    ensures Good(w, L.ScrubRun(m, now)) && L.RunEvolves(m, L.ScrubRun(m, now))
  {
    L.ScrubRunKeeps(m, now);
    L.ScrubFind(m.steps, now, Simulate);
    L.ScrubFind(m.steps, now, Execute);
    forall name
      ensures m.Find(name).None? <==> L.ScrubRun(m, now).Find(name).None?
      ensures m.Find(name).Some? ==> L.ScrubRun(m, now).Find(name).value.key == m.Find(name).value.key
    {
      L.ScrubFind(m.steps, now, name);
    }
  }

  lemma ScrubKeeps(w: World, inv: Invocation, now: int, o: SaveOutcome)
    requires Held(w, inv) && OnScrub(w, inv, now, o).Some?
    ensures Inv(OnScrub(w, inv, now, o).value)
  {
    MemIsGood(w, inv);
    if L.ScrubRun(inv.mem, now) == inv.mem {
      HoldKeeps(w, inv.(pc := Ended));
    } else {
      ScrubGood(w, inv.mem, now);
      CommitKeeps(w, inv, Success(L.ScrubRun(inv.mem, now)), L.ScrubRun(inv.mem, now), o, Ended);
    }
  }

  /** The store changes to versions it could already have been. */
  lemma NarrowKeeps(w: World, store: Store<Run>, pruned: bool)
    requires LedgerWell(w) && store.Valid() && (w.pruned ==> pruned)
    requires forall v :: v in store.recoverable ==> v in w.store.recoverable || (v.None? && pruned)
    requires w.minted.None? ==> store == Empty()
    ensures LedgerWell(w.(store := store, pruned := pruned))
  {
    var w' := w.(store := store, pruned := pruned);
    forall r | Some(r) in w'.store.recoverable ensures Good(w', r) { assert Good(w, r); }
    forall q | q in w'.wire ensures SentWell(w', q) { assert SentWell(w, q); }
  }

  lemma PruneKeeps(w: World, inv: Invocation, cutoff: int)
    requires Held(w, inv) && OnPrune(w, inv, cutoff).Some?
    ensures Inv(OnPrune(w, inv, cutoff).value)
  {
    MemIsGood(w, inv);
    if inv.mem.Prunable() && inv.mem.createdAt < cutoff {
      NarrowKeeps(w, w.store.Unlinked(), true);
      SameRecorded(w.(store := w.store.Unlinked(), pruned := true), OnPrune(w, inv, cutoff).value);
    } else {
      HoldKeeps(w, inv.(pc := Ended));
    }
  }

  // ---------- Ends, and what happens to the disk ----------

  lemma LeaveKeeps(w: World, inv: Invocation, ending: E.Ending)
    requires Held(w, inv) && OnLeave(w, inv, ending).Some?
    ensures Inv(OnLeave(w, inv, ending).value)
  {
    if E.ExitCode(ending, inv.flag) == 1 && !inv.flow.Maintain? {
      E.ExitOneMeansNothingSent(ending, inv.flag, inv.report);
    }
    SameRecorded(w, OnLeave(w, inv, ending).value);
  }

  lemma DirFsyncKeeps(w: World)
    requires Inv(w)
    ensures Inv(w.(store := w.store.Settled()))
  {
    NarrowKeeps(w, w.store.Settled(), w.pruned);
  }

  lemma PowerCutKeeps(w: World, back: Option<Run>)
    requires Inv(w) && back in w.store.recoverable
    ensures Inv(w.(store := w.store.PowerCut(back), holder := None))
  {
    NarrowKeeps(w, w.store.PowerCut(back), w.pruned);
    SameRecorded(w.(store := w.store.PowerCut(back)), w.(store := w.store.PowerCut(back), holder := None));
  }

  lemma OpenKeeps(w: World, flow: Flow, opts: Options)
    requires Inv(w) && OnOpen(w, flow, opts).Some?
    ensures Inv(OnOpen(w, flow, opts).value)
  {
    assert w.minted.Some?;
    HoldKeeps(w, OnOpen(w, flow, opts).value.holder.value);
  }

  // ---------- Creating the run ----------

  lemma NewRunGood(flow: Flow, r: Run)
    requires NewRun(flow, r) && L.ValidateNew(r).Success?
    ensures var run := L.ValidateNew(r).value;
      && run.Valid()
      && (forall s :: s in run.steps ==> s.state.NotStarted? && s.planToken.None?)
      && (run.Find(Execute).Some? && run.Find(Simulate).Some? ==> run.Find(Execute).value.body.None?)
      && (flow.ExecutePlan? <==> run.Find(Simulate).None?)
      && (run.Find(Simulate).Some? ==> SimulateStep(run.Find(Simulate).value))
  {
    L.NewRunIsValid(r);
    var run := L.ValidateNew(r).value;
    assert forall i :: 0 <= i < |run.steps| ==> run.steps[i] == L.Digested(r.steps[i]);
  }

  lemma CreateRecorded(w: World, flow: Flow, r: Run, o: SaveOutcome)
    requires Inv(w) && w.minted.None? && NewRun(flow, r) && L.ValidateNew(r).Success?
    ensures var run := L.ValidateNew(r).value;
      LedgerWell(w.(minted := Some(run), store := w.store.Save(run, o)))
  {
    NewRunGood(flow, r);
    var run := L.ValidateNew(r).value;
    var w' := w.(minted := Some(run), store := w.store.Save(run, o));
    forall v | Some(v) in w'.store.recoverable
      ensures Good(w', v)
    {
      assert v == run;
      assert run.Find(Execute).Some? ==> run.Find(Execute).value in run.steps;
    }
  }

  lemma CreateKeeps(w: World, flow: Flow, opts: Options, r: Run, o: SaveOutcome)
    requires Inv(w) && OnCreate(w, flow, opts, r, o).Some?
    ensures Inv(OnCreate(w, flow, opts, r, o).value)
  {
    CreateRecorded(w, flow, r, o);
    NewRunGood(flow, r);
    var run := L.ValidateNew(r).value;
    SameRecorded(w.(minted := Some(run), store := w.store.Save(run, o)), OnCreate(w, flow, opts, r, o).value);
  }

  // ---------- Together ----------

  lemma ApplyHeldKeeps(w: World, inv: Invocation, e: Event)
    requires Held(w, inv) && ApplyHeld(w, inv, e).Some?
    ensures Inv(ApplyHeld(w, inv, e).value)
  {
    match e
    case Decide => DecideKeeps(w, inv);
    case Ask(o) => AskKeeps(w, inv, o);
    case ReadLine(prompt, o) => ReadLineKeeps(w, inv, prompt, o);
    case Begin(o) => BeginKeeps(w, inv, o);
    case Mark => MarkKeeps(w, inv);
    case Send => SendKeeps(w, inv);
    case GetAnswer(a) => AnswerKeeps(w, inv, a);
    case RecordAnswer(structural, o) => RecordKeeps(w, inv, structural, o);
    case CloseOn202(o) => CloseOn202Keeps(w, inv, o);
    case FollowUp(poll, structural, o) => FollowUpKeeps(w, inv, poll, structural, o);
    case Proceed(plan, o) => ProceedKeeps(w, inv, plan, o);
    case DeclineRun(o) => DeclineEventKeeps(w, inv, o);
    case ScrubRun(now, o) => ScrubKeeps(w, inv, now, o);
    case PruneRun(cutoff) => PruneKeeps(w, inv, cutoff);
    case Leave(ending) => LeaveKeeps(w, inv, ending);
    case Crash => SameRecorded(w, w.(holder := None));
  }

  lemma ApplyKeeps(w: World, e: Event)
    requires Inv(w) && Apply(w, e).Some?
    ensures Inv(Apply(w, e).value)
  {
    match e
    case Create(flow, opts, run, o) => CreateKeeps(w, flow, opts, run, o);
    case Open(flow, opts) => OpenKeeps(w, flow, opts);
    case DirFsync => DirFsyncKeeps(w);
    case PowerCut(back) => PowerCutKeeps(w, back);
    case _ => ApplyHeldKeeps(w, w.holder.value, e);
  }

  /** The invariant holds after every history. */
  lemma {:induction false} PlayKeeps(w: World, events: seq<Event>)
    requires Inv(w) && Play(w, events).Some?
    ensures Inv(Play(w, events).value)
    decreases |events|
  {
    if events != [] {
      ApplyKeeps(w, events[0]);
      PlayKeeps(Apply(w, events[0]).value, events[1..]);
    }
  }
}
