/** The invariant of the send protocol, and that every event keeps it. */
module ProtocolSafety {
  import opened Wrappers
  import opened DurableStore
  import opened Records
  import opened Protocol
  import L = Ledger
  import O = Outcomes
  import A = Api

  // ---------- What holds of every version of the record ----------

  /** The version names the key and the bytes of a request that left, as one that may have. */
  ghost predicate Holds(r: Run, q: Sent) {
    match r.Find(q.step)
    case None => false
    case Some(s) => s.key == q.key && s.body == Some(q.body) && s.state.MayHaveSent()
  }

  ghost predicate Both(r: Run) {
    r.Find(Simulate).Some? && r.Find(Execute).Some?
  }

  /**
   The gate of a two-step run: nothing has touched the execute step before the
   simulate settled, and its token and its bytes come from a fresh simulate answer.
   */
  ghost predicate Gate(issued: set<string>, sim: Step, exe: Step) {
    && (exe.state.AwaitingConfirmation? || exe.state.MayHaveSent() || exe.body.Some? || exe.planToken.Some? ==>
          sim.state.Terminal?)
    && (exe.HasPlanToken() ==> exe.planToken.value in issued)
    && (exe.body.Some? ==> FromIssued(issued, exe.body.value))
  }

  /** The execute document carrying a token this run was issued. */
  ghost predicate FromIssued(issued: set<string>, body: RequestBody) {
    body.PlanTokenDocument? && body.planToken in issued
  }

  ghost predicate SameKeys(m: Run, r: Run) {
    forall name ::
      (m.Find(name).None? <==> r.Find(name).None?) &&
      (r.Find(name).Some? && m.Find(name).Some? ==> r.Find(name).value.key == m.Find(name).value.key)
  }

  /** A simulate carries the caller's body, and is never asked about, refused or given a plan. */
  ghost predicate SimulateStep(s: Step) {
    s.body.Some? && !s.state.AwaitingConfirmation? && !s.state.Refused() && s.planToken.None?
  }

  ghost predicate GoodFor(minted: Option<Run>, issued: set<string>, r: Run) {
    && r.Valid()
    && (r.Find(Simulate).Some? ==> SimulateStep(r.Find(Simulate).value))
    && minted.Some? && SameKeys(minted.value, r)
    && (Both(r) ==> Gate(issued, r.Find(Simulate).value, r.Find(Execute).value))
  }

  ghost predicate Good(w: World, r: Run) {
    GoodFor(w.minted, w.issued, r)
  }

  // ---------- What holds of the requests that left ----------

  ghost predicate Consented(evidence: Option<Evidence>, opts: Options, plainResume: bool) {
    && evidence.Some? && evidence.value.Verdict().Granted?
    && evidence.value.request.yes == opts.yes && evidence.value.request.tty == opts.tty
    && (plainResume ==> !evidence.value.request.commandIsConsent)
  }

  ghost predicate SentFor(minted: Option<Run>, issued: set<string>, q: Sent) {
    && minted.Some?
    && minted.value.Find(q.step).Some? && minted.value.Find(q.step).value.key == q.key
    && (q.step.Execute? ==> Consented(q.consent, q.opts, q.plainResume))
    && (q.step.Execute? && Both(minted.value) ==> FromIssued(issued, q.body))
  }

  ghost predicate SentWell(w: World, q: Sent) {
    SentFor(w.minted, w.issued, q)
  }

  /** The write-ahead property: every version that may be recovered holds every request that left. */
  ghost predicate WriteAhead(w: World) {
    forall q, v :: q in w.wire && v in w.store.recoverable ==> if v.Some? then Holds(v.value, q) else w.pruned
  }

  /** The record and the wire, whoever holds the run. */
  ghost predicate LedgerWell(w: World) {
    && w.store.Valid()
    && (w.minted.Some? ==> w.minted.value.Valid())
    && (w.minted.None? ==> w.store == Empty() && w.wire == [])
    && (forall r :: Some(r) in w.store.recoverable ==> Good(w, r))
    && WriteAhead(w)
    && (forall q :: q in w.wire ==> SentWell(w, q))
    && (forall q, q' :: q in w.wire && q' in w.wire && q.step == q'.step ==> q.body == q'.body)
  }

  // ---------- What holds of the holder ----------

  ghost predicate SimSettled(r: Run) {
    Both(r) ==> r.Find(Simulate).value.state.Terminal?
  }

  ghost predicate BodyFromIssued(w: World, inv: Invocation, body: Option<RequestBody>) {
    Both(inv.mem) && body.Some? ==> FromIssued(w.issued, body.value)
  }

  ghost predicate PlainResume(inv: Invocation) {
    inv.flow.ResumeRun? && !inv.simulated
  }

  ghost predicate MayAsk(w: World, inv: Invocation, body: Option<RequestBody>, selfConsent: bool) {
    && SimSettled(inv.mem) && BodyFromIssued(w, inv, body)
    && (selfConsent ==> !PlainResume(inv))
  }

  ghost predicate StateIs(inv: Invocation, step: StepName, state: State) {
    inv.mem.Find(step).Some? && inv.mem.Find(step).value.state == state
  }

  /** Nothing has touched the execute step. */
  ghost predicate Clean(r: Run) {
    Both(r) ==>
      var e := r.Find(Execute).value;
      !e.state.AwaitingConfirmation? && !e.state.MayHaveSent() && e.body.None? && e.planToken.None?
  }

  ghost predicate AnswerWell(w: World, inv: Invocation, step: StepName, a: A.Answer) {
    && A.IsMoneyAnswer(a) && a.op == OpOf(step) && (step.Simulate? ==> inv.simulated && Clean(inv.mem))
    && (A.FreshPlanToken(a).Some? ==> A.FreshPlanToken(a).value in w.issued)
  }

  ghost predicate RecordedAs(inv: Invocation, step: StepName, c: O.Class) {
    && inv.mem.Find(step).Some?
    && inv.mem.Find(step).value.state == StateAfter(c)
    && inv.mem.Find(step).value.outcome == LedgerOutcomeOf(c)
  }

  function StateAfter(c: O.Class): State {
    if LedgerOutcome(c.Exit()).Resumable() then State.Answered else State.Terminal
  }

  ghost predicate InFlight(w: World, inv: Invocation, step: StepName) {
    w.store.Durable(inv.mem) && StateIs(inv, step, State.Pending)
  }

  ghost predicate ConsentedFor(inv: Invocation, step: StepName) {
    step.Execute? ==> Consented(inv.consent, inv.opts, PlainResume(inv))
  }

  ghost predicate AtPc(w: World, inv: Invocation) {
    match inv.pc
    case Asking(body, selfConsent) => MayAsk(w, inv, body, selfConsent)
    case Prompted(body, selfConsent) => MayAsk(w, inv, body, selfConsent)
    case Ready(step, body) =>
      ConsentedFor(inv, step) && (step.Execute? ==> SimSettled(inv.mem) && BodyFromIssued(w, inv, body))
    case Begun(step) => InFlight(w, inv, step) && ConsentedFor(inv, step)
    case Sending(step, _) => InFlight(w, inv, step) && ConsentedFor(inv, step) && inv.flag
    case Answered(step, a) => InFlight(w, inv, step) && AnswerWell(w, inv, step, a)
    case Recorded(step, a) =>
      w.store.Durable(inv.mem) && AnswerWell(w, inv, step, a) && RecordedAs(inv, step, A.ClassifyAnswer(a))
    case Following(step, a) =>
      w.store.Durable(inv.mem) && AnswerWell(w, inv, step, a) && RecordedAs(inv, step, A.ClassifyAnswer(a))
    case Performed(step, said, a) =>
      w.store.Durable(inv.mem) && AnswerWell(w, inv, step, a) && RecordedAs(inv, step, said.Class())
    case _ => true
  }

  ghost predicate HolderWell(w: World, inv: Invocation) {
    && (inv.left ==> inv.flag)
    && (inv.flow.Maintain? ==> !inv.flag && (inv.pc.Maintaining? || inv.pc.Ended?))
    && w.store.current.Some?
    && (!inv.pc.Ended? ==> w.store.current == Some(inv.mem))
    && AtPc(w, inv)
  }

  ghost predicate Inv(w: World) {
    && LedgerWell(w)
    && (w.holder.Some? ==> w.minted.Some? && HolderWell(w, w.holder.value))
    && (forall i :: 0 <= i < |w.reports| ==> w.reports[i].code == 1 ==> !w.reports[i].left)
  }

  // ---------- Saves ----------

  lemma HoldsEvolves(r: Run, r': Run, q: Sent)
    requires L.RunEvolves(r, r') && Holds(r, q)
    ensures Holds(r', q)
  {
    L.EvolvesByName(r, r', q.step);
  }

  /** A save of a good evolution of the current version keeps the record and the wire well. */
  lemma SaveKeeps(w: World, r: Run, r': Run, o: SaveOutcome)
    requires LedgerWell(w) && w.store.current == Some(r) && Good(w, r') && L.RunEvolves(r, r')
    ensures LedgerWell(w.(store := w.store.Save(r', o)))
  {
    var w' := w.(store := w.store.Save(r', o));
    assert Some(r) in w.store.recoverable;
    forall v | Some(v) in w'.store.recoverable
      ensures Good(w', v)
    {
      assert v == r' || Some(v) in w.store.recoverable;
      assert Good(w, v);
    }
    forall q | q in w.wire
      ensures SentWell(w', q) && Holds(r', q)
    {
      assert SentWell(w, q) && Holds(r, q);
      HoldsEvolves(r, r', q);
    }
    assert WriteAhead(w');
  }

  lemma SavedKeeps(w: World, inv: Invocation, r: Run, pc: Pc)
    requires Inv(w) && w.holder == Some(inv) && !inv.pc.Ended?
    requires Good(w, r) && L.RunEvolves(inv.mem, r) && (inv.flow.Maintain? ==> pc.Ended?)
    requires AtPc(w.(store := w.store.Save(r, Saved)), inv.(mem := r, pc := pc))
    ensures Inv(w.(store := w.store.Save(r, Saved), holder := Some(inv.(mem := r, pc := pc))))
  {
    SaveKeeps(w, inv.mem, r, Saved);
    var bare := w.(store := w.store.Save(r, Saved));
    var w' := Hold(bare, inv.(mem := r, pc := pc));
    SameRecorded(bare, w');
    SameAtPc(bare, w', w'.holder.value);
  }

  lemma UnsavedKeeps(w: World, inv: Invocation, r: Run, kept: Run, o: SaveOutcome)
    requires Inv(w) && w.holder == Some(inv) && !inv.pc.Ended? && !o.Saved?
    requires Good(w, r) && L.RunEvolves(inv.mem, r)
    ensures Inv(w.(store := w.store.Save(r, o), holder := Some(inv.(mem := kept, pc := Ended))))
  {
    SaveKeeps(w, inv.mem, r, o);
    var bare := w.(store := w.store.Save(r, o));
    SameRecorded(bare, Hold(bare, inv.(mem := kept, pc := Ended)));
  }

  /** Committing a good evolution keeps everything but what the new program counter asks. */
  lemma CommitKeeps(w: World, inv: Invocation, next: L.RunResult, kept: Run, o: SaveOutcome, pc: Pc)
    requires Inv(w) && w.holder == Some(inv) && !inv.pc.Ended?
    requires next.Success? ==> Good(w, next.value) && L.RunEvolves(inv.mem, next.value)
    requires inv.flow.Maintain? ==> pc.Ended?
    requires next.Success? && o.Saved? ==>
      AtPc(w.(store := w.store.Save(next.value, o)), inv.(mem := next.value, pc := pc))
    ensures Inv(Commit(w, inv, next, kept, o, pc).value)
  {
    match next
    case Failure(_) => SameRecorded(w, Hold(w, inv.(pc := Ended)));
    case Success(r) =>
      if o.Saved? {
        SavedKeeps(w, inv, r, pc);
      } else {
        UnsavedKeeps(w, inv, r, kept, o);
      }
  }

  /** The record and wire invariants do not read the holder or the reports. */
  lemma SameRecorded(w: World, w': World)
    requires LedgerWell(w) && w' == w.(holder := w'.holder, reports := w'.reports)
    ensures LedgerWell(w')
  {
    forall r | Some(r) in w'.store.recoverable ensures Good(w', r) { assert Good(w, r); }
    forall q | q in w'.wire ensures SentWell(w', q) { assert SentWell(w, q); }
  }

  lemma SameAtPc(w: World, w': World, inv: Invocation)
    requires AtPc(w, inv) && w'.store == w.store && w'.issued == w.issued
    ensures AtPc(w', inv)
  {
  }

  /** Replacing one step of a good run by a valid evolution that respects the gate. */
  lemma ReplaceKeepsGood(w: World, r: Run, s': Step)
    requires Good(w, r) && r.Find(s'.name).Some?
    requires s'.Valid() && L.Evolves(r.Find(s'.name).value, s') && (s'.name.Simulate? ==> SimulateStep(s'))
    requires Both(r) ==>
      Gate(w.issued,
        if s'.name.Simulate? then s' else r.Find(Simulate).value,
        if s'.name.Execute? then s' else r.Find(Execute).value)
    ensures Good(w, r.With(s')) && L.RunEvolves(r, r.With(s'))
    ensures forall name :: r.With(s').Find(name) == if name == s'.name then Some(s') else r.Find(name)
  {
    L.WithEvolves(r, s');
  }
}
