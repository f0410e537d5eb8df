/** What the send protocol promises of every history from the start. */
module ProtocolTheorems {
  import opened Wrappers
  import opened DurableStore
  import opened Records
  import opened Protocol
  import opened ProtocolSafety
  import opened ProtocolSteps
  import A = Api
  import L = Ledger
  import C = Consent
  import S = IdempotentServer
  import PlanToken

  lemma StartIsWell()
    ensures Inv(Start())
  {
  }

  lemma Reached(events: seq<Event>)
    requires Play(Start(), events).Some?
    ensures Inv(Play(Start(), events).value)
  {
    StartIsWell();
    PlayKeeps(Start(), events);
  }

  // ---------- Write-ahead ----------

  /** When a request leaves, every version a crash could bring back already names it. */
  lemma RecordedBeforeSent(events: seq<Event>, w: World, w': World)
    requires Play(Start(), events) == Some(w) && Apply(w, Send) == Some(w')
    ensures |w'.wire| == |w.wire| + 1 && w'.wire[..|w.wire|] == w.wire
    ensures forall v :: v in w.store.recoverable ==> v.Some? && Holds(v.value, w'.wire[|w.wire|])
  {
    Reached(events);
    SentIsWell(w, w.holder.value);
  }

  /** Requests are never forgotten, and a record disappears only by a prune of a settled, token-free run. */
  lemma WireStep(w: World, e: Event, q: Sent)
    requires Apply(w, e).Some? && q in w.wire
    ensures q in Apply(w, e).value.wire
  {
    hide L.AwaitRun, L.BeginRun, L.BegunKept, L.RecordRun, L.UnreachableRun, L.SetPlanRun, L.ScrubRun, L.DeclineRun,
      GoesOn, StopsWith, Resumable;
  }

  lemma {:induction false} WireGrows(w: World, events: seq<Event>, q: Sent)
    requires Play(w, events).Some? && q in w.wire
    ensures q in Play(w, events).value.wire
    decreases |events|
  {
    if events != [] {
      WireStep(w, events[0], q);
      WireGrows(Apply(w, events[0]).value, events[1..], q);
    }
  }

  ghost predicate PruneOfSettled(w: World, e: Event) {
    && e.PruneRun? && w.holder.Some? && w.holder.value.mem.createdAt < e.cutoff
    && forall i :: 0 <= i < |w.holder.value.mem.steps| ==> w.holder.value.mem.steps[i].Settled()
  }

  /** Event `k` of a history is the prune of a settled run. */
  ghost predicate PrunedAt(w: World, events: seq<Event>, k: nat)
    requires k < |events|
  {
    Play(w, events[..k]).Some? && PruneOfSettled(Play(w, events[..k]).value, events[k])
  }

  lemma OnlyPrunes(w: World, e: Event)
    requires Apply(w, e).Some? && !w.pruned && Apply(w, e).value.pruned
    ensures e.PruneRun? && w.holder.Some?
  {
    hide L.AwaitRun, L.BeginRun, L.BegunKept, L.RecordRun, L.SetPlanRun, L.UnreachableRun, L.DeclineRun, L.ScrubRun;
  }

  lemma PruneStep(w: World, e: Event)
    requires Apply(w, e).Some? && !w.pruned && Apply(w, e).value.pruned
    ensures PruneOfSettled(w, e)
  {
    OnlyPrunes(w, e);
    hide OnAsk, OnBegin, OnRecord, OnCloseOn202, OnFollowUp, OnProceed, OnScrub, OnLeave, Run.Prunable;
    assert OnPrune(w, w.holder.value, e.cutoff).Some?;
    PrunableIff(w.holder.value.mem);
  }

  lemma {:induction false} PrunedBySettling(w: World, events: seq<Event>)
    requires Play(w, events).Some? && !w.pruned && Play(w, events).value.pruned
    ensures exists k :: 0 <= k < |events| && PrunedAt(w, events, k)
    decreases |events|
  {
    var w' := Apply(w, events[0]).value;
    if w'.pruned {
      PruneStep(w, events[0]);
      assert events[..0] == [];
      assert PrunedAt(w, events, 0);
    } else {
      PrunedBySettling(w', events[1..]);
      var k :| 0 <= k < |events| - 1 && PrunedAt(w', events[1..], k);
      assert events[..k + 1][1..] == events[1..][..k];
      assert PrunedAt(w, events, k + 1);
    }
  }

  lemma WellHolds(w: World, q: Sent)
    requires Inv(w) && q in w.wire
    ensures forall v :: v in w.store.recoverable ==> if v.Some? then Holds(v.value, q) else w.pruned
  {
    assert WriteAhead(w);
  }

  /**
   Once a request has left, every version of the record that can be recovered at
   any later point names its key and its bytes as sent, until a prune.
   */
  lemma HeldUntilPruned(before: seq<Event>, w: World, q: Sent, after: seq<Event>, w': World)
    requires Play(Start(), before) == Some(w) && q in w.wire
    requires Play(w, after) == Some(w')
    ensures forall v :: v in w'.store.recoverable ==> if v.Some? then Holds(v.value, q) else w'.pruned
  {
    Reached(before);
    PlayKeeps(w, after);
    WireGrows(w, after, q);
    WellHolds(w', q);
  }

  // ---------- One key, one body, one effect ----------

  /** Requests of one step carry one key and one body; requests of different steps carry different keys. */
  lemma OneKeyOneBody(events: seq<Event>, w: World, q: Sent, q': Sent)
    requires Play(Start(), events) == Some(w) && q in w.wire && q' in w.wire
    ensures q.step == q'.step <==> q.key == q'.key
    ensures q.step == q'.step ==> q.body == q'.body
  {
    Reached(events);
    assert SentWell(w, q) && SentWell(w, q');
    if q.step != q'.step {
      DifferentKeys(w.minted.value, q.step, q'.step);
    }
  }

  lemma DifferentKeys(r: Run, a: StepName, b: StepName)
    requires r.Valid() && a != b && r.Find(a).Some? && r.Find(b).Some?
    ensures r.Find(a).value.key != r.Find(b).value.key
  {
    var s, s' := r.Find(a).value, r.Find(b).value;
    var i :| 0 <= i < |r.steps| && r.steps[i] == s;
    var j :| 0 <= j < |r.steps| && r.steps[j] == s';
  }

  /** The requests an idempotent server sees: what left, delayed, reordered and repeated at will. */
  ghost predicate Delivers(w: World, arrived: seq<S.Request<Sent>>) {
    forall i :: 0 <= i < |arrived| ==> arrived[i].content in w.wire && arrived[i].key == arrived[i].content.key
  }

  /** Each step takes effect at most once. */
  lemma AtMostOneEffect(events: seq<Event>, w: World, arrived: seq<S.Request<Sent>>, i: nat, j: nat)
    requires Play(Start(), events) == Some(w) && Delivers(w, arrived)
    requires i < j < |S.Ran(arrived)|
    ensures S.Ran(arrived)[i].content.step != S.Ran(arrived)[j].content.step
  {
    S.RanOnce(arrived, i, j);
    S.RanArrived(arrived, i);
    S.RanArrived(arrived, j);
    OneKeyOneBody(events, w, S.Ran(arrived)[i].content, S.Ran(arrived)[j].content);
  }

  ghost predicate SameRequest(q: Sent, q': Sent) {
    q.step == q'.step && q.key == q'.key && q.body == q'.body
  }

  /** Every delivered request has the bytes that took effect for its step. */
  lemma EffectIsTheRequest(events: seq<Event>, w: World, arrived: seq<S.Request<Sent>>, i: nat)
    requires Play(Start(), events) == Some(w) && Delivers(w, arrived) && i < |arrived|
    ensures exists k :: 0 <= k < |S.Ran(arrived)| && SameRequest(S.Ran(arrived)[k].content, arrived[i].content)
  {
    S.KeyRan(arrived, i);
    var k :| 0 <= k < |S.Ran(arrived)| && S.Ran(arrived)[k].key == arrived[i].key;
    S.RanArrived(arrived, k);
    OneKeyOneBody(events, w, arrived[i].content, S.Ran(arrived)[k].content);
  }

  /** Every key was minted from the run's id, none given by a caller. */
  ghost predicate KeysMinted(r: Run) {
    forall s :: s in r.steps ==> s.key == StepKey(r.id, s.name)
  }

  /** Two runs with different ids never send one key, so the server tells their requests apart. */
  lemma RunsNeverShareAKey(events: seq<Event>, w: World, q: Sent, events': seq<Event>, w': World, q': Sent)
    requires Play(Start(), events) == Some(w) && q in w.wire
    requires Play(Start(), events') == Some(w') && q' in w'.wire
    requires w.minted.Some? && KeysMinted(w.minted.value) && w'.minted.Some? && KeysMinted(w'.minted.value)
    requires w.minted.value.id != w'.minted.value.id && |w.minted.value.id| == |w'.minted.value.id|
    ensures q.key != q'.key
  {
    Reached(events);
    Reached(events');
    assert SentWell(w, q) && SentWell(w', q');
    StepKeyInjective(w.minted.value.id, q.step, w'.minted.value.id, q'.step);
  }

  // ---------- Consent ----------

  /**
   Every execute request was consented to by the invocation that sent it: by
   --yes, by the command itself on no terminal, or by a typed yes that no
   interrupt preceded. A resume that did not itself simulate is never its own
   consent.
   */
  lemma ExecuteIsConsented(events: seq<Event>, w: World, q: Sent)
    requires Play(Start(), events) == Some(w) && q in w.wire && q.step.Execute?
    ensures q.consent.Some? &&
      var p := q.consent.value.prompt;
      || q.opts.yes
      || (!q.opts.tty && !q.plainResume)
      || (q.opts.tty && C.Affirmative(p.line) && p.stateWritten && p.questionWritten && !p.interruptedBefore &&
        !p.interruptWins)
  {
    Reached(events);
    assert SentWell(w, q);
    C.GrantedIff(q.consent.value.request, q.consent.value.prompt);
  }

  // ---------- The broadcast gate: where a token comes from ----------

  ghost predicate Issues(e: Event, token: string) {
    e.GetAnswer? && A.HandsOut(e.a, token)
  }

  lemma {:induction false} IssuedByAnswer(w: World, events: seq<Event>, token: string)
    requires Play(w, events).Some? && token in Play(w, events).value.issued
    ensures token in w.issued || exists k :: 0 <= k < |events| && Issues(events[k], token)
    decreases |events|
  {
    if events != [] {
      var w' := Apply(w, events[0]).value;
      IssuedByAnswer(w', events[1..], token);
      if token in w'.issued {
        IssuedHere(w, events[0], w', token);
      } else {
        var k :| 0 <= k < |events| - 1 && Issues(events[1..][k], token);
        assert Issues(events[k + 1], token);
      }
    }
  }

  lemma IssuedHere(w: World, e: Event, w': World, token: string)
    requires Apply(w, e) == Some(w') && token in w'.issued
    ensures token in w.issued || Issues(e, token)
  {
    if e.GetAnswer? {
      A.FreshTokenIff(e.a, token);
    }
  }

  /**
   An execute request of a two-step run carries the token of a fresh, parsed
   simulate answer that this run received before the request left.
   */
  lemma ExecuteCarriesFreshToken(events: seq<Event>, w: World, w': World)
    requires Play(Start(), events) == Some(w) && Apply(w, Send) == Some(w')
    requires w.minted.Some? && Both(w.minted.value) && w.holder.Some? && w.holder.value.pc.step.Execute?
    ensures var body := w'.wire[|w.wire|].body;
      body.PlanTokenDocument? && exists k :: 0 <= k < |events| && Issues(events[k], body.planToken)
  {
    Reached(events);
    ExecuteBodyIssued(w, w');
    IssuedByAnswer(Start(), events, w'.wire[|w.wire|].body.planToken);
  }

  lemma ExecuteBodyIssued(w: World, w': World)
    requires Inv(w) && Apply(w, Send) == Some(w')
    requires w.minted.Some? && Both(w.minted.value) && w.holder.Some? && w.holder.value.pc.step.Execute?
    ensures |w'.wire| == |w.wire| + 1 && FromIssued(w.issued, w'.wire[|w.wire|].body)
  {
    SentIsWell(w, w.holder.value);
  }

  // ---------- Exit codes and the record ----------

  /** An invocation that exits 1 sent nothing, wherever it stopped. */
  lemma ExitOneSentNothing(events: seq<Event>, w: World, i: nat)
    requires Play(Start(), events) == Some(w) && i < |w.reports| && w.reports[i].code == 1
    ensures !w.reports[i].left
  {
    Reached(events);
  }

  /** In every recoverable version a settled step holds no live token, and a stored answer holds none at all. */
  lemma EveryVersionIsClean(events: seq<Event>, w: World, r: Run, i: nat)
    requires Play(Start(), events) == Some(w) && Some(r) in w.store.recoverable && i < |r.steps|
    ensures r.steps[i].state.IsTerminal() ==> !r.steps[i].HasPlanToken()
    ensures r.steps[i].response.Some? ==> PlanToken.NoToken(r.steps[i].response.value.body)
    ensures r.steps[i].body.Some? ==> r.steps[i].digest == Some(Digest(r.steps[i].body.value))
  {
    Reached(events);
    assert Good(w, r);
  }
}
