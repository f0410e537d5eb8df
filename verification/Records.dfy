/**
 The run record (internal/runs/record.go): steps, their states, and the
 predicates the rest of the ledger asks of them. The digest is taken as
 injective; JSON and UTF-8 decoding are left out, so a body is text, the
 document an execute sends, or bytes that are not UTF-8.
 */
module Records {
  import opened Wrappers
  import PlanToken

  const SCRUBBED_TOKEN: string := "[SCRUBBED]"

  datatype StepName = Simulate | Execute {
    function Text(): string {
      match this case Simulate => "simulate" case Execute => "execute"
    }
  }

  datatype State = NotStarted | AwaitingConfirmation | Declined | Pending | Answered | Terminal | Unreachable {
    /** Nothing further will happen to the step. */
    predicate IsTerminal() {
      Terminal? || Declined? || Unreachable?
    }

    /** A request under the step's key may have reached FERRY. */
    predicate MayHaveSent() {
      Pending? || Answered? || Terminal?
    }

    /** Refused: it never started and never will. */
    predicate Refused() {
      Declined? || Unreachable?
    }
  }

  datatype RequestBody = Text(text: string) | PlanTokenDocument(planToken: string) | NotUtf8(bytes: seq<bv8>)

  /** SHA-256 of a body; distinct bodies have distinct digests. */
  datatype Digest = Digest(of: RequestBody)

  datatype Plan = Plan(expiresAt: Option<int>)

  datatype Response = Response(status: int, body: string)

  datatype LedgerOutcome = LedgerOutcome(exitCode: nat) {
    /** The two classes a resume may pick up. */
    predicate Resumable() {
      exitCode == 5 || exitCode == 6
    }
  }

  datatype Step = Step(
    name: StepName,
    key: string,
    digest: Option<Digest>,
    body: Option<RequestBody>,
    plan: Option<Plan>,
    planToken: Option<string>,
    state: State,
    attempts: nat,
    response: Option<Response>,
    outcome: Option<LedgerOutcome>)
  {
    predicate HasPlanToken() {
      planToken.Some? && planToken.value != "" && planToken.value != SCRUBBED_TOKEN
    }

    /** What the orphan check refuses to walk past. */
    predicate Unresolved() {
      state.AwaitingConfirmation? || state.Pending? ||
      (state.Answered? && outcome.Some? && outcome.value.Resumable())
    }

    /** Nothing further will happen to it, and no token that could be executed is left in it. */
    predicate Settled() {
      && (state == Terminal || state == Declined || state == Unreachable)
      && (planToken == None || planToken == Some("") || planToken == Some("[SCRUBBED]"))
    }

    /** The digest is of the body, and a step that may have sent holds what it sent. */
    ghost predicate Valid() {
      && digest == (if body.Some? then Some(Digest(body.value)) else None)
      && (state.MayHaveSent() ==> body.Some? && attempts > 0)
      && (state.IsTerminal() ==> !HasPlanToken())
      && (response.Some? ==> PlanToken.NoToken(response.value.body))
    }
  }

  datatype Run = Run(id: string, createdAt: int, profile: string, environment: string, steps: seq<Step>) {

    function Find(name: StepName): Option<Step> {
      FindIn(steps, name)
    }

    /** The run with the named step replaced, in place. */
    function With(s: Step): Run {
      this.(steps := ReplaceIn(steps, s))
    }

    predicate Prunable() {
      forall s :: s in steps ==> s.state.IsTerminal() && !s.HasPlanToken()
    }

    predicate HasUnresolved() {
      exists s :: s in steps && s.Unresolved()
    }

    ghost predicate Valid() {
      && steps != []
      && (forall i, j :: 0 <= i < j < |steps| ==> steps[i].name != steps[j].name && steps[i].key != steps[j].key)
      && (forall i :: 0 <= i < |steps| ==> steps[i].Valid())
    }
  }

  /** Only a settled run can be pruned, and every settled run can; none is one the orphan check would stop at. */
  lemma PrunableIff(r: Run)
    ensures r.Prunable() <==> forall i :: 0 <= i < |r.steps| ==> r.steps[i].Settled()
    ensures r.Prunable() ==> !r.HasUnresolved()
  {
    if r.Prunable() {
      assert forall i :: 0 <= i < |r.steps| ==> r.steps[i] in r.steps && r.steps[i].Settled();
    }
  }

  /** Every state is one of four, and what is open is unresolved: asked about, sent, or answered without an end. */
  lemma StatesAre(s: Step)
    ensures s.state.MayHaveSent() <==> s.state in {Pending, Answered, Terminal}
    ensures s.state.Refused() <==> s.state in {Declined, Unreachable}
    ensures s.state.IsTerminal() <==> s.state in {Terminal, Declined, Unreachable}
    ensures s.Unresolved() <==>
      s.state == AwaitingConfirmation || s.state == Pending
      || (s.state == Answered && s.outcome.Some? && s.outcome.value.exitCode in {5, 6})
  {
  }

  function FindIn(steps: seq<Step>, name: StepName): (r: Option<Step>)
    ensures r.Some? ==> r.value in steps && r.value.name == name
    ensures r.None? ==> forall s :: s in steps ==> s.name != name
  {
    if steps == [] then None
    else if steps[0].name == name then Some(steps[0])
    else FindIn(steps[1..], name)
  }

  function ReplaceIn(steps: seq<Step>, s: Step): (r: seq<Step>)
    ensures |r| == |steps|
    ensures forall i :: 0 <= i < |r| ==> r[i].name == steps[i].name
    ensures forall i :: 0 <= i < |r| ==> r[i] == steps[i] || r[i] == s
  {
    if steps == [] then []
    else if steps[0].name == s.name then [s] + steps[1..]
    else [steps[0]] + ReplaceIn(steps[1..], s)
  }

  /** Replacing a step changes what is found under its name and nothing else. */
  lemma {:induction false} FindAfterReplace(steps: seq<Step>, s: Step, name: StepName)
    requires FindIn(steps, s.name).Some?
    ensures FindIn(ReplaceIn(steps, s), name) == if name == s.name then Some(s) else FindIn(steps, name)
  {
    if steps[0].name != s.name {
      FindAfterReplace(steps[1..], s, name);
      assert ReplaceIn(steps, s)[1..] == ReplaceIn(steps[1..], s);
    } else {
      assert ReplaceIn(steps, s)[1..] == steps[1..];
    }
  }

  lemma {:induction false} FindByIndex(steps: seq<Step>, i: nat)
    requires i < |steps|
    requires forall j, k :: 0 <= j < k < |steps| ==> steps[j].name != steps[k].name
    ensures FindIn(steps, steps[i].name) == Some(steps[i])
  {
    if i > 0 {
      FindByIndex(steps[1..], i - 1);
    }
  }

  /** A run stays valid when a step is replaced by a valid one of the same name and key. */
  lemma WithKeepsValid(r: Run, s: Step)
    requires r.Valid() && r.Find(s.name).Some?
    requires s.Valid() && s.key == r.Find(s.name).value.key
    ensures r.With(s).Valid()
    ensures forall name :: r.With(s).Find(name) == if name == s.name then Some(s) else r.Find(name)
  {
    forall name
      ensures r.With(s).Find(name) == if name == s.name then Some(s) else r.Find(name)
    {
      FindAfterReplace(r.steps, s, name);
    }
    forall i | 0 <= i < |r.steps|
      ensures r.With(s).steps[i].key == r.steps[i].key
    {
      FindByIndex(r.steps, i);
    }
  }

  // ---------- Keys ----------

  /** The idempotency key of a step of a run. */
  function StepKey(runId: string, name: StepName): string {
    runId + "-" + name.Text()
  }

  /** 1 to 255 bytes of printable ASCII. */
  predicate ValidKey(k: string) {
    1 <= |k| <= 255 && forall i :: 0 <= i < |k| ==> ' ' <= k[i] <= '~'
  }

  /**
   Minted keys of ids of up to 240 printable characters can be sent; no empty key,
   long key or control character can.
   */
  lemma MintedKeyIsValid(id: string, name: StepName, k: string)
    requires |id| <= 240 && forall i :: 0 <= i < |id| ==> 0x20 <= id[i] as int <= 0x7E
    ensures ValidKey(StepKey(id, name))
    ensures ValidKey(k) <==> 1 <= |k| <= 255 && forall i :: 0 <= i < |k| ==> 0x20 <= k[i] as int <= 0x7E
  {
  }

  /** Minted keys of distinct steps are distinct, across runs and within one. */
  lemma StepKeyInjective(id: string, name: StepName, id': string, name': StepName)
    requires |id| == |id'|
    ensures StepKey(id, name) == StepKey(id', name') <==> id == id' && name == name'
  {
    var k, k' := StepKey(id, name), StepKey(id', name');
    if k == k' {
      assert id == k[..|id|] && id' == k'[..|id|];
      assert k[|id| + 1] == name.Text()[0] && k'[|id| + 1] == name'.Text()[0];
      assert Simulate.Text()[0] == 's' && Execute.Text()[0] == 'e';
    }
  }
}
