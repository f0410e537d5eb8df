/**
 The step state machine (internal/runs/ledger.go). Each operation is first a
 function on the run in memory; `Handle` holds the run in place and its methods
 are proved to make exactly that change and to write it through `WriteFileAtomic`.
 */
module Ledger {
  import opened Wrappers
  import opened DurableStore
  import opened Fsx
  import opened Records
  import PlanToken

  datatype LedgerError =
    | NoSuchStep | BadTransition | BodyMismatch | BodyNotUtf8 | NoBody | StepMayHaveSent
    | HandleClosed | SaveFailed

  type StepResult = Result<Step, LedgerError>
  type RunResult = Result<Run, LedgerError>

  // ---------- The operations on one step ----------

  function BeginStep(s: Step, body: Option<RequestBody>): StepResult {
    if s.state.Refused() || s.state.Terminal? then Failure(BadTransition)
    else if body.Some? && body.value.NotUtf8? then Failure(BodyNotUtf8)
    else if body.Some? && s.digest.Some? && s.digest.value != Digest(body.value) then Failure(BodyMismatch)
    else if body.None? && s.body.None? then Failure(NoBody)
    else Success(Bodied(s, body).(state := Pending, attempts := s.attempts + 1))
  }

  /** The body and digest set; what memory keeps of a Begin whose save failed. */
  function Bodied(s: Step, body: Option<RequestBody>): Step {
    if body.None? then s else s.(body := body, digest := Some(Digest(body.value)))
  }

  function AwaitStep(s: Step): StepResult {
    if s.state.NotStarted? || s.state.AwaitingConfirmation? then Success(s.(state := AwaitingConfirmation))
    else Failure(BadTransition)
  }

  function SetPlanStep(s: Step, plan: Option<Plan>, token: string): StepResult {
    if s.state.IsTerminal() then Failure(BadTransition)
    else Success(s.(plan := plan, planToken := if token == "" then None else Some(token)))
  }

  /** `structural` is what the JSON pass of the token sweep returned, when it applied. */
  function RecordStep(s: Step, resp: Option<Response>, structural: Option<string>, oc: Option<LedgerOutcome>): Step {
    var answered := if resp.None? then s
      else s.(response := Some(Response(resp.value.status, PlanToken.StrippedBody(resp.value.body, structural))));
    if oc.None? || oc.value.Resumable() then answered.(outcome := oc, state := Answered)
    else ScrubStep(answered.(outcome := oc, state := Terminal))
  }

  /** Nothing is written for a step that is already refused. */
  function DeclineStep(s: Step): Result<Option<Step>, LedgerError> {
    if s.state.Refused() then Success(None)
    else if s.state.NotStarted? || s.state.AwaitingConfirmation? then Success(Some(ScrubStep(s.(state := Declined))))
    else Failure(StepMayHaveSent)
  }

  function UnreachableStep(s: Step): StepResult {
    if s.state.MayHaveSent() then Failure(StepMayHaveSent)
    else Success(ScrubStep(s.(state := Unreachable)))
  }

  function ScrubStep(s: Step): Step {
    if s.HasPlanToken() then s.(planToken := Some(SCRUBBED_TOKEN)) else s
  }

  const SCRUB_GRACE: int := 600

  /** Scrub's rule for one step: settled, or a plan that expired more than the grace ago. */
  predicate Scrubs(s: Step, now: int) {
    s.HasPlanToken() &&
    (s.state.IsTerminal() ||
      (s.plan.Some? && s.plan.value.expiresAt.Some? && s.plan.value.expiresAt.value + SCRUB_GRACE < now))
  }

  function ScrubSteps(steps: seq<Step>, now: int): (r: seq<Step>)
    ensures |r| == |steps|
    ensures forall i :: 0 <= i < |r| ==> r[i] == if Scrubs(steps[i], now) then ScrubStep(steps[i]) else steps[i]
  {
    if steps == [] then []
    else [if Scrubs(steps[0], now) then ScrubStep(steps[0]) else steps[0]] + ScrubSteps(steps[1..], now)
  }

  function ScrubRun(r: Run, now: int): Run {
    r.(steps := ScrubSteps(r.steps, now))
  }

  // ---------- The same on a run ----------

  function OnRun(r: Run, name: StepName, s': StepResult): RunResult
    requires s'.Success? ==> s'.value.name == name
  {
    match s' case Success(s) => Success(r.With(s)) case Failure(e) => Failure(e)
  }

  function BeginRun(r: Run, name: StepName, body: Option<RequestBody>): RunResult {
    match r.Find(name)
    case None => Failure(NoSuchStep)
    case Some(s) => OnRun(r, name, BeginStep(s, body))
  }

  /** What memory holds after a Begin whose save failed. */
  function BegunKept(r: Run, name: StepName, body: Option<RequestBody>): Run {
    match r.Find(name)
    case None => r
    case Some(s) => r.With(Bodied(s, body))
  }

  function AwaitRun(r: Run, name: StepName): RunResult {
    match r.Find(name)
    case None => Failure(NoSuchStep)
    case Some(s) => OnRun(r, name, AwaitStep(s))
  }

  function SetPlanRun(r: Run, name: StepName, plan: Option<Plan>, token: string): RunResult {
    match r.Find(name)
    case None => Failure(NoSuchStep)
    case Some(s) => OnRun(r, name, SetPlanStep(s, plan, token))
  }

  function RecordRun(
      r: Run, name: StepName, resp: Option<Response>, structural: Option<string>,
        oc: Option<LedgerOutcome>): RunResult {
    match r.Find(name)
    case None => Failure(NoSuchStep)
    case Some(s) => Success(r.With(RecordStep(s, resp, structural, oc)))
  }

  function UnreachableRun(r: Run, name: StepName): RunResult {
    match r.Find(name)
    case None => Failure(NoSuchStep)
    case Some(s) => OnRun(r, name, UnreachableStep(s))
  }

  /** Success(None): already refused, nothing to write. */
  function DeclineRun(r: Run, name: StepName): Result<Option<Run>, LedgerError> {
    match r.Find(name)
    case None => Failure(NoSuchStep)
    case Some(s) =>
      match DeclineStep(s)
      case Failure(e) => Failure(e)
      case Success(None) => Success(None)
      case Success(Some(s')) => Success(Some(r.With(s')))
  }

  // ---------- Creating a run ----------

  /** Why a new run is refused, or the run with its digests filled in. */
  function ValidateNew(r: Run): Result<Run, LedgerError> {
    if r.steps == [] then Failure(BadTransition)
    else if exists i, j :: 0 <= i < j < |r.steps| && Collide(r.steps[i], r.steps[j]) then Failure(BadTransition)
    else if exists s :: s in r.steps && (!ValidKey(s.key) || !s.state.NotStarted?) then Failure(BadTransition)
    else if exists s :: s in r.steps && s.body.Some? && s.body.value.NotUtf8? then Failure(BodyNotUtf8)
    else Success(r.(steps := WithDigests(r.steps)))
  }

  predicate Collide(s: Step, t: Step) {
    s.name == t.name || s.key == t.key
  }

  function Digested(s: Step): Step {
    if s.body.Some? && s.digest.None? then s.(digest := Some(Digest(s.body.value))) else s
  }

  function WithDigests(steps: seq<Step>): (r: seq<Step>)
    ensures |r| == |steps|
    ensures forall i :: 0 <= i < |r| ==> r[i] == Digested(steps[i])
  {
    if steps == [] then [] else [Digested(steps[0])] + WithDigests(steps[1..])
  }

  /** The check on every read: each stored digest is compared with its body, never recomputed into it. */
  method VerifyDigests(r: Run) returns (ok: bool)
    ensures ok <==> forall i :: 0 <= i < |r.steps| ==>
      r.steps[i].digest == if r.steps[i].body.Some? then Some(Digest(r.steps[i].body.value)) else None
  {
    for i := 0 to |r.steps|
      invariant forall j :: 0 <= j < i ==>
        r.steps[j].digest == if r.steps[j].body.Some? then Some(Digest(r.steps[j].body.value)) else None
    {
      var s := r.steps[i];
      if s.body.None? && s.digest.None? {
        continue;
      }
      if s.body.None? || s.digest.None? {
        return false;
      }
      if Digest(s.body.value) != s.digest.value {
        return false;
      }
    }
    ok := true;
  }

  // ---------- What every operation keeps ----------

  /** Same step, same key; a body once set stays; what may have been sent stays so. */
  ghost predicate Evolves(s: Step, s': Step) {
    && s'.name == s.name && s'.key == s.key
    && (s.body.Some? ==> s'.body == s.body && s'.digest == s.digest)
    && (s.state.MayHaveSent() ==> s'.state.MayHaveSent())
  }

  lemma BeginKeeps(s: Step, body: Option<RequestBody>)
    requires s.Valid() && BeginStep(s, body).Success?
    ensures var s' := BeginStep(s, body).value;
      && s'.Valid() && Evolves(s, s') && s'.state.Pending?
      && (body.Some? ==> s'.body == body)
  {
  }

  /**
   Begin is refused exactly for a settled step, for bytes a record cannot hold, for
   bytes other than those already recorded, and when there is nothing to send.
   */
  lemma BeginRefusedIff(s: Step, body: Option<RequestBody>)
    requires s.Valid()
    ensures BeginStep(s, body).Failure? <==>
      || s.state.IsTerminal()
      || (body.Some? && body.value.NotUtf8?)
      || (body.Some? && s.body.Some? && s.body != body)
      || (body.None? && s.body.None?)
    ensures BeginStep(s, body).Failure? ==>
      var e := BeginStep(s, body).error;
      && (e.BadTransition? <==> s.state.IsTerminal())
      && (e.BodyNotUtf8? ==> body.Some? && body.value.NotUtf8?)
      && (e.BodyMismatch? ==> body.Some? && !body.value.NotUtf8? && s.body.Some? && s.body != body)
      && (e.NoBody? ==> body.None? && s.body.None?)
      && e in {BadTransition, BodyNotUtf8, BodyMismatch, NoBody}
  {
  }

  /**
   A begin whose save failed leaves the step it began as it was, but for the body it
   was given, and the rest of the run alone.
   */
  lemma KeptAfterFailure(r: Run, name: StepName, body: Option<RequestBody>)
    requires r.Valid() && BeginRun(r, name, body).Success?
    ensures var kept := BegunKept(r, name, body);
      && r.Find(name).Some? && kept == r.(steps := kept.steps)
      && (forall other :: other != name ==> kept.Find(other) == r.Find(other))
      && var s, k := r.Find(name).value, kept.Find(name);
      && k.Some? && k.value == s.(body := k.value.body, digest := k.value.digest)
      && k.value.body == (if body.Some? then body else s.body)
      && BeginRun(r, name, body).value.Find(name) ==
          Some(k.value.(state := State.Pending, attempts := s.attempts + 1))
  {
    var s := r.Find(name).value;
    forall other
      ensures BegunKept(r, name, body).Find(other) == if other == name then Some(Bodied(s, body)) else r.Find(other)
      ensures BeginRun(r, name, body).value.Find(other) ==
        if other == name then Some(BeginStep(s, body).value) else r.Find(other)
    {
      FindAfterReplace(r.steps, Bodied(s, body), other);
      FindAfterReplace(r.steps, BeginStep(s, body).value, other);
    }
  }

  /** An operation on a step the run does not have is refused, and says so. */
  lemma NoSuchStepIff(r: Run, name: StepName, body: Option<RequestBody>, plan: Option<Plan>, token: string)
    ensures BeginRun(r, name, body) == Failure(NoSuchStep) <==> r.Find(name).None?
    ensures AwaitRun(r, name) == Failure(NoSuchStep) <==> r.Find(name).None?
    ensures SetPlanRun(r, name, plan, token) == Failure(NoSuchStep) <==> r.Find(name).None?
    ensures UnreachableRun(r, name) == Failure(NoSuchStep) <==> r.Find(name).None?
    ensures DeclineRun(r, name) == Failure(NoSuchStep) <==> r.Find(name).None?
  {
  }

  lemma AwaitKeeps(s: Step)
    requires s.Valid() && AwaitStep(s).Success?
    ensures AwaitStep(s).value.Valid() && Evolves(s, AwaitStep(s).value)
  {
  }

  lemma SetPlanKeeps(s: Step, plan: Option<Plan>, token: string)
    requires s.Valid() && SetPlanStep(s, plan, token).Success?
    ensures SetPlanStep(s, plan, token).value.Valid() && Evolves(s, SetPlanStep(s, plan, token).value)
  {
  }

  /** Record has no guard of its own: it keeps the record valid on a step that has begun. */
  lemma RecordKeeps(s: Step, resp: Option<Response>, structural: Option<string>, oc: Option<LedgerOutcome>)
    requires s.Valid() && s.state.MayHaveSent()
    ensures var s' := RecordStep(s, resp, structural, oc);
      && s'.Valid() && Evolves(s, s')
      && s'.state == (if oc.Some? && !oc.value.Resumable() then Terminal else Answered)
  {
    if resp.Some? {
      PlanToken.StrippedBodyHoldsNoToken(resp.value.body, structural);
    }
  }

  /** What was sent is not what is recorded: name, key, body and digest are as they were. */
  lemma RecordKeepsRequest(s: Step, resp: Option<Response>, structural: Option<string>, oc: Option<LedgerOutcome>)
    ensures var s' := RecordStep(s, resp, structural, oc);
      s'.name == s.name && s'.key == s.key && s'.body == s.body && s'.digest == s.digest
  {
  }

  /**
   It has no guard: any step, settled or refused or never begun, then reads as
   sent. That is a valid record exactly when the step holds bytes and an attempt.
   */
  lemma RecordUnguarded(s: Step, resp: Option<Response>, structural: Option<string>, oc: Option<LedgerOutcome>)
    requires s.Valid()
    ensures RecordStep(s, resp, structural, oc).state.MayHaveSent()
    ensures RecordStep(s, resp, structural, oc).Valid() <==> s.body.Some? && s.attempts > 0
  {
    if resp.Some? {
      PlanToken.StrippedBodyHoldsNoToken(resp.value.body, structural);
    }
  }

  /** The bytes a body is stored as: some cut of what the structural pass left, with each token in it replaced. */
  ghost predicate StoredAs(stored: string, body: string, structural: Option<string>) {
    exists pieces ::
      && PlanToken.Cut(pieces) && stored == PlanToken.Redacted(pieces)
      && PlanToken.Original(pieces) == if body != "" && structural.Some? then structural.value else body
  }

  /**
   An answer is stored: its status, and its body but for tokens. No answer leaves the last one,
   and the outcome is the one given.
   */
  lemma RecordStores(s: Step, resp: Option<Response>, structural: Option<string>, oc: Option<LedgerOutcome>)
    ensures var s' := RecordStep(s, resp, structural, oc);
      && s'.outcome == oc
      && (resp.None? ==> s'.response == s.response)
      && (resp.Some? ==>
            && s'.response.Some? && s'.response.value.status == resp.value.status
            && StoredAs(s'.response.value.body, resp.value.body, structural))
  {
    if resp.Some? {
      var left := if resp.value.body != "" && structural.Some? then structural.value else resp.value.body;
      var pieces := PlanToken.SweepRemovesOnlyTokens(left);
    }
  }

  // What else each operation changes: nothing.

  lemma BeginEffect(s: Step, body: Option<RequestBody>)
    requires s.Valid() && BeginStep(s, body).Success?
    ensures var s' := BeginStep(s, body).value;
      && s'.body == (if body.Some? then body else s.body) && s'.body.Some? && s'.digest == Some(Digest(s'.body.value))
      && s' == s.(state := State.Pending, attempts := s.attempts + 1, body := s'.body, digest := s'.digest)
  {
  }

  lemma AwaitEffect(s: Step)
    ensures AwaitStep(s).Success? <==> s.state == NotStarted || s.state == AwaitingConfirmation
    ensures AwaitStep(s).Success? ==> AwaitStep(s).value == s.(state := AwaitingConfirmation)
    ensures AwaitStep(s).Failure? ==> AwaitStep(s).error.BadTransition?
  {
  }

  lemma RecordEffect(s: Step, resp: Option<Response>, structural: Option<string>, oc: Option<LedgerOutcome>)
    ensures var s' := RecordStep(s, resp, structural, oc);
      && s' == s.(response := s'.response, outcome := s'.outcome, state := s'.state, planToken := s'.planToken)
      && s'.state == (if oc.Some? && oc.value.exitCode !in {5, 6} then Terminal else Answered)
      && s'.planToken == if s'.state.Terminal? && s.HasPlanToken() then Some("[SCRUBBED]") else s.planToken
  {
  }

  lemma RefusalEffect(s: Step)
    ensures var token := if s.HasPlanToken() then Some("[SCRUBBED]") else s.planToken;
      && (s.state == NotStarted || s.state == AwaitingConfirmation ==>
            DeclineStep(s) == Success(Some(s.(state := Declined, planToken := token))))
      && (UnreachableStep(s).Success? ==>
        UnreachableStep(s).value == s.(state := State.Unreachable, planToken := token))
      && ScrubStep(s) == s.(planToken := token)
  {
  }

  /** A token is a string that is not empty and was not scrubbed. */
  lemma PlanTokenIff(s: Step)
    ensures s.HasPlanToken() <==> s.planToken.Some? && s.planToken.value !in {"", "[SCRUBBED]"}
  {
  }

  /** A plan and its token go onto any step that is not settled, and nothing else does. */
  lemma SetPlanEffect(s: Step, plan: Option<Plan>, token: string)
    ensures SetPlanStep(s, plan, token).Success? <==> s.state !in {Terminal, Declined, State.Unreachable}
    ensures SetPlanStep(s, plan, token).Failure? ==> SetPlanStep(s, plan, token).error.BadTransition?
    ensures SetPlanStep(s, plan, token).Success? ==>
      var s' := SetPlanStep(s, plan, token).value;
      && s' == s.(plan := plan, planToken := s'.planToken)
      && (if token == "" then s'.planToken.None? else s'.planToken == Some(token))
  {
  }

  /** The token of a step that is not settled lives until ten minutes after its plan expires, and not longer. */
  lemma PlannedTokenLives(s: Step, plan: Option<Plan>, token: string, now: int)
    requires SetPlanStep(s, plan, token).Success? && token !in {"", "[SCRUBBED]"}
    ensures var s' := SetPlanStep(s, plan, token).value;
      Scrubs(s', now) <==> plan.Some? && plan.value.expiresAt.Some? && plan.value.expiresAt.value + 600 < now
  {
  }

  /** A scrub leaves a token in a run exactly where it was live, on a step not settled, and not long expired. */
  lemma ScrubLeavesIff(r: Run, now: int, i: nat)
    requires i < |r.steps|
    ensures var s := r.steps[i];
      ScrubRun(r, now).steps[i].HasPlanToken() <==>
        && s.HasPlanToken() && s.state !in {Terminal, Declined, State.Unreachable}
        && (s.plan.None? || s.plan.value.expiresAt.None? || now <= s.plan.value.expiresAt.value + 600)
  {
  }

  lemma DeclineKeeps(s: Step)
    requires s.Valid() && DeclineStep(s).Success? && DeclineStep(s).value.Some?
    ensures var s' := DeclineStep(s).value.value; s'.Valid() && Evolves(s, s') && s'.state.Declined?
  {
  }

  lemma UnreachableKeeps(s: Step)
    requires s.Valid() && UnreachableStep(s).Success?
    ensures var s' := UnreachableStep(s).value; s'.Valid() && Evolves(s, s') && s'.state.Unreachable?
  {
  }

  lemma ScrubKeeps(s: Step)
    requires s.Valid()
    ensures ScrubStep(s).Valid() && Evolves(s, ScrubStep(s)) && !ScrubStep(s).HasPlanToken()
    ensures ScrubStep(s).body == s.body && ScrubStep(s).digest == s.digest && ScrubStep(s).state == s.state
  {
  }

  /** Declining is refused exactly when a request may have left; unreachable is too. */
  lemma RefusalIff(s: Step)
    ensures DeclineStep(s).Failure? <==> s.state.MayHaveSent()
    ensures UnreachableStep(s).Failure? <==> s.state.MayHaveSent()
    ensures DeclineStep(s) == Success(None) <==> s.state.Refused()
    ensures DeclineStep(s).Failure? ==> DeclineStep(s).error.StepMayHaveSent?
    ensures UnreachableStep(s).Failure? ==> UnreachableStep(s).error.StepMayHaveSent?
  {
  }

  /** A refused step cannot begin, be asked about, or be given a plan; only Record is unguarded. */
  lemma RefusedIsAbsorbing(s: Step, body: Option<RequestBody>, plan: Option<Plan>, token: string)
    requires s.state.Refused()
    ensures BeginStep(s, body).Failure? && AwaitStep(s).Failure? && SetPlanStep(s, plan, token).Failure?
    ensures UnreachableStep(s).Success? && UnreachableStep(s).value.state.Refused()
  {
  }

  // ---------- The same over a run ----------

  /** The same steps under the same keys, each evolved. */
  ghost predicate RunEvolves(r: Run, r': Run) {
    && |r'.steps| == |r.steps|
    && forall i :: 0 <= i < |r.steps| ==> Evolves(r.steps[i], r'.steps[i])
  }

  /** Evolution is seen through the names too. */
  lemma EvolvesByName(r: Run, r': Run, name: StepName)
    requires RunEvolves(r, r')
    ensures r.Find(name).None? <==> r'.Find(name).None?
    ensures r.Find(name).Some? ==> Evolves(r.Find(name).value, r'.Find(name).value)
  {
    EvolvesIn(r.steps, r'.steps, name);
  }

  lemma {:induction false} EvolvesIn(ss: seq<Step>, ss': seq<Step>, name: StepName)
    requires |ss| == |ss'| && forall i :: 0 <= i < |ss| ==> Evolves(ss[i], ss'[i])
    ensures FindIn(ss, name).None? <==> FindIn(ss', name).None?
    ensures FindIn(ss, name).Some? ==> Evolves(FindIn(ss, name).value, FindIn(ss', name).value)
  {
    if ss != [] && ss[0].name != name {
      EvolvesIn(ss[1..], ss'[1..], name);
    }
  }

  lemma {:induction false} ReplaceEvolves(ss: seq<Step>, s': Step, i: nat)
    requires FindIn(ss, s'.name).Some? && Evolves(FindIn(ss, s'.name).value, s') && i < |ss|
    ensures Evolves(ss[i], ReplaceIn(ss, s')[i])
  {
    if ss[0].name != s'.name && i > 0 {
      ReplaceEvolves(ss[1..], s', i - 1);
    }
  }

  /** Replacing a step by a valid evolution of it evolves the run. */
  lemma WithEvolves(r: Run, s': Step)
    requires r.Valid() && r.Find(s'.name).Some?
    requires s'.Valid() && Evolves(r.Find(s'.name).value, s')
    ensures r.With(s').Valid() && RunEvolves(r, r.With(s'))
    ensures forall name :: r.With(s').Find(name) == if name == s'.name then Some(s') else r.Find(name)
  {
    WithKeepsValid(r, s');
    forall i | 0 <= i < |r.steps|
      ensures Evolves(r.steps[i], r.With(s').steps[i])
    {
      ReplaceEvolves(r.steps, s', i);
    }
  }

  /** Scrub touches plan tokens and nothing else, and leaves none it should remove. */
  lemma ScrubRunKeeps(r: Run, now: int)
    requires r.Valid()
    ensures ScrubRun(r, now).Valid() && RunEvolves(r, ScrubRun(r, now))
    ensures forall i :: 0 <= i < |r.steps| ==>
      var s, s' := r.steps[i], ScrubRun(r, now).steps[i];
      && s' == s.(planToken := s'.planToken)
      && !Scrubs(s', now)
  {
    var r' := ScrubRun(r, now);
    forall i | 0 <= i < |r.steps|
      ensures Evolves(r.steps[i], r'.steps[i]) && r'.steps[i].Valid() && r'.steps[i].key == r.steps[i].key
      ensures r'.steps[i] == r.steps[i].(planToken := r'.steps[i].planToken) && !Scrubs(r'.steps[i], now)
    {
      ScrubKeeps(r.steps[i]);
    }
  }

  lemma {:induction false} ScrubFind(ss: seq<Step>, now: int, name: StepName)
    ensures FindIn(ScrubSteps(ss, now), name) ==
      match FindIn(ss, name) case None => None case Some(s) => Some(if Scrubs(s, now) then ScrubStep(s) else s)
  {
    if ss != [] {
      assert ScrubSteps(ss, now)[1..] == ScrubSteps(ss[1..], now);
      ScrubFind(ss[1..], now, name);
    }
  }

  /** A new run is accepted exactly when it is well formed, and only its digests are filled in. */
  lemma ValidateNewIff(r: Run)
    ensures ValidateNew(r).Success? <==>
      && r.steps != []
      && (forall i, j :: 0 <= i < j < |r.steps| ==>
        r.steps[i].name != r.steps[j].name && r.steps[i].key != r.steps[j].key)
      && (forall i :: 0 <= i < |r.steps| ==>
            && ValidKey(r.steps[i].key) && r.steps[i].state == NotStarted
            && (r.steps[i].body.Some? ==> !r.steps[i].body.value.NotUtf8?))
    ensures ValidateNew(r).Success? ==>
      var run := ValidateNew(r).value;
      && run == r.(steps := run.steps) && |run.steps| == |r.steps|
      && forall i :: 0 <= i < |r.steps| ==> run.steps[i] == r.steps[i].(digest := run.steps[i].digest)
  {
    if ValidateNew(r).Success? {
      forall i, j | 0 <= i < j < |r.steps|
        ensures r.steps[i].name != r.steps[j].name && r.steps[i].key != r.steps[j].key
      {
        assert !Collide(r.steps[i], r.steps[j]);
      }
      assert forall i :: 0 <= i < |r.steps| ==> r.steps[i] in r.steps;
    }
  }

  lemma NewRunIsValid(r: Run)
    requires forall s :: s in r.steps ==> s.digest.None? && s.planToken.None? && s.response.None?
    ensures ValidateNew(r).Success? ==> ValidateNew(r).value.Valid()
  {
  }

  // ---------- The handle ----------

  /** What an operation that saves did: refused, or wrote `next` with one of the three outcomes. */
  ghost predicate Saves(
    before: Run, store: Store<Run>, next: RunResult, kept: Run, closed: bool,
    after: Run, store': Store<Run>, err: Option<LedgerError>, o: SaveOutcome)
  {
    match next
    case Failure(e) => err == Some(e) && after == before && store' == store
    case Success(r) =>
      && store' == store.Save(r, o)
      && (err.None? <==> o.Saved?)
      && (closed ==> err == Some(HandleClosed) && o.NotWritten?)
      && after == if o.Saved? then r else kept
  }

  /** Begin's refusals, and the body it sets. */
  method Admit(s: Step, body: Option<RequestBody>) returns (err: Option<LedgerError>, bodied: Step)
    ensures match BeginStep(s, body)
      case Failure(e) => err == Some(e)
      case Success(next) =>
        err.None? && bodied == Bodied(s, body) && next == bodied.(state := Pending, attempts := s.attempts + 1)
  {
    bodied := s;
    if s.state.Declined? || s.state.Unreachable? || s.state.Terminal? {
      return Some(BadTransition), bodied;
    }
    if body.Some? {
      if body.value.NotUtf8? {
        return Some(BodyNotUtf8), bodied;
      }
      var digest := Digest(body.value);
      if s.digest.Some? && s.digest.value != digest {
        return Some(BodyMismatch), bodied;
      }
      bodied := s.(body := body, digest := Some(digest));
    }
    err := if bodied.body.None? then Some(NoBody) else None;
  }

  class Handle {
    const fs: FileSystem<Run>
    const path: Name
    const tmp: Name
    var run: Run
    var closed: bool

    ghost predicate Valid()
      reads fs
    {
      fs.disk.Valid() && path != tmp && fs.disk.Clean(path)
    }

    /** The record this handle writes. */
    ghost function OnDisk(): Store<Run>
      requires Valid()
      reads fs
    {
      fs.disk.StoreOf(path)
    }

    constructor (fs: FileSystem<Run>, path: Name, tmp: Name, run: Run)
      requires fs.disk.Valid() && path != tmp && fs.disk.Clean(path)
      ensures Valid() && this.run == run && !closed && this.fs == fs && this.path == path
    {
      this.fs, this.path, this.tmp, this.run, this.closed := fs, path, tmp, run, false;
    }

    /** Writes the run in memory durably. */
    method Save() returns (err: Option<LedgerError>, ghost o: SaveOutcome)
      requires Valid()
      modifies fs
      ensures Valid()
      ensures OnDisk() == old(OnDisk()).Save(run, o)
      ensures err.None? <==> o.Saved?
      ensures closed ==> err == Some(HandleClosed) && o.NotWritten?
    {
      if closed {
        return Some(HandleClosed), NotWritten;
      }
      var failed;
      failed, o := fs.WriteFileAtomic(path, tmp, run);
      WriteRefinesSave(old(fs.disk), fs.disk, path, run, o);
      err := if failed.Some? then Some(SaveFailed) else None;
    }

    /**
     The write that matters: pending, with the body, before anything is sent. A
     failed save rolls the state and the attempt back, and keeps the body.
     */
    method Begin(name: StepName, body: Option<RequestBody>) returns (err: Option<LedgerError>, ghost o: SaveOutcome)
      requires Valid()
      modifies this`run, fs
      ensures Valid()
      ensures Saves(old(run), old(OnDisk()), BeginRun(old(run), name, body), BegunKept(old(run), name, body),
        closed, run, OnDisk(), err, o)
    {
      o := NotWritten;
      match run.Find(name)
      case None => return Some(NoSuchStep), o;
      case Some(s) =>
        var refused, bodied := Admit(s, body);
        if refused.Some? {
          return refused, o;
        }
        var next := run.With(bodied.(state := Pending, attempts := s.attempts + 1));
        var kept := run.With(bodied);
        assert BeginRun(run, name, body) == Success(next) && BegunKept(run, name, body) == kept;
        err, o := SaveOrRollBack(next, kept);
    }

    /** Memory takes `next` for the save, and goes back to `kept` when the save fails. */
    method SaveOrRollBack(next: Run, kept: Run) returns (err: Option<LedgerError>, ghost o: SaveOutcome)
      requires Valid()
      modifies this`run, fs
      ensures Valid()
      ensures OnDisk() == old(OnDisk()).Save(next, o)
      ensures err.None? <==> o.Saved?
      ensures closed ==> err == Some(HandleClosed) && o.NotWritten?
      ensures run == if o.Saved? then next else kept
    {
      run := next;
      err, o := Save();
      if err.Some? {
        run := kept;
      }
    }

    method AwaitConfirmation(name: StepName) returns (err: Option<LedgerError>, ghost o: SaveOutcome)
      requires Valid()
      modifies this`run, fs
      ensures Valid()
      ensures var next := AwaitRun(old(run), name);
        Saves(old(run), old(OnDisk()), next, if next.Success? then next.value
          else old(run), closed, run, OnDisk(), err, o)
    {
      o := NotWritten;
      match run.Find(name)
      case None => return Some(NoSuchStep), o;
      case Some(s) =>
        if !s.state.NotStarted? && !s.state.AwaitingConfirmation? {
          return Some(BadTransition), o;
        }
        run := run.With(s.(state := AwaitingConfirmation));
        err, o := Save();
    }

    method SetPlan(name: StepName, plan: Option<Plan>, token: string)
      returns (err: Option<LedgerError>, ghost o: SaveOutcome)
      requires Valid()
      modifies this`run, fs
      ensures Valid()
      ensures var next := SetPlanRun(old(run), name, plan, token);
        Saves(old(run), old(OnDisk()), next, if next.Success? then next.value
          else old(run), closed, run, OnDisk(), err, o)
    {
      o := NotWritten;
      match run.Find(name)
      case None => return Some(NoSuchStep), o;
      case Some(s) =>
        if s.state.IsTerminal() {
          return Some(BadTransition), o;
        }
        run := run.With(s.(plan := plan, planToken := if token == "" then None else Some(token)));
        err, o := Save();
    }

    method Record(name: StepName, resp: Option<Response>, structural: Option<string>, oc: Option<LedgerOutcome>)
      returns (err: Option<LedgerError>, ghost o: SaveOutcome)
      requires Valid()
      modifies this`run, fs
      ensures Valid()
      ensures var next := RecordRun(old(run), name, resp, structural, oc);
        Saves(old(run), old(OnDisk()), next, if next.Success? then next.value
          else old(run), closed, run, OnDisk(), err, o)
    {
      o := NotWritten;
      match run.Find(name)
      case None => return Some(NoSuchStep), o;
      case Some(s) =>
        if resp.Some? {
          var stored := PlanToken.StripPlanToken(resp.value.body, structural);
          s := s.(response := Some(Response(resp.value.status, stored)));
        }
        s := s.(outcome := oc);
        if oc.None? || oc.value.Resumable() {
          s := s.(state := Answered);
        } else {
          s := s.(state := Terminal);
        }
        if s.state.Terminal? && s.HasPlanToken() {
          s := s.(planToken := Some(SCRUBBED_TOKEN));
        }
        run := run.With(s);
        err, o := Save();
    }

    method Decline(name: StepName) returns (err: Option<LedgerError>, ghost o: SaveOutcome)
      requires Valid()
      modifies this`run, fs
      ensures Valid()
      ensures match DeclineRun(old(run), name)
        case Failure(e) => err == Some(e) && run == old(run) && OnDisk() == old(OnDisk())
        case Success(None) => err.None? && run == old(run) && OnDisk() == old(OnDisk())
        case Success(Some(r)) => Saves(old(run), old(OnDisk()), Success(r), r, closed, run, OnDisk(), err, o)
    {
      o := NotWritten;
      match run.Find(name)
      case None => return Some(NoSuchStep), o;
      case Some(s) =>
        if s.state.Declined? || s.state.Unreachable? {
          return None, o;
        }
        if !s.state.NotStarted? && !s.state.AwaitingConfirmation? {
          return Some(StepMayHaveSent), o;
        }
        s := s.(state := Declined);
        if s.HasPlanToken() {
          s := s.(planToken := Some(SCRUBBED_TOKEN));
        }
        run := run.With(s);
        err, o := Save();
    }

    method Unreachable(name: StepName) returns (err: Option<LedgerError>, ghost o: SaveOutcome)
      requires Valid()
      modifies this`run, fs
      ensures Valid()
      ensures var next := UnreachableRun(old(run), name);
        Saves(old(run), old(OnDisk()), next, if next.Success? then next.value
          else old(run), closed, run, OnDisk(), err, o)
    {
      o := NotWritten;
      match run.Find(name)
      case None => return Some(NoSuchStep), o;
      case Some(s) =>
        if s.state.MayHaveSent() {
          return Some(StepMayHaveSent), o;
        }
        s := s.(state := State.Unreachable);
        if s.HasPlanToken() {
          s := s.(planToken := Some(SCRUBBED_TOKEN));
        }
        run := run.With(s);
        err, o := Save();
    }

    method Close()
      modifies this`closed
      ensures closed
    {
      closed := true;
    }
  }
}
