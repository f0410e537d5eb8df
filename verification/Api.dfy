/**
 One HTTP exchange as the money path reads it (internal/api, and pollTarget and
 commandID of internal/noun/transfers/money.go). HTTP, headers and JSON decoding
 are left out: a body is what the decoders find in it.
 */
module Api {
  import opened Wrappers
  import opened Outcomes

  /** A simulate answer that decoded: its plan's token and expiry. */
  datatype Simulation = Simulation(planToken: Option<string>, expiresAt: int)

  /** What each decoder finds in the body: a command, a simulation, a transaction's status. */
  datatype Body = Body(text: string, command: Option<Command>, simulation: Option<Simulation>,
    transaction: Option<string>)

  /** One answer, or the absence of one. */
  datatype Answer = Answer(
    op: Operation,
    status: int,
    headerCommandId: string,
    replayed: bool,
    retryAfter: Option<int>,
    envelope: Option<Envelope>,
    transport: Option<Phase>,
    body: Body)
  {
    /** What an attempt can return: no answer carries nothing, and only a refusal carries an envelope. */
    ghost predicate Valid() {
      && (transport.Some? ==> status == 0 && headerCommandId == "" && retryAfter.None? && envelope.None? && !replayed)
      && (Is2xx(status) ==> envelope.None?)
    }

    /** The command the answer names: the header, or the envelope's detail. */
    function CommandId(): string {
      if headerCommandId != "" then headerCommandId
      else if envelope.Some? then envelope.value.commandId
      else ""
    }

    /** The tuple the table reads. */
    function Input(parsed: bool, transactionStatus: string): Outcomes.Input {
      Outcomes.Input(op, status, transport, envelope,
        if transport.None? && Is2xx(status) then Some(SuccessBody(parsed, transactionStatus)) else None,
        CommandId(), replayed)
    }

    function ErrorCode(): Code {
      if envelope.Some? then envelope.value.code else Unknown("")
    }
  }

  /** FERRY's wait, with a floor of one second; an absent header is also one second. */
  function RetryDelaySeconds(retryAfter: Option<int>): (seconds: int)
    ensures seconds >= 1
    ensures seconds > 1 <==> retryAfter.Some? && retryAfter.value > 1
    ensures seconds > 1 ==> retryAfter == Some(seconds)
  {
    if retryAfter.None? || retryAfter.value < 1 then 1 else retryAfter.value
  }

  /** The same floor on a command body; an absent field is five seconds. */
  function CommandDelaySeconds(c: Command): (seconds: int)
    ensures seconds >= 1
    ensures c.retryAfterSeconds.None? ==> seconds == 5
    ensures c.retryAfterSeconds.Some? ==> seconds == 1 || c.retryAfterSeconds == Some(seconds)
    ensures c.retryAfterSeconds.Some? && c.retryAfterSeconds.value > 1 ==> seconds > 1
  {
    if c.retryAfterSeconds.None? then 5
    else if c.retryAfterSeconds.value < 1 then 1
    else c.retryAfterSeconds.value
  }

  const FIXTURE_UNMATCHED: int := 599

  /** May this answer be resent byte for byte under the same key? */
  predicate Retryable(class_: OpClass, status: int, code: Code, headerCommandId: string) {
    if class_.ControlCreate? || status == FIXTURE_UNMATCHED then false
    else if status == 429 then true
    else if status < 500 then false
    else
      match code
      case UpstreamBusy => headerCommandId == ""
      case ServiceUnavailable | UpstreamAuthUnavailable | InternalError => true
      case UpstreamUnavailable | UpstreamNotConfigured | UpstreamCredentialsInvalid => false
      case _ => !class_.IsMoney()
  }

  predicate Resends(class_: OpClass, a: Answer) {
    a.transport.None? && Retryable(class_, a.status, a.ErrorCode(), a.headerCommandId)
  }

  // ---------- The money path's reading of an answer ----------

  /** A command body; one without an id is not a command. */
  function DecodeCommand(body: Body): Option<Command> {
    if body.command.Some? && body.command.value.id == "" then None else body.command
  }

  /** A 202's command, once decoded. */
  function AcceptedCommand(a: Answer): Option<Command> {
    if a.transport.None? && a.status == 202 then DecodeCommand(a.body) else None
  }

  /** The simulation this answer itself carries, not one behind a command. */
  function OwnSimulation(a: Answer): Option<Simulation> {
    if a.transport.None? && Is2xx(a.status) && a.status != 202 && a.op.SimulateTransfer? then a.body.simulation
      else None
  }

  function OwnTransaction(a: Answer): Option<string> {
    if a.transport.None? && Is2xx(a.status) && a.status != 202 && a.op.ExecuteTransfer? then a.body.transaction
      else None
  }

  /** What the table is asked about a money answer: `parsed` is whether the operation's own body decoded. */
  function MoneyInput(a: Answer): Outcomes.Input {
    var parsed := AcceptedCommand(a).Some? || OwnSimulation(a).Some? || OwnTransaction(a).Some?;
    a.Input(parsed, if OwnTransaction(a).Some? then OwnTransaction(a).value else "")
  }

  function ClassifyAnswer(a: Answer): Class {
    Classify(MoneyInput(a))
  }

  /** Whether an answer is followed by polling its command, and after how long. */
  function PollTarget(a: Answer): Option<(string, int)> {
    var id := a.CommandId();
    var delay :=
      if a.retryAfter.Some? then RetryDelaySeconds(a.retryAfter)
      else if AcceptedCommand(a).Some? then CommandDelaySeconds(AcceptedCommand(a).value)
      else 5;
    if id == "" then None
    else if a.status == 202 then Some((id, delay))
    else if a.envelope.None? then None
    else if a.envelope.value.code.UpstreamBusy? || a.envelope.value.code.IdempotencyKeyInProgress? then
      Some((id, delay))
    else None
  }

  /** The token this answer hands to this invocation: fresh, not replayed, not empty. */
  function FreshPlanToken(a: Answer): Option<string> {
    match OwnSimulation(a)
    case None => None
    case Some(sim) =>
      if a.replayed || sim.planToken.None? || sim.planToken.value == "" then None else sim.planToken
  }

  /**
   The token an invocation may execute: handed to it by this very answer, a simulate's
   own 2xx body, not a 202's, not replayed, and not empty.
   */
  lemma FreshTokenIff(a: Answer, token: string)
    ensures FreshPlanToken(a) == Some(token) <==> HandsOut(a, token)
  {
  }

  ghost predicate HandsOut(a: Answer, token: string) {
    && a.op == SimulateTransfer && a.transport == None && 200 <= a.status < 300 && a.status != 202 && !a.replayed
    && a.body.simulation.Some? && a.body.simulation.value.planToken == Some(token) && token != ""
  }

  /** A money answer exits 0 exactly when its own success body was read, and no transfer in it failed. */
  lemma AnswerExitZeroIff(a: Answer)
    requires IsMoneyAnswer(a)
    ensures ClassifyAnswer(a).Exit() == 0 <==>
      && a.transport.None? && 200 <= a.status < 300 && a.status != 202
      && (a.op == SimulateTransfer ==> a.body.simulation.Some?)
      && (a.op == ExecuteTransfer ==> a.body.transaction.Some? && a.body.transaction != Some("failed"))
  {
    MoneyExitZeroIff(MoneyInput(a));
  }

  /** A money answer is pending when nothing established came back. */
  lemma AnswerPendingIf(a: Answer)
    requires IsMoneyAnswer(a)
    ensures a.transport == Some(AfterWrite) || (a.transport.None? && a.status == 202) ==> ClassifyAnswer(a).Pending?
    ensures a.transport.None? && !Is2xx(a.status) && a.envelope.None? ==> ClassifyAnswer(a).Pending?
    ensures a.transport == Some(Dial) ==> ClassifyAnswer(a).Transient?
    ensures a.transport.None? && Is2xx(a.status) && a.status != 202 ==>
      a.op == ExecuteTransfer && a.body.transaction == Some("failed") ==> ClassifyAnswer(a).UpstreamFailed?
  {
    MoneyPendingIff(MoneyInput(a));
  }

  /**
   Which answers are followed, whose command, and after how long: the header's wait, or the 202's,
   or five seconds.
   */
  lemma FollowedIff(a: Answer)
    ensures PollTarget(a).Some? <==>
      && (a.headerCommandId != "" || (a.envelope.Some? && a.envelope.value.commandId != ""))
      && (a.status == 202 || (a.envelope.Some? && a.envelope.value.code in {UpstreamBusy, IdempotencyKeyInProgress}))
    ensures PollTarget(a).Some? ==>
      var (id, delay) := PollTarget(a).value;
      && id == (if a.headerCommandId != "" then a.headerCommandId else a.envelope.value.commandId)
      && (a.retryAfter.Some? ==> delay == if a.retryAfter.value > 1 then a.retryAfter.value else 1)
      && (a.retryAfter.None? && NamesCommand(a) ==> delay == CommandDelaySeconds(a.body.command.value))
      && (a.retryAfter.None? && !NamesCommand(a) ==> delay == 5)
  {
  }

  /** A 202 whose body is a command with an id. */
  ghost predicate NamesCommand(a: Answer) {
    a.transport.None? && a.status == 202 && a.body.command.Some? && a.body.command.value.id != ""
  }

  /** Which refusals are resent byte for byte on the money path, and on a read. */
  lemma ResentIff(a: Answer)
    requires a.transport.None?
    ensures forall class_: OpClass :: class_.IsMoney() ==>
      (Resends(class_, a) <==>
        a.status == 429
        || (a.status >= 500 && a.status != 599 && a.envelope.Some?
            && (a.envelope.value.code in {ServiceUnavailable, UpstreamAuthUnavailable, InternalError}
                || (a.envelope.value.code.UpstreamBusy? && a.headerCommandId == ""))))
    ensures Resends(Read, a) <==>
      a.status == 429
      || (a.status >= 500 && a.status != 599
          && !(a.envelope.Some? &&
            a.envelope.value.code in {UpstreamUnavailable, UpstreamNotConfigured, UpstreamCredentialsInvalid})
          && !(a.envelope.Some? && a.envelope.value.code.UpstreamBusy? && a.headerCommandId != ""))
  {
  }

  // ---------- Where the loops and the table agree ----------

  ghost predicate IsMoneyAnswer(a: Answer) {
    a.Valid() && (a.op.SimulateTransfer? || a.op.ExecuteTransfer?)
  }

  function MoneyClass(a: Answer): OpClass {
    if a.op.ExecuteTransfer? then MoneyExecute else MoneySimulate
  }

  /** Every followed answer is `pending`: the poll's record never overwrites a settled step. */
  lemma FollowedIsPending(a: Answer)
    requires IsMoneyAnswer(a) && PollTarget(a).Some?
    ensures ClassifyAnswer(a).Pending?
  {
  }

  /** A 5xx the loop resends on its own is one the table says is safe to resend. */
  lemma ResentServerErrorIsSafe(a: Answer)
    requires IsMoneyAnswer(a) && a.status >= 500 && Resends(MoneyClass(a), a)
    ensures ClassifyAnswer(a).SameKeySafe()
  {
  }

  /**
   A 429 is resent whatever its code says. The table agrees exactly when the code's
   own row does: a 429 carrying a refusal's code is resent and then reported as one.
   */
  lemma ResentThrottleIsSafeIff(a: Answer)
    requires IsMoneyAnswer(a) && a.status == 429 && a.transport.None?
    ensures Resends(MoneyClass(a), a)
    ensures ClassifyAnswer(a).SameKeySafe() <==>
      a.envelope.None? || RuleFor(a.envelope.value.code).None? ||
      RuleFor(a.envelope.value.code).value.VerdictFor(MoneyClass(a)).SameKeySafe()
  {
  }

  /** RATE_LIMITED, an unknown code and no envelope at all are the agreeing cases a 429 should carry. */
  lemma ThrottleIsSafe(a: Answer)
    requires IsMoneyAnswer(a) && a.status == 429 && a.transport.None?
    requires a.ErrorCode().RateLimited? || a.ErrorCode().Unknown?
    ensures Resends(MoneyClass(a), a) && ClassifyAnswer(a).SameKeySafe()
  {
    ResentThrottleIsSafeIff(a);
  }

  lemma ThrottleWithRefusalIsResent(op: Operation)
    requires op.SimulateTransfer? || op.ExecuteTransfer?
    ensures var a := Answer(op, 429, "", false, None, Some(Envelope(PlanExpired, "", "")), None,
      Body("", None, None, None));
      IsMoneyAnswer(a) && Resends(MoneyClass(a), a) && !ClassifyAnswer(a).SameKeySafe()
  {
  }

  /**
   The retry loop reads only the header where the follow-up also reads the detail:
   the one answer both would act on is a 429 or an UPSTREAM_BUSY whose command is
   not in the header, or a 429 naming a command in progress.
   */
  lemma ResentAndFollowedIff(a: Answer)
    requires IsMoneyAnswer(a)
    ensures Resends(MoneyClass(a), a) && PollTarget(a).Some? <==>
      && a.transport.None? && a.envelope.Some? && a.CommandId() != ""
      && ((a.status == 429 && (a.envelope.value.code.UpstreamBusy? || a.envelope.value.code.IdempotencyKeyInProgress?))
          || (a.status >= 500 && a.status != FIXTURE_UNMATCHED && a.envelope.value.code.UpstreamBusy? &&
            a.headerCommandId == ""))
  {
  }
}
