/**
 The decision table (internal/outcome): one API answer, or one command body,
 becomes one outcome class. Sentences and warnings are presentation and are left
 out; an error code is a constructor, and any code outside the catalogue, the
 empty one included, is `Unknown`.
 */
module Outcomes {
  import opened Wrappers

  // ---------- class.go ----------

  datatype Class =
    | Done | AcceptedUpstream | CliFault | Usage | RefusedFix | RefusedResimulate
    | Transient | Pending | Escalate | UpstreamFailed
  {
    /** The exit code the class reports. */
    function Exit(): nat {
      match this
      case Done => 0
      case AcceptedUpstream => 0
      case CliFault => 1
      case Usage => 2
      case RefusedFix => 3
      case RefusedResimulate => 4
      case Transient => 5
      case Pending => 6
      case Escalate => 7
      case UpstreamFailed => 8
    }

    /** May the caller resend the identical request under the same key? */
    predicate SameKeySafe() {
      match this
      case RefusedFix => false
      case RefusedResimulate => false
      case Escalate => false
      case UpstreamFailed => false
      case _ => true
    }
  }

  // ---------- operation.go ----------

  datatype Operation =
    | GetMe | ListApiKeys | CreateApiKey | GetApiKey | RevokeApiKey | ListCorridors | GetCorridor
    | SimulateTransfer | ExecuteTransfer | GetCommand
    | OtherOperation(name: string)

  datatype OpClass = MoneySimulate | MoneyExecute | Read | ControlCreate {
    predicate IsMoney() {
      MoneySimulate? || MoneyExecute?
    }
  }

  function ClassOf(op: Operation): Option<OpClass> {
    match op
    case CreateApiKey => Some(ControlCreate)
    case SimulateTransfer => Some(MoneySimulate)
    case ExecuteTransfer => Some(MoneyExecute)
    case OtherOperation(_) => None
    case _ => Some(Read)
  }

  datatype CommandState =
    | Reserved | Inflight | UpstreamUnknown | Completed | FailedRetriable | FailedTerminal | NeedsOperator
    | OtherState(name: string)
  {
    predicate Known() {
      !OtherState?
    }

    /** Will not move again. */
    predicate IsTerminal() {
      Completed? || FailedTerminal?
    }

    /** Still on its way to an answer. */
    predicate Moving() {
      Reserved? || Inflight? || UpstreamUnknown? || FailedRetriable?
    }
  }

  // ---------- table.go ----------

  datatype Code =
    | TokenMissing | TokenInvalid | TokenExpired | TokenRevoked | OrganizationSuspended | EnvironmentDisabled
    | WrongTokenClass | InsufficientScope | RoleForbidden | StepUpRequired | Forbidden | NotFound
    | ValidationFailed | MalformedJson | CursorInvalid | UnsupportedMediaType | IdempotencyKeyRequired
    | IdempotencyKeyInvalid | IdempotencyKeyReused | IdempotencyKeyInProgress | IdempotencyKeyReplayExpired
    | CommandUnresolved | RateLimited | InternalError | ServiceUnavailable | UpstreamBusy
    | UpstreamNotConfigured | UpstreamUnavailable | UpstreamContractViolation | UpstreamCredentialsInvalid
    | UpstreamAuthUnavailable | PlanNotFound | PlanExpired | PlanAlreadyUsed | PlanChanged | PlanKeyMismatch
    | PolicyNotConfigured | PolicyInvalid | PolicyUnpricedAsset | PolicyCustomerNotAllowed
    | PolicyDestinationNotAllowed | PolicyMaxAmountPerTransaction | PolicyMaxAmountPerDay
    | PolicyMaxAmountPer30D | PolicyMaxTransactionsPerDay | DestinationTooNew | ExecutionSuspended
    | CorridorUnsupported | CorridorNotExecutable | DestinationNotExecutable | InstrumentInvalid
    | AmountInvalid | QuoteRejected | WebhookEndpointUnknown | WebhookEndpointRetired | WebhookSignatureInvalid
    | WebhookModeMismatch | WebhookBodyTooLarge | WebhookIngressUnverified
    | Unknown(text: string)

  /** One row: a class for each column. */
  datatype Rule = Rule(simulate: Class, execute: Class, read: Class) {
    function VerdictFor(class_: OpClass): Class {
      match class_
      case MoneySimulate => simulate
      case MoneyExecute => execute
      case Read => read
      case ControlCreate => read
    }
  }

  const FIX := Rule(RefusedFix, RefusedFix, RefusedFix)
  const SPENT_ON_EXECUTE := Rule(RefusedFix, RefusedResimulate, RefusedFix)
  const PLAN_UNUSABLE := Rule(RefusedResimulate, RefusedResimulate, RefusedFix)
  const TRANSIENT := Rule(Transient, Transient, Transient)
  const QUOTE_REFUSAL := Rule(RefusedFix, RefusedResimulate, RefusedFix)

  function OffSurface(readClass: Class): Rule {
    Rule(Pending, Pending, readClass)
  }

  /** The census: every code of the catalogue has a row, and nothing else has. */
  function RuleFor(code: Code): Option<Rule> {
    match code
    case TokenMissing | TokenInvalid | TokenExpired | TokenRevoked | OrganizationSuspended
       | EnvironmentDisabled | WrongTokenClass | InsufficientScope | RoleForbidden | StepUpRequired
       | Forbidden | NotFound | ValidationFailed | MalformedJson | CursorInvalid
       | UnsupportedMediaType | IdempotencyKeyRequired | IdempotencyKeyInvalid => Some(FIX)
    case IdempotencyKeyReused => Some(Rule(Escalate, Escalate, RefusedFix))
    case IdempotencyKeyInProgress => Some(Rule(Pending, Pending, Transient))
    case IdempotencyKeyReplayExpired => Some(Rule(Escalate, Escalate, RefusedFix))
    case CommandUnresolved => Some(Rule(Escalate, Escalate, Escalate))
    case RateLimited | ServiceUnavailable | UpstreamBusy | UpstreamAuthUnavailable => Some(TRANSIENT)
    case InternalError => Some(Rule(Pending, Pending, Transient))
    case UpstreamNotConfigured | UpstreamCredentialsInvalid => Some(FIX)
    case UpstreamUnavailable => Some(PLAN_UNUSABLE)
    case UpstreamContractViolation => Some(SPENT_ON_EXECUTE)
    case PlanNotFound | PlanExpired | PlanAlreadyUsed | PlanChanged | PlanKeyMismatch => Some(PLAN_UNUSABLE)
    case PolicyNotConfigured | PolicyInvalid | PolicyUnpricedAsset | PolicyCustomerNotAllowed
       | PolicyDestinationNotAllowed | PolicyMaxAmountPerTransaction | PolicyMaxAmountPerDay
       | PolicyMaxAmountPer30D | PolicyMaxTransactionsPerDay | DestinationTooNew | ExecutionSuspended =>
         Some(SPENT_ON_EXECUTE)
    case CorridorUnsupported | CorridorNotExecutable | DestinationNotExecutable | InstrumentInvalid
       | AmountInvalid | QuoteRejected => Some(QUOTE_REFUSAL)
    case WebhookEndpointUnknown | WebhookEndpointRetired | WebhookSignatureInvalid
       | WebhookModeMismatch | WebhookBodyTooLarge => Some(OffSurface(RefusedFix))
    case WebhookIngressUnverified => Some(OffSurface(Transient))
    case Unknown(_) => None
  }

  // ---------- classify.go ----------

  /** Whether bytes may have left the host, measured and not inferred. */
  datatype Phase = Dial | AfterWrite

  /** The error envelope; `details` fields that are absent or not strings read as "". */
  datatype Envelope = Envelope(code: Code, reason: string, commandId: string)

  datatype SuccessBody = SuccessBody(parsed: bool, transactionStatus: string)

  datatype Input = Input(
    op: Operation,
    status: int,
    transport: Option<Phase>,
    envelope: Option<Envelope>,
    success: Option<SuccessBody>,
    commandId: string,
    replayed: bool)

  predicate Is2xx(status: int) {
    200 <= status < 300
  }

  /** The table's second inputs: the two codes whose discriminant is not the code. */
  function Refine(e: Envelope, commandId: string, class_: OpClass, declared: Class): Class {
    if !class_.IsMoney() then declared
    else if e.code.IdempotencyKeyReused? && e.reason == "different_request" then RefusedFix
    else if e.code.UpstreamBusy? && commandId != "" then Pending
    else declared
  }

  /** One answer becomes one class; the branches run from least known to most. */
  function Classify(in_: Input): Class {
    match ClassOf(in_.op)
    case None => Pending
    case Some(class_) =>
      if in_.transport.Some? then ClassifyTransport(in_.transport.value, class_)
      else if Is2xx(in_.status) then ClassifySuccess(in_, class_)
      else
        match in_.envelope
        case None => if class_.IsMoney() then Pending else Transient
        case Some(e) =>
          match RuleFor(e.code)
          case None => ClassifyUnknownCode(in_.status, class_)
          case Some(rule) => Refine(e, in_.commandId, class_, rule.VerdictFor(class_))
  }

  function ClassifyTransport(phase: Phase, class_: OpClass): Class {
    if phase.AfterWrite? && (class_.ControlCreate? || class_.IsMoney()) then Pending else Transient
  }

  function ClassifySuccess(in_: Input, class_: OpClass): Class {
    if in_.success.None? || !in_.success.value.parsed then
      if class_.IsMoney() then Pending else Transient
    else if in_.status == 202 then Pending
    else
      match class_
      case MoneyExecute => if in_.success.value.transactionStatus == "failed" then UpstreamFailed else AcceptedUpstream
      case _ => Done
  }

  function ClassifyUnknownCode(status: int, class_: OpClass): Class {
    if class_.IsMoney() then Pending
    else if status >= 500 then Transient
    else RefusedFix
  }

  // ---------- command.go ----------

  /** A command body, reduced to what the terminal rule and the poll loop read. */
  datatype Command = Command(
    id: string,
    operation: Operation,
    state: CommandState,
    contradiction: bool,
    result: Option<string>,        // the stored transaction's status, when a result is stored
    lastErrorCode: Code,
    retryAfterSeconds: Option<int>)

  function ClassifyCommand(c: Command): Class {
    if c.contradiction then Escalate
    else if !c.state.Known() then Escalate
    else if c.state.NeedsOperator? then Escalate
    else
      match c.state
      case Completed => ClassifyCompleted(c)
      case FailedTerminal => ClassifyFailedTerminal(c)
      case _ => Pending
  }

  function ClassifyCompleted(c: Command): Class {
    match c.operation
    case ExecuteTransfer => if c.result == Some("failed") then UpstreamFailed else AcceptedUpstream
    case SimulateTransfer => RefusedResimulate
    case _ => Escalate
  }

  function ClassifyFailedTerminal(c: Command): Class {
    match ClassOf(c.operation)
    case None => Escalate
    case Some(class_) =>
      match RuleFor(c.lastErrorCode)
      case None => Escalate
      case Some(rule) =>
        var v := rule.VerdictFor(class_);
        if v.Transient? || v.Pending? then Escalate else v
  }

  // ---------- What the table guarantees ----------

  /**
   A command body classifies `pending` exactly while it is moving and carries no
   contradiction, and never `transient`: a stopped command is never polled again.
   */
  lemma PollAgainIff(c: Command)
    ensures ClassifyCommand(c).Pending? <==> !c.contradiction && c.state.Moving()
    ensures !ClassifyCommand(c).Transient?
  {
  }

  /** No row of the census is a local fault or a usage error. */
  lemma RowsMakeNoLocalClaim(code: Code, class_: OpClass)
    requires RuleFor(code).Some?
    ensures var v := RuleFor(code).value.VerdictFor(class_); !v.CliFault? && !v.Usage?
  {
  }

  /** No answer and no command body is ever a local fault or a usage error. */
  lemma TableMakesNoLocalClaim(in_: Input, c: Command)
    ensures !Classify(in_).CliFault? && !Classify(in_).Usage?
    ensures !ClassifyCommand(c).CliFault? && !ClassifyCommand(c).Usage?
  {
    AnswersMakeNoLocalClaim(in_);
    CommandsMakeNoLocalClaim(c);
  }

  lemma AnswersMakeNoLocalClaim(in_: Input)
    ensures !Classify(in_).CliFault? && !Classify(in_).Usage?
  {
    if ClassOf(in_.op).Some? && in_.envelope.Some? && RuleFor(in_.envelope.value.code).Some? {
      RowsMakeNoLocalClaim(in_.envelope.value.code, ClassOf(in_.op).value);
    }
  }

  lemma CommandsMakeNoLocalClaim(c: Command)
    ensures !ClassifyCommand(c).CliFault? && !ClassifyCommand(c).Usage?
  {
    if ClassOf(c.operation).Some? && RuleFor(c.lastErrorCode).Some? {
      RowsMakeNoLocalClaim(c.lastErrorCode, ClassOf(c.operation).value);
    }
  }

  /**
   Each class has its own exit code, but for the two that succeed; a same-key resend is safe below 3,
   at 5 and at 6.
   */
  lemma ExitCodesAre(c: Class, d: Class)
    ensures c.Exit() <= 8
    ensures c.Exit() == d.Exit() <==> c == d || (c in {Done, AcceptedUpstream} && d in {Done, AcceptedUpstream})
    ensures c.Exit() == 0 <==> c in {Done, AcceptedUpstream}
    ensures (c.Exit() == 5 <==> c.Transient?) && (c.Exit() == 6 <==> c.Pending?)
    ensures (c.Exit() == 1 <==> c.CliFault?) && (c.Exit() == 2 <==> c.Usage?)
    ensures (c.Exit() == 3 <==> c.RefusedFix?) && (c.Exit() == 4 <==> c.RefusedResimulate?)
    ensures (c.Exit() == 7 <==> c.Escalate?) && (c.Exit() == 8 <==> c.UpstreamFailed?)
    ensures c.SameKeySafe() <==> c.Exit() < 3 || c.Exit() in {5, 6}
  {
  }

  /**
   What a command that stopped comes to. Only a completed execute that did not fail
   exits 0; a completed simulate never gave its token out; and what contradicts
   itself, is unknown, or waits for an operator is escalated.
   */
  lemma CommandClassIs(c: Command)
    ensures ClassifyCommand(c).Exit() == 0 <==>
      !c.contradiction && c.state.Completed? && c.operation.ExecuteTransfer? && c.result != Some("failed")
    ensures c.contradiction || c.state.OtherState? || c.state.NeedsOperator? ==> ClassifyCommand(c).Escalate?
    ensures !c.contradiction && c.state.Completed? ==>
      && (c.operation.ExecuteTransfer? ==>
            ClassifyCommand(c) == if c.result == Some("failed") then UpstreamFailed else AcceptedUpstream)
      && (c.operation.SimulateTransfer? ==> ClassifyCommand(c).RefusedResimulate?)
      && (!c.operation.ExecuteTransfer? && !c.operation.SimulateTransfer? ==> ClassifyCommand(c).Escalate?)
  {
  }

  /**
   A command that failed for good is classified as its error code answered directly,
   with the doubt taken out: what would be transient or pending, or is not in the
   catalogue, is escalated.
   */
  lemma FailedLikeItsCode(c: Command, status: int)
    requires c.state.FailedTerminal? && !c.contradiction && ClassOf(c.operation).Some? && !Is2xx(status)
    ensures var direct :=
      Classify(Input(c.operation, status, None, Some(Envelope(c.lastErrorCode, "", "")), None, "", false));
      ClassifyCommand(c) ==
        if RuleFor(c.lastErrorCode).None? || direct.Transient? || direct.Pending? then Escalate else direct
  {
  }

  predicate Money(op: Operation) {
    op.SimulateTransfer? || op.ExecuteTransfer?
  }

  /** The verdict the table has for a money answer's code; nothing for no envelope or a code outside the catalogue. */
  function TableSays(in_: Input): Option<Class>
    requires Money(in_.op)
  {
    if in_.envelope.None? || RuleFor(in_.envelope.value.code).None? then None
    else
      var rule := RuleFor(in_.envelope.value.code).value;
      Some(if in_.op.ExecuteTransfer? then rule.execute else rule.simulate)
  }

  /**
   Not established is never called a refusal: a money answer is pending exactly when
   bytes may have left and nothing came back, a success could not be read or is a
   202, or a refusal names no catalogued code, a pending one, or a command.
   */
  lemma MoneyPendingIff(in_: Input)
    requires Money(in_.op)
    ensures Classify(in_).Pending? <==>
      || in_.transport == Some(AfterWrite)
      || (in_.transport.None? && Is2xx(in_.status) &&
            (in_.status == 202 || in_.success.None? || !in_.success.value.parsed))
      || (in_.transport.None? && !Is2xx(in_.status) &&
            (TableSays(in_).None?
             || (in_.envelope.value.code.UpstreamBusy? && in_.commandId != "")
             || (TableSays(in_).value.Pending? &&
                  !(in_.envelope.value.code.IdempotencyKeyReused? &&
                    in_.envelope.value.reason == "different_request"))))
  {
  }

  /** And every other class of a money answer: no bytes left, a success that was read, or what the table says. */
  lemma MoneyOtherwise(in_: Input)
    requires Money(in_.op) && !Classify(in_).Pending?
    ensures in_.transport == Some(Dial) ==> Classify(in_).Transient?
    ensures in_.transport.None? && Is2xx(in_.status) ==>
      Classify(in_) ==
        if in_.op.SimulateTransfer? then Done
        else if in_.success.value.transactionStatus == "failed" then UpstreamFailed else AcceptedUpstream
    ensures in_.transport.None? && !Is2xx(in_.status) ==>
      && TableSays(in_).Some?
      && Classify(in_) ==
        if in_.envelope.value.code.IdempotencyKeyReused? && in_.envelope.value.reason == "different_request" then
          RefusedFix
        else TableSays(in_).value
  {
  }

  /**
   The table read the other way, for an execute: which codes leave it open, which may
   be sent again as they are, and which need a person.
   */
  lemma ExecuteCodes(code: Code)
    requires RuleFor(code).Some?
    ensures var v := RuleFor(code).value.execute;
      && (v.Pending? <==>
            code in {IdempotencyKeyInProgress, InternalError, WebhookEndpointUnknown, WebhookEndpointRetired,
              WebhookSignatureInvalid, WebhookModeMismatch, WebhookBodyTooLarge, WebhookIngressUnverified})
      && (v.Transient? <==> code in {RateLimited, ServiceUnavailable, UpstreamBusy, UpstreamAuthUnavailable})
      && (v.Escalate? <==> code in {IdempotencyKeyReused, IdempotencyKeyReplayExpired, CommandUnresolved})
  {
  }

  /** Which spend the plan; every code not named here or above asks for the request to be fixed. */
  lemma ExecuteRefusals(code: Code)
    requires RuleFor(code).Some?
    ensures var v := RuleFor(code).value.execute;
      && (v.RefusedResimulate? <==>
            || code in {UpstreamUnavailable, UpstreamContractViolation, PlanNotFound, PlanExpired, PlanAlreadyUsed}
            || code in {PlanChanged, PlanKeyMismatch, CorridorUnsupported, CorridorNotExecutable}
            || code in {DestinationNotExecutable, InstrumentInvalid, AmountInvalid, QuoteRejected}
            || IsPolicy(code))
      && (v.RefusedFix? || v.Pending? || v.Transient? || v.RefusedResimulate? || v.Escalate?)
  {
  }

  /** And for a simulate: only a plan that cannot be used, or an upstream that is away, asks for another. */
  lemma SimulateCodes(code: Code)
    requires RuleFor(code).Some?
    ensures var rule := RuleFor(code).value;
      && (rule.simulate != rule.execute ==> rule.simulate.RefusedFix? && rule.execute.RefusedResimulate?)
      && (rule.simulate.RefusedResimulate? <==>
            code in {UpstreamUnavailable, PlanNotFound, PlanExpired, PlanAlreadyUsed, PlanChanged, PlanKeyMismatch})
  {
  }

  /** For a read only four kinds of code are worth another try, and only an unresolved command needs a person. */
  lemma ReadCodes(code: Code)
    requires RuleFor(code).Some?
    ensures var v := RuleFor(code).value.read;
      && (v.Transient? <==>
            code in {RateLimited, ServiceUnavailable, UpstreamBusy, UpstreamAuthUnavailable, IdempotencyKeyInProgress,
              InternalError, WebhookIngressUnverified})
      && (v.Escalate? <==> code.CommandUnresolved?)
      && (v.Transient? || v.Escalate? || v.RefusedFix?)
  {
  }

  /** A policy said no. */
  ghost predicate IsPolicy(code: Code) {
    || code in {PolicyNotConfigured, PolicyInvalid, PolicyUnpricedAsset, PolicyCustomerNotAllowed}
    || code in {PolicyDestinationNotAllowed, PolicyMaxAmountPerTransaction, PolicyMaxAmountPerDay}
    || code in {PolicyMaxAmountPer30D, PolicyMaxTransactionsPerDay, DestinationTooNew, ExecutionSuspended}
  }

  /**
   Off the money path: nothing is pending but a 202 that was read and a key being
   made whose request may have arrived; a success must be read; and a refusal nobody
   catalogued is another try above 500 and a mistake below.
   */
  lemma OtherwiseClassified(in_: Input)
    requires ClassOf(in_.op).Some? && !Money(in_.op)
    ensures Classify(in_).Exit() == 0 <==>
      && in_.transport.None? && Is2xx(in_.status) && in_.status != 202
      && in_.success.Some? && in_.success.value.parsed
    ensures Classify(in_).Pending? <==>
      || (in_.transport == Some(AfterWrite) && in_.op.CreateApiKey?)
      || (in_.transport.None? && in_.status == 202 && in_.success.Some? && in_.success.value.parsed)
    ensures in_.transport.None? && !Is2xx(in_.status) && in_.envelope.Some? ==>
      Classify(in_) == match RuleFor(in_.envelope.value.code)
        case Some(rule) => rule.read
        case None => if in_.status >= 500 then Transient else RefusedFix
    ensures Classify(in_) in {Done, Pending, Transient, Escalate, RefusedFix}
  {
    if in_.envelope.Some? && RuleFor(in_.envelope.value.code).Some? {
      ReadCodes(in_.envelope.value.code);
    }
  }

  /** An operation nobody knows is never called settled. */
  lemma UnknownOperationIsPending(in_: Input)
    requires in_.op.OtherOperation?
    ensures Classify(in_).Pending?
  {
  }

  /**
   The shape of the table on the money path: no code is a success or a failed
   transfer, a code safe to resend for one step is for the other, and an execute is
   never told to fix what a simulate must price again.
   */
  lemma TableShape(code: Code)
    requires RuleFor(code).Some?
    ensures var rule := RuleFor(code).value;
      && rule.simulate.Exit() != 0 && rule.execute.Exit() != 0 && rule.read.Exit() != 0
      && !rule.simulate.UpstreamFailed? && !rule.execute.UpstreamFailed?
      && (rule.simulate.SameKeySafe() <==> rule.execute.SameKeySafe())
      && (rule.simulate.RefusedResimulate? ==> rule.execute.RefusedResimulate?)
      && (rule.execute.RefusedFix? ==> rule.simulate.RefusedFix?)
      && (rule.simulate.Escalate? <==> rule.execute.Escalate?)
      && !rule.read.RefusedResimulate? && !rule.read.Pending?
  {
  }

  /**
   A simulate exits 0 exactly on a readable 2xx that is not a 202; an execute
   exactly on one whose transaction has not failed.
   */
  lemma MoneyExitZeroIff(in_: Input)
    requires in_.op.SimulateTransfer? || in_.op.ExecuteTransfer?
    ensures Classify(in_).Exit() == 0 <==>
      && in_.transport.None? && Is2xx(in_.status) && in_.status != 202
      && in_.success.Some? && in_.success.value.parsed
      && (in_.op.ExecuteTransfer? ==> in_.success.value.transactionStatus != "failed")
  {
  }
}
