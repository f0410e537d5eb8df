/**
 The one place an invocation ends (internal/cli/root.go, internal/cli/flight and
 cmd/ferry/main.go): from the error, a panic, a signal and the in-flight flag to
 the exit code and the document on stdout.
 */
module Exit {
  import opened Wrappers
  import opened Outcomes

  /** An error carries a class, or is one nothing classified; main exits 1 on the latter. */
  datatype Error = Classified(class_: Class) | Raw {
    function ExitCode(): nat {
      match this case Classified(c) => c.Exit() case Raw => 1
    }
  }

  /** How a command body ended. `wrote` is whether a byte reached stdout. */
  datatype Ending = Ending(err: Option<Error>, panicked: bool, interrupted: bool, wrote: bool)

  // ---------- The in-flight flag ----------

  /** Everything an invocation tells its flag. */
  datatype Note = Sent | OfRun(id: string) | OfCommand(id: string) | OfProfile(profile: string, environment: string)

  datatype FlagState = FlagState(sent: bool, runId: string, commandId: string, profile: string, environment: string) {
    /** An empty command id is not noted; every other note replaces the last of its kind. */
    function After(n: Note): FlagState {
      match n
      case Sent => this.(sent := true)
      case OfRun(id) => this.(runId := id)
      case OfCommand(id) => if id == "" then this else this.(commandId := id)
      case OfProfile(p, e) => this.(profile := p, environment := e)
    }
  }

  const UNSENT := FlagState(false, "", "", "", "")

  function AfterAll(s: FlagState, notes: seq<Note>): FlagState
    decreases |notes|
  {
    if notes == [] then s else AfterAll(s.After(notes[0]), notes[1..])
  }

  class Flag {
    var sent: bool
    var runId: string
    var commandId: string
    var profile: string
    var environment: string

    function Model(): FlagState
      reads this
    {
      FlagState(sent, runId, commandId, profile, environment)
    }

    constructor ()
      ensures Model() == UNSENT
    {
      sent, runId, commandId, profile, environment := false, "", "", "", "";
    }

    method MarkSent()
      modifies this
      ensures Model() == old(Model()).After(Sent)
    {
      sent := true;
    }

    method NoteRun(id: string)
      modifies this
      ensures Model() == old(Model()).After(OfRun(id))
    {
      runId := id;
    }

    method NoteCommand(id: string)
      modifies this
      ensures Model() == old(Model()).After(OfCommand(id))
    {
      if id == "" {
        return;
      }
      commandId := id;
    }

    method NoteProfile(p: string, e: string)
      modifies this
      ensures Model() == old(Model()).After(OfProfile(p, e))
    {
      profile, environment := p, e;
    }
  }

  /**
   Whatever is noted and in whatever order, the flag reads sent exactly when MarkSent
   has run: it is never cleared.
   */
  lemma {:induction false} SentIffMarked(s: FlagState, notes: seq<Note>)
    ensures AfterAll(s, notes).sent <==> s.sent || Sent in notes
    decreases |notes|
  {
    if notes != [] {
      SentIffMarked(s.After(notes[0]), notes[1..]);
      assert Sent in notes <==> notes[0] == Sent || Sent in notes[1..];
    }
  }

  /** The command reported is the last one FERRY named; an answer that names none does not lose it. */
  lemma {:induction false} CommandIsKept(s: FlagState, notes: seq<Note>, id: string, later: seq<Note>)
    requires id != "" && forall n :: n in later && n.OfCommand? ==> n.id == ""
    ensures AfterAll(s, notes + [OfCommand(id)] + later).commandId == id
    decreases |notes|
  {
    if notes == [] {
      assert notes + [OfCommand(id)] + later == [OfCommand(id)] + later;
      assert ([OfCommand(id)] + later)[1..] == later;
      CommandStays(s.After(OfCommand(id)), later);
    } else {
      var all := notes + [OfCommand(id)] + later;
      assert all[1..] == notes[1..] + [OfCommand(id)] + later;
      CommandIsKept(s.After(notes[0]), notes[1..], id, later);
    }
  }

  lemma {:induction false} CommandStays(s: FlagState, later: seq<Note>)
    requires forall n :: n in later && n.OfCommand? ==> n.id == ""
    ensures AfterAll(s, later).commandId == s.commandId
    decreases |later|
  {
    if later != [] {
      CommandStays(s.After(later[0]), later[1..]);
    }
  }

  /** The run and the profile reported are the last ones noted. */
  lemma {:induction false} RunIsKept(s: FlagState, notes: seq<Note>, later: seq<Note>)
    requires forall n :: n in later ==> n.Sent? || n.OfCommand?
    ensures forall id :: AfterAll(s, notes + [OfRun(id)] + later).runId == id
    ensures forall p, e ::
      var end := AfterAll(s, notes + [OfProfile(p, e)] + later); end.profile == p && end.environment == e
  {
    forall n: Note
      ensures AfterAll(s, notes + [n] + later) == AfterAll(AfterAll(s, notes).After(n), later)
    {
      AfterBoth(s, notes + [n], later);
      AfterBoth(s, notes, [n]);
    }
    forall s': FlagState
      ensures var end := AfterAll(s', later);
        end.runId == s'.runId && end.profile == s'.profile && end.environment == s'.environment
    {
      RunStays(s', later);
    }
  }

  lemma {:induction false} RunStays(s: FlagState, later: seq<Note>)
    requires forall n :: n in later ==> n.Sent? || n.OfCommand?
    ensures var end := AfterAll(s, later);
      end.runId == s.runId && end.profile == s.profile && end.environment == s.environment
    decreases |later|
  {
    if later != [] {
      RunStays(s.After(later[0]), later[1..]);
    }
  }

  lemma {:induction false} AfterBoth(s: FlagState, a: seq<Note>, b: seq<Note>)
    ensures AfterAll(s, a + b) == AfterAll(AfterAll(s, a), b)
    decreases |a|
  {
    if a == [] {
      assert a + b == b;
    } else {
      assert (a + b)[1..] == a[1..] + b;
      AfterBoth(s.After(a[0]), a[1..], b);
    }
  }

  // ---------- The end of an invocation ----------

  /** The class of an abnormal end: a panic, then a signal, then the error. */
  function ClassifyEnding(e: Ending, sent: bool): Class {
    if e.panicked || e.interrupted then
      if sent then Pending else CliFault
    else
      match e.err
      case Some(Classified(c)) => if sent && c.CliFault? then Pending else c
      case _ => if sent then Pending else CliFault
  }

  /** What the wrapper returns; None is success. */
  function Finish(e: Ending, sent: bool): Option<Error> {
    if !e.panicked && e.err.None? then None
    else if e.wrote && !e.panicked then e.err
    else Some(Classified(ClassifyEnding(e, sent)))
  }

  function ExitCode(e: Ending, sent: bool): nat {
    var out := Finish(e, sent);
    if out.None? then 0 else out.value.ExitCode()
  }

  /**
   Exit 1 after a request may have left happens in exactly one way: a verb that
   wrote some of its answer and then returned an error that is unclassified or
   says nothing was sent, which the wrapper passes through.
   */
  lemma ExitOneAfterSendIff(e: Ending)
    ensures ExitCode(e, true) == 1 <==>
      e.wrote && !e.panicked && e.err.Some? && (e.err.value.Raw? || e.err.value.class_.CliFault?)
  {
  }

  /** The verb ended by itself, with an outcome the flag does not contradict and no signal overrode. */
  predicate Ordinary(e: Ending, sent: bool) {
    && !e.panicked
    && (e.err.None? || (e.err.value.Classified? && (e.wrote || !e.interrupted) &&
      !(sent && !e.wrote && e.err.value.class_.CliFault?)))
  }

  /** An ordinary end reports its own class; success is no error at all, or an error of class 0. */
  lemma OrdinaryCode(e: Ending, sent: bool)
    requires Ordinary(e, sent)
    ensures ExitCode(e, sent) == if e.err.None? then 0 else e.err.value.class_.Exit()
  {
  }

  /**
   Every other end is a panic, a signal, or an error that says nothing was sent or
   nothing at all. What the verb had written keeps an error's code 1; otherwise it
   is 6 once the flag is up, whatever else happened, and 1 before.
   */
  lemma AbnormalCode(e: Ending, sent: bool)
    requires !Ordinary(e, sent)
    ensures ExitCode(e, sent) == if sent && (e.panicked || !e.wrote) then 6 else 1
  {
  }

  /**
   Success is reported exactly when nothing panicked and the verb gave no error,
   or one of class 0 that no signal overrode.
   */
  lemma ExitZeroIff(e: Ending, sent: bool)
    ensures ExitCode(e, sent) == 0 <==>
      !e.panicked && (e.err.None? ||
        (e.err.value.Classified? && e.err.value.class_.Exit() == 0 && (e.wrote || !e.interrupted)))
  {
  }

  /** What a money verb can report: every class comes from the table, or is one the verb names itself. */
  datatype Source = OfAnswer(in_: Input) | OfPoll(command: Command) | NotEstablished | NoFreshToken {
    function Class(): Class {
      match this
      case OfAnswer(in_) => Classify(in_)
      case OfPoll(command) => ClassifyCommand(command)
      case NotEstablished => Pending
      case NoFreshToken => RefusedResimulate
    }

    /** What `report` returns once the whole document is written. */
    function Reported(): Option<Error> {
      if Class().Exit() == 0 then None else Some(Classified(Class()))
    }
  }

  /** A document was written whole, for this outcome; or nothing was written. */
  predicate WritesWhole(e: Ending, src: Option<Source>) {
    e.wrote ==> src.Some? && e.err == src.value.Reported()
  }

  /** How a money verb ends: its report written whole, or an error, which never has class 0. */
  predicate MoneyEnds(e: Ending, src: Option<Source>) {
    && WritesWhole(e, src)
    && (!e.wrote && !e.panicked ==> e.err.Some? && e.err.value.ExitCode() != 0)
  }

  /** What a reported success rests on: the answer or the command that says so, read. */
  predicate Succeeds(src: Source) {
    match src
    case OfAnswer(in_) =>
      && in_.transport.None? && Is2xx(in_.status) && in_.success.Some? && in_.success.value.parsed
    case OfPoll(command) =>
      !command.contradiction && command.state.Completed? && command.operation.ExecuteTransfer? &&
        command.result != Some("failed")
    case _ => false
  }

  /** A money verb exits 0 exactly when it did not panic and reported an outcome that exits 0. */
  lemma MoneyExitsZeroIff(e: Ending, sent: bool, src: Option<Source>)
    requires MoneyEnds(e, src)
    ensures ExitCode(e, sent) == 0 <==> !e.panicked && e.wrote && src.value.Class().Exit() == 0
  {
    ExitZeroIff(e, sent);
  }

  lemma SuccessIsRead(src: Source)
    requires src.Class().Exit() == 0
    ensures Succeeds(src)
  {
    match src
    case OfAnswer(in_) =>
      if in_.envelope.Some? && RuleFor(in_.envelope.value.code).Some? {
        TableShape(in_.envelope.value.code);
      }
    case OfPoll(command) => CommandClassIs(command);
    case _ =>
  }

  /** With all-or-nothing writes, exit 1 means MarkSent never ran: no outcome a verb reports is a local fault. */
  lemma ExitOneMeansNothingSent(e: Ending, sent: bool, src: Option<Source>)
    requires WritesWhole(e, src) && ExitCode(e, sent) == 1
    ensures !sent
  {
    if sent {
      ExitOneAfterSendIff(e);
      NoLocalSource(src.value);
    }
  }

  lemma NoLocalSource(src: Source)
    ensures !src.Class().CliFault? && !src.Class().Usage?
  {
    match src
    case OfAnswer(in_) => AnswersMakeNoLocalClaim(in_);
    case OfPoll(command) => CommandsMakeNoLocalClaim(command);
    case _ =>
  }

  /** The exit code in the document on stdout, in JSON mode; a verb's own carries its error's code. */
  function DocumentCode(e: Ending, sent: bool): nat {
    if e.wrote then (if e.err.Some? then e.err.value.ExitCode() else 0)
    else ExitCode(e, sent)
  }

  /**
   The document and the process agree unless the command panicked after writing
   and what it had written is not what a panic reports.
   */
  lemma DocumentAgreesIff(e: Ending, sent: bool)
    ensures DocumentCode(e, sent) == ExitCode(e, sent) <==>
      !e.wrote || !e.panicked
      || (e.err.Some? && e.err.value.ExitCode() == if sent then Pending.Exit() else CliFault.Exit())
  {
  }
}
