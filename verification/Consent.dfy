/**
 Whether this invocation may send an execute (internal/consent/consent.go). The
 terminal is what it answered: the line and how the read ended, or an interrupt.
 */
module Consent {

  datatype Verdict = Granted | Declined | Unavailable | Failed

  datatype Request = Request(yes: bool, tty: bool, commandIsConsent: bool)

  /** How the read of the answer ended; at the end of input the line may be partial. */
  datatype ReadEnd = Newline | EndOfInput | ReadError

  /** What happened at the prompt, in order. */
  datatype Prompt = Prompt(
    stateWritten: bool,       // awaiting_confirmation reached the disk
    questionWritten: bool,
    interruptedBefore: bool,  // a signal was already seen when the read began
    interruptWins: bool,      // a signal arrived while it waited
    line: string,
    readEnd: ReadEnd)

  /** One ask. The branches run in this order: --yes, then the terminal, then the command itself. */
  function Ask(r: Request, p: Prompt): Verdict {
    if r.yes then Granted
    else if !r.tty then
      if r.commandIsConsent then Granted else Unavailable
    else if !p.stateWritten then Failed
    else if !p.questionWritten then Failed
    else Read(p)
  }

  function Read(p: Prompt): Verdict {
    if p.interruptedBefore || p.interruptWins then Declined
    else if p.readEnd.ReadError? then Failed
    else if Affirmative(p.line) then Granted
    else Declined
  }

  /** The code points Unicode calls white space, which is what is trimmed. */
  predicate IsSpace(c: char) {
    var n := c as int;
    9 <= n <= 13 || n == 0x20 || n == 0x85 || n == 0xA0 || n == 0x1680 || 0x2000 <= n <= 0x200A
    || n == 0x2028 || n == 0x2029 || n == 0x202F || n == 0x205F || n == 0x3000
  }

  function TrimLeft(s: string): string {
    if s != [] && IsSpace(s[0]) then TrimLeft(s[1..]) else s
  }

  function TrimRight(s: string): string {
    if s != [] && IsSpace(s[|s| - 1]) then TrimRight(s[..|s| - 1]) else s
  }

  function Lower(s: string): (r: string)
    ensures |r| == |s|
  {
    seq(|s|, i requires 0 <= i < |s| => if 'A' <= s[i] <= 'Z' then s[i] - 'A' + 'a' else s[i])
  }

  /** `y` and `yes`, in any case, and nothing else. */
  predicate Affirmative(line: string) {
    var answer := Lower(TrimRight(TrimLeft(line)));
    answer == "y" || answer == "yes"
  }

  /**
   Consent is one of three facts about this invocation. An interrupt seen before
   or during the read never grants, and no state of a record is among the inputs.
   */
  lemma GrantedIff(r: Request, p: Prompt)
    ensures Ask(r, p).Granted? <==>
      r.yes
      || (!r.tty && r.commandIsConsent)
      || (r.tty && p.stateWritten && p.questionWritten && !p.interruptedBefore && !p.interruptWins
          && !p.readEnd.ReadError? && Affirmative(p.line))
  {
  }

  /** The other verdicts: a no is an answer or a signal, unavailable is nobody to ask, and anything else failed. */
  lemma NotGrantedIs(r: Request, p: Prompt)
    requires !Ask(r, p).Granted?
    ensures Ask(r, p).Unavailable? <==> !r.tty
    ensures Ask(r, p).Failed? <==>
      r.tty && (!p.stateWritten || !p.questionWritten ||
        (!p.interruptedBefore && !p.interruptWins && p.readEnd.ReadError?))
  {
  }

  /** An empty line, or one of nothing but space, is not a yes. */
  lemma {:induction false} BlankIsNo(line: string)
    requires forall i :: 0 <= i < |line| ==> IsSpace(line[i])
    ensures !Affirmative(line)
  {
    BlankTrims(line);
    assert TrimRight("") == "" && Lower("") == "";
  }

  lemma {:induction false} BlankTrims(line: string)
    requires forall i :: 0 <= i < |line| ==> IsSpace(line[i])
    ensures TrimLeft(line) == ""
  {
    if line != [] {
      BlankTrims(line[1..]);
    }
  }

  /** `y` and `yes` in any case are what lowers to them. */
  lemma LowersToYes(word: string)
    ensures Lower(word) == "y" <==> |word| == 1 && word[0] in {'y', 'Y'}
    ensures Lower(word) == "yes" <==>
      |word| == 3 && word[0] in {'y', 'Y'} && word[1] in {'e', 'E'} && word[2] in {'s', 'S'}
  {
    var l := Lower(word);
    assert forall i :: 0 <= i < |word| ==> l[i] == if 'A' <= word[i] <= 'Z' then word[i] - 'A' + 'a' else word[i];
    if |word| == 1 && l[0] == 'y' {
      assert l == "y";
    }
    if |word| == 3 && l[0] == 'y' && l[1] == 'e' && l[2] == 's' {
      assert l == "yes";
    }
  }

  /** Spaces around an answer do not matter; anything more inside does. */
  lemma {:induction false} AffirmativeIsWholeLine(before: string, word: string, after: string)
    requires forall i :: 0 <= i < |before| ==> IsSpace(before[i])
    requires forall i :: 0 <= i < |after| ==> IsSpace(after[i])
    requires word != [] && !IsSpace(word[0]) && !IsSpace(word[|word| - 1])
    ensures Affirmative(before + word + after) <==> Lower(word) == "y" || Lower(word) == "yes"
  {
    TrimLeftSpaces(before, word + after);
    assert before + word + after == before + (word + after);
    assert (word + after)[0] == word[0];
    TrimRightSpaces(word, after);
  }

  lemma {:induction false} TrimLeftSpaces(spaces: string, s: string)
    requires forall i :: 0 <= i < |spaces| ==> IsSpace(spaces[i])
    requires s != [] && !IsSpace(s[0])
    ensures TrimLeft(spaces + s) == s
  {
    if spaces == [] {
      assert spaces + s == s;
    } else {
      TrimLeftSpaces(spaces[1..], s);
      assert (spaces + s)[1..] == spaces[1..] + s;
    }
  }

  lemma {:induction false} TrimRightSpaces(s: string, spaces: string)
    requires forall i :: 0 <= i < |spaces| ==> IsSpace(spaces[i])
    requires s != [] && !IsSpace(s[|s| - 1])
    ensures TrimRight(s + spaces) == s
  {
    if spaces == [] {
      assert s + spaces == s;
    } else {
      var n := |spaces| - 1;
      TrimRightSpaces(s, spaces[..n]);
      assert (s + spaces)[..|s| + n] == s + spaces[..n];
    }
  }
}
