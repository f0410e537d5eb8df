/**
 The plan-token sweep over a stored response body (internal/runs/token.go).

 `Sweep` is the textual pass: replace every leftmost, longest match of
 `ferry_plan_[0-9A-Za-z_-]{8,}` by `[REDACTED]`. The structural JSON pass before
 it is a parameter, because the guarantee must hold whatever that pass returned.
 */
module PlanToken {
  import opened Wrappers

  const PREFIX: string := "ferry_plan_"
  const REDACTED: string := "[REDACTED]"
  const MIN_RUN: nat := 8

  predicate TokenChar(c: char) {
    '0' <= c <= '9' || 'A' <= c <= 'Z' || 'a' <= c <= 'z' || c == '_' || c == '-'
  }

  /** A token starts at `i`. */
  predicate MatchAt(s: string, i: nat) {
    && i + |PREFIX| + MIN_RUN <= |s|
    && s[i..i + |PREFIX|] == PREFIX
    && forall j :: i + |PREFIX| <= j < i + |PREFIX| + MIN_RUN ==> TokenChar(s[j])
  }

  /** The pattern in full: `ferry_plan_` and eight ASCII digits, letters, underscores or hyphens. */
  lemma MatchIff(s: string, i: nat)
    ensures MatchAt(s, i) <==>
      && i + 19 <= |s| && s[i..i + 11] == "ferry_plan_"
      && forall j :: i + 11 <= j < i + 19 ==>
        var c := s[j] as int; 48 <= c <= 57 || 65 <= c <= 90 || 97 <= c <= 122 || c == 95 || c == 45
  {
  }

  ghost predicate NoToken(s: string) {
    forall i: nat :: !MatchAt(s, i)
  }

  /** The end of the longest run of token characters from `j`. */
  function RunEnd(s: string, j: nat): (e: nat)
    requires j <= |s|
    decreases |s| - j
    ensures j <= e <= |s|
    ensures forall k :: j <= k < e ==> TokenChar(s[k])
    ensures e < |s| ==> !TokenChar(s[e])
  {
    if j < |s| && TokenChar(s[j]) then RunEnd(s, j + 1) else j
  }

  function Sweep(s: string): string
    decreases |s|
  {
    if s == [] then []
    else if MatchAt(s, 0) then REDACTED + Sweep(s[RunEnd(s, |PREFIX|)..])
    else [s[0]] + Sweep(s[1..])
  }

  predicate ContainsPlanToken(s: string)
    decreases |s|
  {
    s != [] && (MatchAt(s, 0) || ContainsPlanToken(s[1..]))
  }

  lemma {:induction false} ContainsMeansMatch(s: string)
    ensures ContainsPlanToken(s) <==> !NoToken(s)
    decreases |s|
  {
    if s != [] {
      ContainsMeansMatch(s[1..]);
      forall i: nat
        ensures MatchAt(s, i + 1) <==> MatchAt(s[1..], i)
      {
        ShiftMatch([s[0]], s[1..], i);
      }
      if !MatchAt(s, 0) && !NoToken(s) {
        var i: nat :| MatchAt(s, i);
        assert MatchAt(s[1..], i - 1);
      }
      if !NoToken(s[1..]) {
        var i: nat :| MatchAt(s[1..], i);
        assert MatchAt(s, i + 1);
      }
    }
  }

  /** A match of a concatenation past its first part is a match of the second. */
  lemma ShiftMatch(front: string, s: string, i: nat)
    ensures MatchAt(front + s, |front| + i) <==> MatchAt(s, i)
  {
    var t, d := front + s, |front|;
    assert forall j :: 0 <= j < |s| ==> t[d + j] == s[j];
    if i + |PREFIX| <= |s| {
      assert t[d + i..d + i + |PREFIX|] == s[i..i + |PREFIX|];
    }
    if MatchAt(s, i) {
      forall j | d + i + |PREFIX| <= j < d + i + |PREFIX| + MIN_RUN
        ensures TokenChar(t[j])
      {
        assert t[j] == s[j - d];
      }
    }
    if MatchAt(t, d + i) {
      forall j | i + |PREFIX| <= j < i + |PREFIX| + MIN_RUN
        ensures TokenChar(s[j])
      {
        assert t[d + j] == s[j];
      }
    }
  }

  lemma TokenStartsWithBracket(s: string)
    requires MatchAt(s, 0)
    ensures Sweep(s) != [] && Sweep(s)[0] == '['
  {
  }

  /** Where the swept text shows no opening bracket, it is the original text. */
  lemma {:induction false} SweepKeepsFront(s: string, k: nat)
    requires k <= |Sweep(s)| && '[' !in Sweep(s)[..k]
    ensures k <= |s| && s[..k] == Sweep(s)[..k]
    decreases |s|
  {
    if k != 0 && s != [] {
      var out := Sweep(s);
      assert out[..k][0] == out[0];
      if MatchAt(s, 0) {
        TokenStartsWithBracket(s);
      } else {
        var rest := Sweep(s[1..]);
        assert out == [s[0]] + rest;
        assert rest[..k - 1] == out[..k][1..];
        SweepKeepsFront(s[1..], k - 1);
        assert s[..k] == [s[0]] + s[1..][..k - 1];
      }
    }
  }

  lemma MatchHasNoBracket(s: string)
    requires MatchAt(s, 0)
    ensures '[' !in s[..|PREFIX| + MIN_RUN]
  {
    var m := s[..|PREFIX| + MIN_RUN];
    forall j | 0 <= j < |m|
      ensures m[j] != '['
    {
      if j < |PREFIX| {
        assert s[0..|PREFIX|][j] == PREFIX[j];
      }
    }
  }

  lemma RedactedHasNoPrefix(i: nat, t: string)
    requires i < |REDACTED|
    ensures !MatchAt(REDACTED + t, i)
  {
    var s := REDACTED + t;
    if i + |PREFIX| <= |s| {
      assert s[i..i + |PREFIX|][0] == REDACTED[i];
      assert PREFIX[0] == 'f';
    }
  }

  /** Nothing shaped like a token survives the sweep. */
  lemma {:induction false} SweepComplete(s: string)
    ensures NoToken(Sweep(s))
    decreases |s|
  {
    if s != [] {
      var out := Sweep(s);
      if MatchAt(s, 0) {
        var rest := s[RunEnd(s, |PREFIX|)..];
        SweepComplete(rest);
        forall i: nat
          ensures !MatchAt(out, i)
        {
          if i < |REDACTED| {
            RedactedHasNoPrefix(i, Sweep(rest));
          } else {
            ShiftMatch(REDACTED, Sweep(rest), i - |REDACTED|);
          }
        }
      } else {
        SweepComplete(s[1..]);
        forall i: nat
          ensures !MatchAt(out, i)
        {
          if i == 0 {
            if MatchAt(out, 0) {
              FrontMatchIsOriginal(s);
            }
          } else {
            ShiftMatch([s[0]], Sweep(s[1..]), i - 1);
          }
        }
      }
    }
  }

  /** A token at the front of the swept text would have been one in the original. */
  lemma FrontMatchIsOriginal(s: string)
    requires MatchAt(Sweep(s), 0)
    ensures MatchAt(s, 0)
  {
    var out, k := Sweep(s), |PREFIX| + MIN_RUN;
    MatchHasNoBracket(out);
    SweepKeepsFront(s, k);
    assert forall j :: 0 <= j < k ==> s[j] == s[..k][j] == out[j];
    assert s[0..|PREFIX|] == out[0..|PREFIX|];
  }

  /** Text without a token is stored as it came. */
  lemma {:induction false} SweepIdentity(s: string)
    requires NoToken(s)
    ensures Sweep(s) == s
    decreases |s|
  {
    if s != [] {
      forall i: nat
        ensures !MatchAt(s[1..], i)
      {
        ShiftMatch([s[0]], s[1..], i);
        assert [s[0]] + s[1..] == s;
      }
      SweepIdentity(s[1..]);
    }
  }

  lemma SweepIdempotent(s: string)
    ensures Sweep(Sweep(s)) == Sweep(s)
  {
    SweepComplete(s);
    SweepIdentity(Sweep(s));
  }

  // ---------- What the sweep removes ----------

  /** A body cut into single kept characters and removed tokens. */
  datatype Piece = Kept(c: char) | Removed(token: string)

  function Original(pieces: seq<Piece>): string {
    if pieces == [] then []
    else (match pieces[0] case Kept(c) => [c] case Removed(t) => t) + Original(pieces[1..])
  }

  function Redacted(pieces: seq<Piece>): string {
    if pieces == [] then []
    else (match pieces[0] case Kept(c) => [c] case Removed(_) => REDACTED) + Redacted(pieces[1..])
  }

  /** A whole token: the prefix and at least eight token characters, nothing else. */
  ghost predicate IsToken(t: string) {
    MatchAt(t, 0) && forall j :: |PREFIX| <= j < |t| ==> TokenChar(t[j])
  }

  /** Every removed piece is a whole token that ends where its run of token characters ends. */
  ghost predicate Cut(pieces: seq<Piece>) {
    forall i :: 0 <= i < |pieces| && pieces[i].Removed? ==>
      && IsToken(pieces[i].token)
      && var rest := Original(pieces[i + 1..]); rest == [] || !TokenChar(rest[0])
  }

  /**
   The body is kept characters and whole tokens in some cut, and the stored text
   is the same cut with each token replaced: every byte outside a token is kept, in order.
   */
  lemma {:induction false} SweepRemovesOnlyTokens(s: string) returns (pieces: seq<Piece>)
    ensures Original(pieces) == s && Redacted(pieces) == Sweep(s) && Cut(pieces)
    decreases |s|
  {
    if s == [] {
      return [];
    }
    var end := if MatchAt(s, 0) then RunEnd(s, |PREFIX|) else 1;
    var first := if MatchAt(s, 0) then Removed(s[..end]) else Kept(s[0]);
    if MatchAt(s, 0) {
      RunCoversMatch(s);
    }
    var rest := SweepRemovesOnlyTokens(s[end..]);
    pieces := [first] + rest;
    assert pieces[1..] == rest;
    assert s == s[..end] + s[end..];
    forall i | 0 <= i < |pieces| && pieces[i].Removed?
      ensures IsToken(pieces[i].token)
      ensures var tail := Original(pieces[i + 1..]); tail == [] || !TokenChar(tail[0])
    {
      if i > 0 {
        assert pieces[i] == rest[i - 1] && pieces[i + 1..] == rest[i..];
      }
    }
  }

  lemma RunCoversMatch(s: string)
    requires MatchAt(s, 0)
    ensures RunEnd(s, |PREFIX|) >= |PREFIX| + MIN_RUN
    ensures IsToken(s[..RunEnd(s, |PREFIX|)])
  {
    var e := RunEnd(s, |PREFIX|);
    assert s[..e][0..|PREFIX|] == s[0..|PREFIX|];
  }

  /**
   The two passes over a body about to be stored. `structural` is what the JSON
   pass returned when it applied.
   */
  method StripPlanToken(body: string, structural: Option<string>) returns (stored: string)
    ensures NoToken(stored)
    ensures stored == StrippedBody(body, structural)
  {
    stored := body;
    if |stored| == 0 {
      return;
    }
    if structural.Some? {
      stored := structural.value;
    }
    SweepComplete(stored);
    ContainsMeansMatch(stored);
    if ContainsPlanToken(stored) {
      stored := Sweep(stored);
    } else {
      SweepIdentity(stored);
    }
  }

  /** What is stored: the textual sweep of whatever the structural pass left. */
  function StrippedBody(body: string, structural: Option<string>): string {
    if body != [] && structural.Some? then Sweep(structural.value) else Sweep(body)
  }

  lemma StrippedBodyHoldsNoToken(body: string, structural: Option<string>)
    ensures NoToken(StrippedBody(body, structural))
  {
    SweepComplete(if body != [] && structural.Some? then structural.value else body);
  }
}
