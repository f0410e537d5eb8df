/**
 The sweeps that read the run directory (internal/runs/sweep.go, the holder's
 acquire of lock.go, and the caller's key of money.go) while other processes come
 and go: the directory is a history, and each call looks at it one tick after the
 last.
 */
module Sweeps {
  import opened Wrappers
  import opened DurableStore
  import opened Records
  import L = Ledger
  import opened Loops

  type Id = string

  /** A record as a read finds it. */
  datatype Entry = Readable(run: Run) | Unreadable

  datatype SweepError = CorruptRecord(id: Id) | LockFailed(id: Id) | WriteFailed(id: Id)

  // ---------- Reading a directory that changes ----------

  /** The directory at one instant: its records, the locks held, and the locks that cannot be opened. */
  datatype Snapshot = Snapshot(listing: seq<Id>, records: map<Id, Entry>, held: set<Id>, broken: set<Id>)
  {
    /** The listing names every record, and a record that decodes is of its own run. */
    ghost predicate Valid() {
      && (forall id :: id in records ==> id in listing)
      && (forall id :: id in records && records[id].Readable? ==> records[id].run.id == id)
    }
  }

  type History = nat -> Snapshot

  ghost predicate ValidHistory(h: History) {
    forall t: nat :: h(t).Valid()
  }

  /** The record of this run was read during the call. */
  ghost predicate ReadDuring(h: History, start: nat, end: nat, run: Run) {
    exists t: nat :: start <= t < end && run.id in h(t).records && h(t).records[run.id] == Readable(run)
  }

  ghost predicate UnreadableDuring(h: History, start: nat, end: nat, id: Id) {
    exists t: nat :: start <= t < end && id in h(t).records && h(t).records[id].Unreadable?
  }

  ghost predicate PresentThroughout(h: History, start: nat, end: nat, id: Id) {
    forall t: nat :: start <= t < end ==> id in h(t).records
  }

  /** A record nobody can decode, for the whole call. */
  ghost predicate UnreadableThroughout(h: History, start: nat, end: nat, id: Id) {
    forall t: nat :: start <= t < end ==> id in h(t).records && h(t).records[id].Unreadable?
  }

  predicate Lists(runs: seq<Run>, id: Id) {
    exists i :: 0 <= i < |runs| && runs[i].id == id
  }

  /**
   What reading these records one tick after another gives: one gone since the listing
   is skipped, an unreadable one fails.
   */
  function ReadAll(h: History, ids: seq<Id>, t: nat): Result<seq<Run>, SweepError> {
    if ids == [] then Success([])
    else if ids[0] !in h(t).records then ReadAll(h, ids[1..], t + 1)
    else
      match h(t).records[ids[0]]
      case Unreadable => Failure(CorruptRecord(ids[0]))
      case Readable(run) => Prepend([run], ReadAll(h, ids[1..], t + 1))
  }

  function Prepend(runs: seq<Run>, rest: Result<seq<Run>, SweepError>): Result<seq<Run>, SweepError> {
    match rest case Success(more) => Success(runs + more) case Failure(e) => Failure(e)
  }

  lemma PrependNothing(rest: Result<seq<Run>, SweepError>)
    ensures Prepend([], rest) == rest
  {
    if rest.Success? {
      assert [] + rest.value == rest.value;
    }
  }

  /** One more record read. */
  lemma ReadNext(h: History, ids: seq<Id>, t: nat, runs: seq<Run>)
    requires ids != []
    ensures Prepend(runs, ReadAll(h, ids, t)) ==
      if ids[0] !in h(t).records then Prepend(runs, ReadAll(h, ids[1..], t + 1))
      else match h(t).records[ids[0]]
        case Unreadable => Failure(CorruptRecord(ids[0]))
        case Readable(run) => Prepend(runs + [run], ReadAll(h, ids[1..], t + 1))
  {
    var rest := ReadAll(h, ids[1..], t + 1);
    if ids[0] in h(t).records && h(t).records[ids[0]].Readable? && rest.Success? {
      var run := h(t).records[ids[0]].run;
      assert runs + ([run] + rest.value) == runs + [run] + rest.value;
    }
  }

  /** Every run, each read at its own instant. */
  method List(h: History, start: nat) returns (r: Result<seq<Run>, SweepError>, end: nat)
    requires ValidHistory(h)
    ensures end > start
    ensures r == ReadAll(h, h(start).listing, start + 1)
    ensures r.Success? ==> forall i :: 0 <= i < |r.value| ==> ReadDuring(h, start, end, r.value[i])
    ensures r.Success? ==> forall id :: PresentThroughout(h, start, end, id) ==> Lists(r.value, id)
    ensures r.Success? ==> forall id :: !UnreadableThroughout(h, start, end, id)
    ensures r.Failure? ==> r.error.CorruptRecord? && UnreadableDuring(h, start, end, r.error.id)
  {
    var ids := h(start).listing;
    var runs: seq<Run> := [];
    end := start + 1;
    PrependNothing(ReadAll(h, ids, end));
    assert ids[0..] == ids;
    for k := 0 to |ids|
      invariant end == start + 1 + k
      invariant ReadAll(h, ids, start + 1) == Prepend(runs, ReadAll(h, ids[k..], end))
    {
      var d, id := h(end), ids[k];
      ReadNext(h, ids[k..], end, runs);
      end := end + 1;
      if id in d.records {
        match d.records[id]
        case Unreadable =>
          r := Failure(CorruptRecord(id));
          assert UnreadableDuring(h, start, end, id) by { assert id in h(end - 1).records; }
          return;
        case Readable(run) =>
          runs := runs + [run];
      }
    }
    r := Success(runs);
    assert ids[|ids|..] == [] && runs + [] == runs;
    ListingCovers(h, start, end);
  }

  /** A listing whose every record was read. */
  lemma ListingCovers(h: History, start: nat, end: nat)
    requires ValidHistory(h) && end == start + 1 + |h(start).listing|
    requires ReadAll(h, h(start).listing, start + 1).Success?
    ensures var runs := ReadAll(h, h(start).listing, start + 1).value;
      && (forall i :: 0 <= i < |runs| ==> ReadDuring(h, start, end, runs[i]))
      && (forall id :: PresentThroughout(h, start, end, id) ==> Lists(runs, id))
    ensures forall id :: !UnreadableThroughout(h, start, end, id)
  {
    hide ReadAll, ReadDuring, Lists;
    ReadsCover(h, h(start).listing, start + 1, start, end);
    assert forall id :: PresentThroughout(h, start, end, id) ==> id in h(start).records;
    NoneUnreadable(h, h(start).listing, start + 1, start, end);
    assert forall id :: UnreadableThroughout(h, start, end, id) ==> id in h(start).records;
  }

  /** A read that succeeds passed over no record that could not be decoded. */
  lemma {:induction false} NoneUnreadable(h: History, ids: seq<Id>, t: nat, start: nat, end: nat)
    requires start <= t && t + |ids| <= end && ReadAll(h, ids, t).Success?
    ensures forall id :: id in ids ==> !UnreadableThroughout(h, start, end, id)
    decreases |ids|
  {
    if ids != [] {
      NoneUnreadable(h, ids[1..], t + 1, start, end);
      assert !(ids[0] in h(t).records && h(t).records[ids[0]].Unreadable?);
    }
  }

  lemma {:induction false} ReadsCover(h: History, ids: seq<Id>, t: nat, start: nat, end: nat)
    requires ValidHistory(h) && start <= t && t + |ids| <= end
    ensures var r := ReadAll(h, ids, t);
      r.Success? ==>
        && (forall i :: 0 <= i < |r.value| ==> ReadDuring(h, start, end, r.value[i]))
        && (forall id :: id in ids && PresentThroughout(h, start, end, id) ==> Lists(r.value, id))
    decreases |ids|
  {
    if ids != [] {
      ReadsCover(h, ids[1..], t + 1, start, end);
      var r := ReadAll(h, ids, t);
      if r.Success? && ids[0] in h(t).records {
        var run := h(t).records[ids[0]].run;
        var rest := ReadAll(h, ids[1..], t + 1).value;
        assert r.value == [run] + rest;
        assert ReadDuring(h, start, end, run);
        ListsCons(run, rest);
      }
    }
  }

  lemma ListsCons(run: Run, rest: seq<Run>)
    ensures Lists([run] + rest, run.id)
    ensures forall id :: Lists(rest, id) ==> Lists([run] + rest, id)
  {
    assert ([run] + rest)[0] == run;
    forall id | Lists(rest, id)
      ensures Lists([run] + rest, id)
    {
      var i :| 0 <= i < |rest| && rest[i].id == id;
      assert ([run] + rest)[i + 1].id == id;
    }
  }

  // ---------- FindByKey ----------

  function StepWithKey(steps: seq<Step>, key: string): (s: Option<Step>)
    ensures s.Some? ==> s.value in steps && s.value.key == key
    ensures s.None? ==> forall i :: 0 <= i < |steps| ==> steps[i].key != key
  {
    if steps == [] then None
    else if steps[0].key == key then Some(steps[0])
    else StepWithKey(steps[1..], key)
  }

  /** A run whose record holds the key for the whole call. */
  ghost predicate OwnsThroughout(h: History, start: nat, end: nat, id: Id, key: string) {
    forall t: nat :: start <= t < end ==>
      id in h(t).records && (h(t).records[id].Readable? ==> StepWithKey(h(t).records[id].run.steps, key).Some?)
  }

  /** The first run with a step under this very key. */
  function OwnerOf(runs: seq<Run>, key: string): Option<(Run, Step)> {
    if runs == [] then None
    else
      match StepWithKey(runs[0].steps, key)
      case Some(s) => Some((runs[0], s))
      case None => OwnerOf(runs[1..], key)
  }

  lemma {:induction false} OwnerIsExact(runs: seq<Run>, key: string)
    ensures match OwnerOf(runs, key)
      case Some((run, s)) => run in runs && s in run.steps && s.key == key
      case None => forall i :: 0 <= i < |runs| ==> StepWithKey(runs[i].steps, key).None?
  {
    if runs != [] {
      OwnerIsExact(runs[1..], key);
    }
  }

  /** What a lookup that starts at this tick finds. */
  function Owner(h: History, start: nat, key: string): Result<Option<(Run, Step)>, SweepError> {
    match ReadAll(h, h(start).listing, start + 1)
    case Failure(e) => Failure(e)
    case Success(runs) => Success(OwnerOf(runs, key))
  }

  /**
   The run that owns an idempotency key: an exact match that was really there, and
   none only when no run held the key for the whole call.
   */
  method FindByKey(h: History, start: nat, key: string) returns (r: Result<Option<(Run, Step)>, SweepError>, end: nat)
    requires ValidHistory(h)
    ensures end >= start
    ensures r == if key == "" then Success(None) else Owner(h, start, key)
    ensures r.Failure? ==> UnreadableDuring(h, start, end, r.error.id)
    ensures r.Success? && r.value.Some? ==>
      && ReadDuring(h, start, end, r.value.value.0)
      && r.value.value.1 in r.value.value.0.steps && r.value.value.1.key == key
    ensures r == Success(None) && key != "" ==> forall id :: !OwnsThroughout(h, start, end, id, key)
  {
    if key == "" {
      return Success(None), start;
    }
    var all;
    all, end := List(h, start);
    if all.Failure? {
      return Failure(all.error), end;
    }
    OwnerIsExact(all.value, key);
    for i := 0 to |all.value|
      invariant OwnerOf(all.value, key) == OwnerOf(all.value[i..], key)
    {
      var run := all.value[i];
      for j := 0 to |run.steps|
        invariant StepWithKey(run.steps, key) == StepWithKey(run.steps[j..], key)
      {
        if run.steps[j].key == key {
          return Success(Some((run, run.steps[j]))), end;
        }
      }
    }
    NoOwner(h, start, end, key, all.value);
    r := Success(None);
  }

  lemma NoOwner(h: History, start: nat, end: nat, key: string, runs: seq<Run>)
    requires forall i :: 0 <= i < |runs| ==> ReadDuring(h, start, end, runs[i]) && StepWithKey(runs[i].steps, key).None?
    requires forall id :: PresentThroughout(h, start, end, id) ==> Lists(runs, id)
    ensures forall id :: !OwnsThroughout(h, start, end, id, key)
  {
    forall id
      ensures !OwnsThroughout(h, start, end, id, key)
    {
      if PresentThroughout(h, start, end, id) {
        assert Lists(runs, id);
        var i :| 0 <= i < |runs| && runs[i].id == id;
        var t: nat :| start <= t < end && id in h(t).records && h(t).records[id] == Readable(runs[i]);
        assert StepWithKey(h(t).records[id].run.steps, key).None?;
      }
    }
  }

  // ---------- Route ----------

  /** What a caller's own key leads to. */
  datatype Routed = NewRun | Resume(run: Run) | HeldAgainstOther(run: Run) | NotAKey | Unread(error: SweepError)

  /**
   A key the ledger holds against these exact bytes resumes the run that holds it;
   against other bytes it is refused; a new run starts only if no run held the key
   for the whole lookup.
   */
  method Route(h: History, start: nat, key: string, body: RequestBody) returns (r: Routed, end: nat)
    requires ValidHistory(h)
    ensures end >= start
    ensures r.NotAKey? <==> key != "" && !ValidKey(key)
    ensures ValidKey(key) ==> (r.NewRun? <==> Owner(h, start, key) == Success(None))
    ensures r.NewRun? ==> key == "" || forall id :: !OwnsThroughout(h, start, end, id, key)
    ensures r.Resume? || r.HeldAgainstOther? ==> ReadDuring(h, start, end, r.run)
    ensures r.Resume? ==> exists s :: s in r.run.steps && s.key == key && s.digest == Some(Digest(body))
    ensures r.HeldAgainstOther? ==> exists s :: s in r.run.steps && s.key == key && s.digest != Some(Digest(body))
    ensures r.Unread? ==> UnreadableDuring(h, start, end, r.error.id)
  {
    if key == "" {
      return NewRun, start;
    }
    if !ValidKey(key) {
      return NotAKey, start;
    }
    var found;
    found, end := FindByKey(h, start, key);
    if found.Failure? {
      return Unread(found.error), end;
    }
    if found.value.None? {
      return NewRun, end;
    }
    var (run, step) := found.value.value;
    assert step in run.steps && step.key == key;
    r := if step.digest.None? || step.digest.value != Digest(body) then HeldAgainstOther(run) else Resume(run);
  }

  /** One run carries the key, and its record is there from this tick on. */
  ghost predicate OnlyFrom(h: History, id: Id, key: string, made: nat) {
    forall t: nat ::
      && (id in h(t).records <==> t >= made) && (id in h(t).listing ==> id in h(t).records)
      && forall other :: other in h(t).records ==>
        h(t).records[other].Readable? && (StepWithKey(h(t).records[other].run.steps, key).Some? <==> other == id)
  }

  /**
   The race on a caller's key. The lookup and the create are not under one lock:
   once another caller's run exists, this one is sent to it, and starts a run of
   its own under the same key exactly when its lookup began before that run was
   there.
   */
  lemma SecondCallerIsFreshIff(h: History, id: Id, key: string, made: nat, start: nat)
    requires ValidHistory(h) && OnlyFrom(h, id, key, made)
    ensures Owner(h, start, key).Success?
    ensures Owner(h, start, key) == Success(None) <==> start < made
  {
    var ids := h(start).listing;
    ReadsKey(h, id, key, made, ids, start + 1);
    OwnerIsExact(ReadAll(h, ids, start + 1).value, key);
    if start >= made {
      assert id in h(start).records;
    }
  }

  lemma {:induction false} ReadsKey(h: History, id: Id, key: string, made: nat, ids: seq<Id>, t: nat)
    requires ValidHistory(h) && OnlyFrom(h, id, key, made)
    ensures var r := ReadAll(h, ids, t);
      && r.Success?
      && (id !in ids ==> forall i :: 0 <= i < |r.value| ==> StepWithKey(r.value[i].steps, key).None?)
      && (id in ids && t >= made ==> exists i :: 0 <= i < |r.value| && StepWithKey(r.value[i].steps, key).Some?)
    decreases |ids|
  {
    if ids != [] {
      ReadsKey(h, id, key, made, ids[1..], t + 1);
      if ids[0] in h(t).records {
        var run := h(t).records[ids[0]].run;
        var rest := ReadAll(h, ids[1..], t + 1).value;
        var all := [run] + rest;
        assert ReadAll(h, ids, t) == Success(all);
        assert all[0] == run && forall i :: 0 <= i < |rest| ==> all[i + 1] == rest[i];
      }
    }
  }

  // ---------- Locks this process holds ----------

  const HOLDER_POLL: int := 5_000_000

  datatype Acquired = Locked | HeldByAnother | LockError

  /**
   The wait for a lock: `busy` says whether another process holds it at each
   instant, and `faulty` whether flock fails outright. Held by another only past
   the deadline and if it was busy at every attempt; a probe tries once.
   */
  method Acquire(busy: int -> bool, faulty: int -> bool, pace: Pace, clock: Clock, retryFor: int)
    returns (r: Acquired, ghost attempts: seq<int>)
    modifies clock
    ensures |attempts| >= 1 && attempts[0] == old(clock.now)
    ensures forall i :: 0 <= i < |attempts| - 1 ==>
      busy(attempts[i]) && !faulty(attempts[i]) && attempts[i] + HOLDER_POLL <= attempts[i + 1]
    ensures var last := attempts[|attempts| - 1];
      r == if faulty(last) then LockError else if busy(last) then HeldByAnother else Locked
    ensures r.HeldByAnother? ==> clock.now >= old(clock.now) + retryFor
    ensures if retryFor <= 0 then |attempts| == 1 else (|attempts| - 2) * HOLDER_POLL < retryFor
  {
    ghost var start := clock.now;
    var deadline := clock.now + retryFor;
    attempts := [];
    var n := 0;
    while true
      invariant n == |attempts|
      invariant |attempts| == 0 ==> clock.now == start
      invariant |attempts| > 0 ==>
        retryFor > 0 && attempts[0] == start && attempts[|attempts| - 1] + HOLDER_POLL <= clock.now
      invariant |attempts| * HOLDER_POLL <= clock.now - start
      invariant |attempts| > 0 ==> (|attempts| - 1) * HOLDER_POLL < retryFor
      invariant forall i :: 0 <= i < |attempts| ==> busy(attempts[i]) && !faulty(attempts[i])
      invariant forall i :: 0 <= i < |attempts| - 1 ==> attempts[i] + HOLDER_POLL <= attempts[i + 1]
      decreases deadline - clock.now
    {
      attempts := attempts + [clock.now];
      if faulty(clock.now) {
        return LockError, attempts;
      }
      if !busy(clock.now) {
        return Locked, attempts;
      }
      clock.Pass(pace.took(n));
      if !(clock.now < deadline) {
        return HeldByAnother, attempts;
      }
      clock.Sleep(HOLDER_POLL, pace.late(n));
      n := n + 1;
    }
  }

  /** The run locks this process has. */
  class OwnLocks {
    var mine: set<Id>

    constructor ()
      ensures mine == {}
    {
      mine := {};
    }

    /** One attempt, with no other lock in hand. */
    method TryLock(d: Snapshot, id: Id) returns (r: Acquired)
      requires mine == {}
      modifies this
      ensures r == if id in d.broken then LockError else if id in d.held then HeldByAnother else Locked
      ensures mine == if r.Locked? then {id} else {}
    {
      if id in d.broken {
        return LockError;
      }
      if id in d.held {
        return HeldByAnother;
      }
      mine := {id};
      r := Locked;
    }

    method Unlock()
      modifies this
      ensures mine == {}
    {
      mine := {};
    }

    /** Take the lock, and let it go before returning. */
    method Probe(d: Snapshot, id: Id) returns (r: Acquired)
      requires mine == {}
      modifies this
      ensures mine == {}
      ensures r == if id in d.broken then LockError else if id in d.held then HeldByAnother else Locked
    {
      r := TryLock(d, id);
      if r.Locked? {
        Unlock();
      }
    }
  }

  // ---------- Orphans ----------

  datatype Orphan = Orphan(runId: Id, step: StepName, state: State)

  function FirstUnresolved(steps: seq<Step>): (s: Option<Step>)
    ensures s.Some? <==> exists i :: 0 <= i < |steps| && steps[i].Unresolved()
    ensures s.Some? ==> s.value in steps && s.value.Unresolved()
    ensures s.Some? ==> exists i :: FirstAt(steps, i) && s.value == steps[i]
  {
    if steps == [] then None
    else if steps[0].Unresolved() then Some(steps[0])
    else
      var s := FirstUnresolved(steps[1..]);
      assert s.Some? ==> exists i :: FirstAt(steps[1..], i) && s.value == steps[1..][i] && FirstAt(steps, i + 1);
      s
  }

  /** Step `i` is unresolved, and none before it is. */
  ghost predicate FirstAt(steps: seq<Step>, i: int) {
    0 <= i < |steps| && steps[i].Unresolved() && forall j :: 0 <= j < i ==> !steps[j].Unresolved()
  }

  /** An empty profile or environment matches every run. */
  datatype Scope = Scope(profile: string, environment: string, exempt: set<Id>) {
    predicate Covers(run: Run) {
      && run.id !in exempt
      && (profile == "" || run.profile == profile)
      && (environment == "" || run.environment == environment)
    }
  }

  /** Not exempt, and of the profile and the environment asked about, or of any when none is. */
  ghost predicate Concerns(scope: Scope, run: Run) {
    run.id !in scope.exempt && scope.profile in {"", run.profile} && scope.environment in {"", run.environment}
  }

  /** Unresolved, in scope, and nobody is working on it. */
  ghost predicate Abandoned(d: Snapshot, scope: Scope, id: Id) {
    && id in d.records && d.records[id].Readable?
    && Concerns(scope, d.records[id].run) && d.records[id].run.HasUnresolved()
    && id !in d.held
  }

  ghost predicate AbandonedThroughout(h: History, start: nat, end: nat, scope: Scope, id: Id) {
    forall t: nat :: start <= t < end ==> Abandoned(h(t), scope, id)
  }

  /** What a report is evidence of: a read that showed the run unresolved, and a lock found free. */
  ghost predicate Evidenced(h: History, start: nat, end: nat, scope: Scope, o: Orphan) {
    && (exists run :: ReadDuring(h, start, end, run) && run.id == o.runId && Concerns(scope, run)
          && exists i :: FirstAt(run.steps, i) && run.steps[i].name == o.step && run.steps[i].state == o.state)
    && (exists t: nat :: start <= t < end && o.runId !in h(t).held)
  }

  predicate Reports(orphans: seq<Orphan>, id: Id) {
    exists i :: 0 <= i < |orphans| && orphans[i].runId == id
  }

  /**
   The runs a money command must refuse to walk past. Each lock is probed, with no
   other in hand, and let go before the next: none outlives the call.
   */
  method Orphans(h: History, start: nat, scope: Scope, locks: OwnLocks)
    returns (r: Result<seq<Orphan>, SweepError>, end: nat)
    requires ValidHistory(h) && locks.mine == {}
    modifies locks
    ensures locks.mine == {} && end > start
    ensures r.Success? ==> forall id :: AbandonedThroughout(h, start, end, scope, id) ==> Reports(r.value, id)
    ensures r.Success? ==> forall i :: 0 <= i < |r.value| ==> Evidenced(h, start, end, scope, r.value[i])
    ensures r.Success? ==> forall id :: !UnreadableThroughout(h, start, end, id)
    ensures r.Failure? ==> Obstructed(h, start, end, r.error)
  {
    var all, listed := List(h, start);
    end := listed;
    if all.Failure? {
      return Failure(all.error), end;
    }
    var out: seq<Orphan> := [];
    for k := 0 to |all.value|
      invariant listed <= end && locks.mine == {}
      invariant Probed(h, start, end, scope, all.value[..k], out)
    {
      var run := all.value[k];
      ghost var before, was := out, end;
      var s := FirstUnresolved(run.steps);
      if scope.Covers(run) && s.Some? {
        var probe := locks.Probe(h(end), run.id);
        end := end + 1;
        if probe.LockError? {
          return Failure(LockFailed(run.id)), end;
        }
        if probe.Locked? {
          out := out + [Orphan(run.id, s.value.name, s.value.state)];
        }
      }
      ProbedNext(h, start, listed, was, end, scope, all.value[..k], run, before, out);
      assert all.value[..k + 1] == all.value[..k] + [run];
    }
    assert all.value[..|all.value|] == all.value;
    EveryAbandoned(h, start, listed, end, scope, all.value, out);
    assert forall id :: UnreadableThroughout(h, start, end, id) ==> UnreadableThroughout(h, start, listed, id);
    r := Success(out);
  }

  /** What made a call fail was there: a record that could not be decoded, or a lock that could not be opened. */
  ghost predicate Obstructed(h: History, start: nat, end: nat, e: SweepError) {
    match e
    case CorruptRecord(id) => UnreadableDuring(h, start, end, id)
    case LockFailed(id) => exists t: nat :: start <= t < end && id in h(t).broken
    case WriteFailed(_) => false
  }

  /** Every report so far is evidenced, and nothing abandoned was passed over. */
  ghost predicate Probed(h: History, start: nat, end: nat, scope: Scope, runs: seq<Run>, out: seq<Orphan>) {
    && (forall i :: 0 <= i < |out| ==> Evidenced(h, start, end, scope, out[i]))
    && (forall i :: 0 <= i < |runs| && AbandonedThroughout(h, start, end, scope, runs[i].id) ==>
      Reports(out, runs[i].id))
  }

  lemma ProbedNext(h: History, start: nat, listed: nat, was: nat, end: nat, scope: Scope,
                   runs: seq<Run>, run: Run, before: seq<Orphan>, out: seq<Orphan>)
    requires Probed(h, start, was, scope, runs, before) && ReadDuring(h, start, listed, run) && start < listed <= was
    requires var s := FirstUnresolved(run.steps);
      if !scope.Covers(run) || s.None? then end == was && out == before
      else end == was + 1 && out == if run.id in h(was).held then before
        else before + [Orphan(run.id, s.value.name, s.value.state)]
    ensures Probed(h, start, end, scope, runs + [run], out)
  {
    LongerCall(h, start, was, end, scope, before);
    assert Probed(h, start, end, scope, runs, before);
    var s := FirstUnresolved(run.steps);
    if scope.Covers(run) && s.Some? && run.id !in h(was).held {
      var o := Orphan(run.id, s.value.name, s.value.state);
      Reported(h, start, listed, was, end, scope, run, s.value, o);
      ProbedMore(h, start, end, scope, runs, before, o);
    } else {
      Passed(h, start, listed, was, end, scope, run);
    }
    ProbedSnoc(h, start, end, scope, runs, run, out);
  }

  /** A run passed over was not abandoned throughout. */
  lemma Passed(h: History, start: nat, listed: nat, was: nat, end: nat, scope: Scope, run: Run)
    requires ReadDuring(h, start, listed, run) && start < listed <= was <= end
    requires !scope.Covers(run) || FirstUnresolved(run.steps).None? || (was < end && run.id in h(was).held)
    ensures !AbandonedThroughout(h, start, end, scope, run.id)
  {
    var t: nat :| start <= t < listed && run.id in h(t).records && h(t).records[run.id] == Readable(run);
    if was < end && run.id in h(was).held {
      assert !Abandoned(h(was), scope, run.id);
    } else {
      assert !Abandoned(h(t), scope, run.id);
    }
  }

  lemma ProbedMore(h: History, start: nat, end: nat, scope: Scope, runs: seq<Run>, before: seq<Orphan>, o: Orphan)
    requires Probed(h, start, end, scope, runs, before) && Evidenced(h, start, end, scope, o)
    ensures Probed(h, start, end, scope, runs, before + [o]) && Reports(before + [o], o.runId)
  {
    ReportsMore(before, o);
  }

  lemma ProbedSnoc(h: History, start: nat, end: nat, scope: Scope, runs: seq<Run>, run: Run, out: seq<Orphan>)
    requires Probed(h, start, end, scope, runs, out)
    requires AbandonedThroughout(h, start, end, scope, run.id) ==> Reports(out, run.id)
    ensures Probed(h, start, end, scope, runs + [run], out)
  {
  }

  lemma ReportsMore(before: seq<Orphan>, o: Orphan)
    ensures Reports(before + [o], o.runId)
    ensures forall id :: Reports(before, id) ==> Reports(before + [o], id)
  {
    assert (before + [o])[|before|] == o;
    forall id | Reports(before, id)
      ensures Reports(before + [o], id)
    {
      var i :| 0 <= i < |before| && before[i].runId == id;
      assert (before + [o])[i].runId == id;
    }
  }

  lemma EveryAbandoned(h: History, start: nat, listed: nat, end: nat, scope: Scope, runs: seq<Run>, out: seq<Orphan>)
    requires Probed(h, start, end, scope, runs, out) && listed <= end
    requires forall id :: PresentThroughout(h, start, listed, id) ==> Lists(runs, id)
    ensures forall id :: AbandonedThroughout(h, start, end, scope, id) ==> Reports(out, id)
  {
    forall id | AbandonedThroughout(h, start, end, scope, id)
      ensures Reports(out, id)
    {
      assert PresentThroughout(h, start, listed, id);
      var i :| 0 <= i < |runs| && runs[i].id == id;
    }
  }

  lemma Reported(h: History, start: nat, listed: nat, t: nat, end: nat, scope: Scope, run: Run, s: Step, o: Orphan)
    requires ReadDuring(h, start, listed, run) && Concerns(scope, run) && FirstUnresolved(run.steps) == Some(s)
    requires start <= t < end && listed <= end && run.id !in h(t).held && o == Orphan(run.id, s.name, s.state)
    ensures Evidenced(h, start, end, scope, o)
  {
    assert ReadDuring(h, start, end, run);
  }

  lemma LongerCall(h: History, start: nat, end: nat, end': nat, scope: Scope, orphans: seq<Orphan>)
    requires end <= end' && forall i :: 0 <= i < |orphans| ==> Evidenced(h, start, end, scope, orphans[i])
    ensures forall i :: 0 <= i < |orphans| ==> Evidenced(h, start, end', scope, orphans[i])
    ensures forall id :: AbandonedThroughout(h, start, end', scope, id) ==>
      AbandonedThroughout(h, start, end, scope, id)
  {
    forall i | 0 <= i < |orphans|
      ensures Evidenced(h, start, end', scope, orphans[i])
    {
      var o := orphans[i];
      var run :| ReadDuring(h, start, end, run) && run.id == o.runId && Concerns(scope, run)
        && exists i :: FirstAt(run.steps, i) && run.steps[i].name == o.step && run.steps[i].state == o.state;
      assert ReadDuring(h, start, end', run);
      var t: nat :| start <= t < end && o.runId !in h(t).held;
      assert start <= t < end';
    }
  }

  /**
   The gate before a new run: without --allow-pending it opens only past a directory
   with nothing abandoned, and nothing that cannot be read.
   */
  method OrphanCheck(h: History, start: nat, scope: Scope, allowPending: bool, locks: OwnLocks)
    returns (proceed: bool, end: nat)
    requires ValidHistory(h) && locks.mine == {}
    modifies locks
    ensures locks.mine == {} && end >= start
    ensures proceed && !allowPending ==> forall id ::
      !AbandonedThroughout(h, start, end, scope, id) && !UnreadableThroughout(h, start, end, id)
    ensures allowPending ==> proceed
    ensures !proceed ==>
      (exists o :: Evidenced(h, start, end, scope, o)) || (exists e :: Obstructed(h, start, end, e))
  {
    if allowPending {
      return true, start;
    }
    var orphans;
    orphans, end := Orphans(h, start, scope, locks);
    proceed := orphans.Success? && orphans.value == [];
    if orphans.Success? && !proceed {
      assert Evidenced(h, start, end, scope, orphans.value[0]);
    }
  }
}
