/**
 The sweeps that change the run directory (internal/runs/sweep.go, Scrub and Prune).
 Each run is worked on under its own lock, and between two runs any other process
 may do anything at all to the directory.
 */
module Maintenance {
  import opened Wrappers
  import opened DurableStore
  import opened Records
  import L = Ledger
  import opened Sweeps

  /**
   The directory at one instant: records that decode, records that do not, sidecars,
   and locks other processes hold.
   */
  datatype Dir = Dir(records: map<Id, Run>, corrupt: set<Id>, sidecars: set<Id>, held: set<Id>) {
    /** Every step settled, with no token left in it, old, and held by nobody. */
    ghost predicate Removable(id: Id, cutoff: int) {
      && id in records && id !in corrupt && id !in held && records[id].createdAt < cutoff
      && forall i :: 0 <= i < |records[id].steps| ==> records[id].steps[i].Settled()
    }

    /** Readable, and held by nobody. */
    predicate Free(id: Id) {
      id in records && id !in corrupt && id !in held
    }
  }

  /** What a sweep cannot change, and how its saves end. */
  datatype Obstacles = Obstacles(saves: Id -> SaveOutcome, stuckRecords: set<Id>, stuckSidecars: set<Id>)

  /** One run's turn: the directory when its lock was tried, and when it was let go. */
  datatype Visit = Visit(id: Id, before: Dir, after: Dir)

  /** Nothing but this run's own files changed. */
  ghost predicate Local(v: Visit) {
    && v.after.corrupt == v.before.corrupt && v.after.held == v.before.held
    && v.after.records.Keys - {v.id} == v.before.records.Keys - {v.id}
    && (forall id :: id in v.before.records && id != v.id ==>
      id in v.after.records && v.after.records[id] == v.before.records[id])
    && v.after.sidecars - {v.id} == v.before.sidecars - {v.id}
  }

  /** The visits of a sweep are its runs in order, all of them unless it failed. */
  ghost predicate Visited(visits: seq<Visit>, ids: seq<Id>, failed: bool) {
    && |visits| <= |ids| && (forall k :: 0 <= k < |visits| ==> visits[k].id == ids[k])
    && (!failed ==> |visits| == |ids|)
  }

  /** Why a turn ends the sweep: a free lock over a record that cannot be read, or a change that could not be made. */
  function Stopped(id: Id, before: Dir, stuck: bool): Option<SweepError> {
    if id in before.held then None
    else if id in before.corrupt then Some(CorruptRecord(id))
    else if stuck then Some(WriteFailed(id))
    else None
  }

  // ---------- Prune ----------

  /**
   A run's turn in a prune. Only a removable record goes, it goes before its
   sidecar, and what stays is as it was.
   */
  ghost predicate PruneVisit(v: Visit, cutoff: int, x: Obstacles) {
    && Local(v)
    && (v.id in v.before.records && v.id !in v.after.records <==>
      v.before.Removable(v.id, cutoff) && v.id !in x.stuckRecords)
    && (v.id in v.after.records ==> v.id in v.before.records && v.after.records[v.id] == v.before.records[v.id])
    && (v.id !in v.before.held && v.id in v.after.records && v.id !in v.before.corrupt ==> v.id in v.after.sidecars)
  }

  /** What a prune removes had nothing open: no request in it can have an outcome still to come. */
  lemma RemovedWasSettled(v: Visit, cutoff: int, x: Obstacles)
    requires PruneVisit(v, cutoff, x) && v.id in v.before.records && v.id !in v.after.records
    ensures var run := v.before.records[v.id];
      && v.id !in v.before.held && run.createdAt < cutoff && !run.HasUnresolved()
      && forall i :: 0 <= i < |run.steps| ==>
           run.steps[i].state in {Terminal, Declined, Unreachable} &&
             run.steps[i].planToken in {None, Some(""), Some("[SCRUBBED]")}
  {
    PrunableIff(v.before.records[v.id]);
  }

  /** The record and its sidecar are both gone. */
  ghost predicate Pruned(v: Visit, cutoff: int, x: Obstacles) {
    v.before.Removable(v.id, cutoff) && v.id !in x.stuckRecords && v.id !in x.stuckSidecars
  }

  /** If it could be removed it was. */
  ghost predicate Gone(v: Visit, cutoff: int, x: Obstacles) {
    v.before.Removable(v.id, cutoff) ==> Pruned(v, cutoff, x)
  }

  // ---------- Scrub ----------

  /** What a scrub leaves of a run, given how its save ends. */
  function Scrubbed(run: Run, now: int, o: SaveOutcome): Run {
    if o.NotWritten? then run else L.ScrubRun(run, now)
  }

  /** A run's turn in a scrub: a free run is scrubbed as far as its save allows; any other is as it was. */
  ghost predicate ScrubVisit(v: Visit, now: int, x: Obstacles) {
    && Local(v) && (v.id in v.after.records <==> v.id in v.before.records)
    && (v.id in v.before.records ==>
          v.after.records[v.id] == if v.before.Free(v.id) then Scrubbed(v.before.records[v.id], now, x.saves(v.id))
            else v.before.records[v.id])
  }

  /** A run that was free at its turn holds no token it should not. */
  ghost predicate Clean(v: Visit, now: int) {
    v.before.Free(v.id) ==> v.id in v.after.records && v.after.records[v.id] == L.ScrubRun(v.before.records[v.id], now)
  }

  predicate Changes(v: Visit, now: int) {
    v.before.Free(v.id) && L.ScrubRun(v.before.records[v.id], now) != v.before.records[v.id]
  }

  /** scrubRun: the run scrubbed in place, and whether anything changed. */
  method ScrubInPlace(run: Run, now: int) returns (scrubbed: Run, changed: bool)
    ensures scrubbed == L.ScrubRun(run, now)
    ensures changed <==> scrubbed != run
  {
    var steps := run.steps;
    changed := false;
    ghost var at := 0;
    for i := 0 to |steps|
      invariant ScrubbedTo(run.steps, steps, now, i)
      invariant if changed then 0 <= at < i && steps[at] != run.steps[at] else steps == run.steps
    {
      var s := steps[i];
      if L.Scrubs(s, now) {
        steps := steps[i := s.(planToken := Some(SCRUBBED_TOKEN))];
        changed, at := true, i;
      }
    }
    assert steps == L.ScrubSteps(run.steps, now);
    scrubbed := run.(steps := steps);
  }

  /** The first `i` steps are scrubbed and the rest are as they were. */
  ghost predicate ScrubbedTo(was: seq<Step>, steps: seq<Step>, now: int, i: nat) {
    && |steps| == |was|
    && (forall j :: 0 <= j < i && j < |was| ==>
      steps[j] == if L.Scrubs(was[j], now) then L.ScrubStep(was[j]) else was[j])
    && (forall j :: i <= j < |was| ==> steps[j] == was[j])
  }

  class Directory {
    var records: map<Id, Run>
    var corrupt: set<Id>
    var sidecars: set<Id>
    var held: set<Id>

    function Now(): Dir
      reads this
    {
      Dir(records, corrupt, sidecars, held)
    }

    constructor ()
      ensures Now() == Dir(map[], {}, {}, {})
    {
      records, corrupt, sidecars, held := map[], {}, {}, {};
    }

    /** Other processes, between two turns. */
    method Others()
      modifies this
    {
      records, corrupt, sidecars, held := *, *, *, *;
    }

    /** One run's turn in a prune. */
    method PruneOne(id: Id, cutoff: int, x: Obstacles) returns (did: bool, err: Option<SweepError>)
      modifies this
      ensures PruneVisit(Visit(id, old(Now()), Now()), cutoff, x)
      ensures did <==> Pruned(Visit(id, old(Now()), Now()), cutoff, x)
      ensures did ==> id !in sidecars
      ensures err == Stopped(id, old(Now()), old(Now()).Removable(id, cutoff) &&
        (id in x.stuckRecords || id in x.stuckSidecars))
    {
      did, err := false, None;
      if id in held {
        return;
      }
      sidecars := sidecars + {id};
      if id in corrupt {
        return false, Some(CorruptRecord(id));
      }
      if id in records {
        PrunableIff(records[id]);
      }
      if id !in records || !records[id].Prunable() || !(records[id].createdAt < cutoff) {
        return;
      }
      if id in x.stuckRecords {
        return false, Some(WriteFailed(id));
      }
      records := records - {id};
      if id in x.stuckSidecars {
        return false, Some(WriteFailed(id));
      }
      sidecars := sidecars - {id};
      did := true;
    }

    /**
     Removes each removable run, judged at its own turn. A run reported as pruned
     has left neither file; a record can go unreported only when its sidecar
     could not be removed, and that is the error returned.
     */
    method Prune(ids: seq<Id>, cutoff: int, x: Obstacles)
      returns (pruned: seq<Id>, err: Option<SweepError>, ghost visits: seq<Visit>)
      modifies this
      ensures Visited(visits, ids, err.Some?)
      ensures forall k :: 0 <= k < |visits| ==> PruneVisit(visits[k], cutoff, x)
      ensures forall id :: id in pruned <==>
        exists k :: 0 <= k < |visits| && visits[k].id == id && Pruned(visits[k], cutoff, x)
      ensures forall k :: 0 <= k < |visits| && !Gone(visits[k], cutoff, x) ==>
        err == Some(WriteFailed(visits[k].id)) && k == |visits| - 1
    {
      pruned, err, visits := [], None, [];
      for k := 0 to |ids|
        invariant |visits| == k && forall j :: 0 <= j < k ==> visits[j].id == ids[j]
        invariant forall j :: 0 <= j < k ==> PruneVisit(visits[j], cutoff, x)
        invariant forall j :: 0 <= j < k ==> Gone(visits[j], cutoff, x)
        invariant forall id :: id in pruned <==>
          exists j :: 0 <= j < k && visits[j].id == id && Pruned(visits[j], cutoff, x)
      {
        Others();
        ghost var before := Now();
        var did;
        did, err := PruneOne(ids[k], cutoff, x);
        ghost var v := Visit(ids[k], before, Now());
        ghost var was := visits;
        visits := visits + [v];
        assert visits[k] == v && forall j :: 0 <= j < k ==> visits[j] == was[j];
        if did {
          pruned := pruned + [ids[k]];
        }
        if err.Some? {
          return;
        }
      }
    }

    /** One run's turn in a scrub. */
    method ScrubOne(id: Id, now: int, x: Obstacles) returns (did: bool, err: Option<SweepError>)
      modifies this
      ensures ScrubVisit(Visit(id, old(Now()), Now()), now, x)
      ensures did <==> Changes(Visit(id, old(Now()), Now()), now) && x.saves(id).Saved?
      ensures err == Stopped(id, old(Now()), Changes(Visit(id, old(Now()), Now()), now) && !x.saves(id).Saved?)
    {
      did, err := false, None;
      if id in held {
        return;
      }
      sidecars := sidecars + {id};
      if id in corrupt {
        return false, Some(CorruptRecord(id));
      }
      if id !in records {
        return;
      }
      var run, changed := ScrubInPlace(records[id], now);
      if !changed {
        return;
      }
      if !x.saves(id).NotWritten? {
        records := records[id := run];
      }
      if !x.saves(id).Saved? {
        return false, Some(WriteFailed(id));
      }
      did := true;
    }

    /**
     Scrubs every run that is free at its turn; a run reported is one that was
     changed durably, and every free run that needed it is changed unless its own
     save failed, which ends the sweep.
     */
    method Scrub(ids: seq<Id>, now: int, x: Obstacles)
      returns (scrubbed: seq<Id>, err: Option<SweepError>, ghost visits: seq<Visit>)
      modifies this
      ensures Visited(visits, ids, err.Some?)
      ensures forall k :: 0 <= k < |visits| ==> ScrubVisit(visits[k], now, x)
      ensures forall id :: id in scrubbed <==>
        exists k :: 0 <= k < |visits| && visits[k].id == id && Changes(visits[k], now) && x.saves(id).Saved?
      ensures err.None? ==> forall k :: 0 <= k < |visits| ==> Clean(visits[k], now)
    {
      scrubbed, err, visits := [], None, [];
      for k := 0 to |ids|
        invariant |visits| == k && forall j :: 0 <= j < k ==> visits[j].id == ids[j]
        invariant forall j :: 0 <= j < k ==>
          ScrubVisit(visits[j], now, x) && (Changes(visits[j], now) ==> x.saves(visits[j].id).Saved?)
        invariant forall id :: id in scrubbed <==>
          exists j :: 0 <= j < k && visits[j].id == id && Changes(visits[j], now) && x.saves(id).Saved?
      {
        Others();
        ghost var before := Now();
        var did;
        did, err := ScrubOne(ids[k], now, x);
        ghost var v := Visit(ids[k], before, Now());
        ghost var was := visits;
        visits := visits + [v];
        assert visits[k] == v && forall j :: 0 <= j < k ==> visits[j] == was[j];
        if did {
          scrubbed := scrubbed + [ids[k]];
        }
        if err.Some? {
          return;
        }
      }
    }
  }

  // ---------- Undisturbed ----------

  /** Nobody else touched the directory between the turns. */
  ghost predicate Undisturbed(visits: seq<Visit>) {
    forall k :: 0 < k < |visits| ==> visits[k].before == visits[k - 1].after
  }

  /** Left alone, a prune without an error leaves no removable run that it was given, and takes no other. */
  lemma {:induction false} PruneIsComplete(visits: seq<Visit>, cutoff: int, x: Obstacles, id: Id)
    requires visits != [] && Undisturbed(visits)
    requires forall k :: 0 <= k < |visits| ==> PruneVisit(visits[k], cutoff, x) && Gone(visits[k], cutoff, x)
    requires id in visits[0].before.records
    ensures var last := visits[|visits| - 1].after;
      && (id !in last.records <==>
        visits[0].before.Removable(id, cutoff) && exists k :: 0 <= k < |visits| && visits[k].id == id)
      && (id in last.records ==> last.records[id] == visits[0].before.records[id])
      && last.held == visits[0].before.held && last.corrupt == visits[0].before.corrupt
    decreases |visits|
  {
    var n := |visits| - 1;
    if n > 0 {
      var front := visits[..n];
      assert forall k :: 0 <= k < n ==> front[k] == visits[k];
      PruneIsComplete(front, cutoff, x, id);
    }
    if visits[n].id != id {
      LocalElsewhere(visits[n], id);
    }
  }

  lemma LocalElsewhere(v: Visit, id: Id)
    requires Local(v) && id != v.id
    ensures id in v.after.records <==> id in v.before.records
    ensures id in v.before.records ==> v.after.records[id] == v.before.records[id]
  {
    assert id in v.after.records.Keys - {v.id} <==> id in v.before.records.Keys - {v.id};
  }
}
