/** The protocol touches the record only as `HeldStore` lets a holder: `RunLock` makes that the whole story. */
module ProtocolHolds {
  import opened Wrappers
  import opened DurableStore
  import opened Records
  import opened Protocol
  import opened ProtocolSafety
  import opened ProtocolSteps
  import H = HeldStore
  import L = Ledger

  /** Whichever process holds the run. */
  const ME: H.Pid := 0

  /** The world as the lock sees it: the record, and the one process that holds it. */
  ghost function Seen(w: World): H.Held<Run> {
    H.Held(w.store, if w.holder.Some? && w.store.current.Some? then map[ME := w.store.current.value] else map[])
  }

  /** The record is taken, left or lost. */
  predicate Boundary(e: Event) {
    e.Create? || e.Open? || e.DirFsync? || e.PowerCut? || e.PruneRun? || e.Leave? || e.Crash?
  }

  ghost predicate AtMostOneWrite(w: World, w': World) {
    w'.holder.Some? && (w'.store == w.store || exists r, o :: w'.store == w.store.Save(r, o))
  }

  /** Every other event holds on and makes at most one write. */
  lemma HoldingOn(w: World, e: Event)
    requires w.holder.Some? && Apply(w, e).Some? && !Boundary(e)
    ensures AtMostOneWrite(w, Apply(w, e).value)
  {
    hide L.AwaitRun, L.BeginRun, L.BegunKept, L.RecordRun, L.UnreachableRun, L.SetPlanRun, L.ScrubRun, L.DeclineRun,
      GoesOn, StopsWith, Resumable;
  }

  lemma WriteStep(w: World, w': World) returns (a: H.Action<Run>)
    requires w.holder.Some? && w.store.current.Some? && AtMostOneWrite(w, w')
    ensures H.Step(Seen(w), a, Seen(w'))
  {
    if w'.store == w.store {
      a := H.Skip;
    } else {
      var r, o :| w'.store == w.store.Save(r, o);
      a := H.Put(ME, r, o);
      var live := map[ME := w.store.current.value];
      assert live[ME := r] == map[ME := r];
      assert Seen(w).live == live;
    }
  }

  lemma EnteringStep(w: World, e: Event, w': World) returns (a: H.Action<Run>)
    requires Inv(w) && Apply(w, e) == Some(w') && (e.Create? || e.Open?)
    ensures H.Step(Seen(w), a, Seen(w'))
  {
    match e
    case Create(flow, opts, run, o) => a := H.Create(ME, L.ValidateNew(run).value, o);
    case Open(flow, opts) => a := H.Take(ME);
  }

  lemma PruningStep(w: World, e: Event, w': World) returns (a: H.Action<Run>)
    requires Inv(w) && Apply(w, e) == Some(w') && e.PruneRun?
    ensures H.Step(Seen(w), a, Seen(w'))
  {
    a := if w'.holder.Some? then H.Skip else H.Erase(ME);
  }

  lemma LeavingStep(w: World, e: Event, w': World) returns (a: H.Action<Run>)
    requires Inv(w) && Apply(w, e) == Some(w') && (e.Leave? || e.Crash?)
    ensures H.Step(Seen(w), a, Seen(w'))
  {
    hide MayEnd;
    a := H.Drop(ME);
  }

  lemma DiskStep(w: World, e: Event, w': World) returns (a: H.Action<Run>)
    requires Inv(w) && Apply(w, e) == Some(w') && (e.DirFsync? || e.PowerCut?)
    ensures H.Step(Seen(w), a, Seen(w'))
  {
    match e
    case DirFsync => a := H.Settle;
    case PowerCut(back) => a := H.Action.PowerCut(back);
  }

  /** Every event is one step of a record held by at most one process. */
  lemma EventIsAHeldStep(w: World, e: Event, w': World) returns (a: H.Action<Run>)
    requires Inv(w) && Apply(w, e) == Some(w')
    ensures H.Step(Seen(w), a, Seen(w'))
  {
    if e.Create? || e.Open? {
      a := EnteringStep(w, e, w');
    } else if e.DirFsync? || e.PowerCut? {
      a := DiskStep(w, e, w');
    } else if e.PruneRun? {
      a := PruningStep(w, e, w');
    } else if Boundary(e) {
      a := LeavingStep(w, e, w');
    } else {
      HoldingOn(w, e);
      a := WriteStep(w, w');
    }
  }
}
