/**
 The run lock at the level of system calls (internal/runs/lock.go, and the
 acquire, load, unlink and clean-up sequences of ledger.go and sweep.go).

 flock locks an inode; the sidecar's directory entry may be unlinked and made
 again. The system is one run: its record, its sidecar entry, the locked inodes,
 and any number of processes stopped between any two calls. A process may die at
 any step, which drops its lock, and a power cut may strike at any step.
 */
module RunLock {
  import opened Wrappers
  import opened DurableStore
  import HeldStore

  type Pid = HeldStore.Pid
  type Ino = nat

  /** Create, Open (a resume or a decline), and the probe idiom (Orphans, Scrub, Prune). */
  datatype Kind = Creator | Opener | Sweeper

  datatype Proc<R> =
    | Seen(kind: Kind)                        // the stat or readdir is done, the sidecar is not open
    | Opened(kind: Kind, ino: Ino)            // the sidecar is open, not locked
    | Locked(kind: Kind, ino: Ino)            // flocked, the record not read yet
    | Live(kind: Kind, ino: Ino, base: R)     // holds the run, with the version it loaded or wrote
    | RecordGone(ino: Ino)                    // prune removed the record and is about to remove the sidecar
    | SidecarGone(ino: Ino, base: R)          // only with the unlinks the other way round
    | Leaving(ino: Ino)                       // prune is done and still locked
    | Cleaning                                // Open found no record, released, and is about to remove the sidecar
  {
    predicate HasFd() {
      Opened? || HoldsLock()
    }

    predicate HoldsLock() {
      Locked? || Live? || RecordGone? || SidecarGone? || Leaving?
    }

    /** Create before its first save. */
    predicate Unsaved() {
      (Seen? || Opened? || Locked?) && kind.Creator?
    }
  }

  datatype Sys<!R(==)> = Sys(
    record: Store<R>,
    sidecar: Option<Ino>,
    nextIno: Ino,
    locks: map<Ino, Pid>,
    procs: map<Pid, Proc<R>>,
    minted: bool)
  {
    function With(p: Pid, q: Proc<R>): Sys<R> {
      this.(procs := procs[p := q])
    }

    /** The process drops its lock, if it holds one, and is gone. */
    function Without(p: Pid): Sys<R>
      requires p in procs
    {
      this.(procs := procs - {p},
            locks := if procs[p].HoldsLock() then locks - {procs[p].ino} else locks)
    }
  }

  function Start<R(==)>(): Sys<R> {
    Sys(Empty(), None, 0, map[], map[], false)
  }

  datatype Event<R> =
    | BeginCreate(p: Pid)                       // Create: the stat found no record; run ids are never minted twice
    | BeginOpen(p: Pid)                         // Open: the stat found the record
    | BeginSweep(p: Pid)                        // a sweep: readdir listed the record
    | OpenSidecar(p: Pid)                       // open(O_CREATE)
    | Flock(p: Pid)                             // LOCK_EX|LOCK_NB succeeded
    | GiveUp(p: Pid)                            // flock refused to the deadline, or failed
    | FirstSave(p: Pid, r: R, o: SaveOutcome)   // Create's save
    | Load(p: Pid, readable: bool)              // the read under the lock
    | Save(p: Pid, r: R, o: SaveOutcome)        // any later save
    | Release(p: Pid)                           // Close, or the end of a probe
    | UnlinkRecord(p: Pid)                      // prune
    | UnlinkSidecar(p: Pid, ok: bool)           // prune
    | CleanUp(p: Pid)                           // Open removes the sidecar it may have made
    | Crash(p: Pid)
    | DirFsync
    | PowerLoss(back: Option<R>, sidecarBack: bool)

  /** One event. `sidecarFirst` swaps the order of prune's two unlinks. */
  ghost predicate Step<R>(s: Sys<R>, e: Event<R>, s': Sys<R>, sidecarFirst: bool := false) {
    match e
    case BeginCreate(p) =>
      !s.minted && p !in s.procs && s' == s.With(p, Seen(Creator)).(minted := true)
    case BeginOpen(p) =>
      p !in s.procs && s.record.current.Some? && s' == s.With(p, Seen(Opener))
    case BeginSweep(p) =>
      p !in s.procs && s.record.current.Some? && s' == s.With(p, Seen(Sweeper))
    case OpenSidecar(p) =>
      p in s.procs && s.procs[p].Seen? &&
      if s.sidecar.Some? then s' == s.With(p, Opened(s.procs[p].kind, s.sidecar.value))
      else s' == s.With(p, Opened(s.procs[p].kind, s.nextIno)).(sidecar := Some(s.nextIno), nextIno := s.nextIno + 1)
    case Flock(p) =>
      p in s.procs && s.procs[p].Opened? && s.procs[p].ino !in s.locks &&
      s' == s.With(p, Locked(s.procs[p].kind, s.procs[p].ino)).(locks := s.locks[s.procs[p].ino := p])
    case GiveUp(p) => p in s.procs && s.procs[p].Opened? && s' == s.Without(p)
    case FirstSave(p, r, o) =>
      p in s.procs && s.procs[p].Locked? && s.procs[p].kind.Creator? &&
      var saved := s.(record := s.record.Save(r, o));
      s' == if o.Saved? then saved.With(p, Live(Creator, s.procs[p].ino, r)) else saved.Without(p)
    case Load(p, readable) =>
      p in s.procs && s.procs[p].Locked? && !s.procs[p].kind.Creator? &&
      s' == if readable && s.record.current.Some? then
              s.With(p, Live(s.procs[p].kind, s.procs[p].ino, s.record.current.value))
            else if readable && s.procs[p].kind.Opener? then s.Without(p).With(p, Cleaning)
            else s.Without(p)
    case Save(p, r, o) =>
      p in s.procs && s.procs[p].Live? &&
      s' == s.(record := s.record.Save(r, o)).With(p,
              Live(s.procs[p].kind, s.procs[p].ino, if o.NotWritten? then s.procs[p].base else r))
    case Release(p) =>
      p in s.procs && s.procs[p].HoldsLock() && s' == s.Without(p)
    case UnlinkRecord(p) =>
      p in s.procs && (if sidecarFirst then s.procs[p].SidecarGone?
        else s.procs[p].Live? && s.procs[p].kind.Sweeper?) &&
      s' == s.(record := s.record.Unlinked()).With(p, if sidecarFirst then Leaving(s.procs[p].ino)
        else RecordGone(s.procs[p].ino))
    case UnlinkSidecar(p, ok) =>
      p in s.procs && (if sidecarFirst then s.procs[p].Live? && s.procs[p].kind.Sweeper? else s.procs[p].RecordGone?) &&
      s' == s.(sidecar := if ok then None else s.sidecar).With(p,
              if sidecarFirst then SidecarGone(s.procs[p].ino, s.procs[p].base) else Leaving(s.procs[p].ino))
    case CleanUp(p) =>
      p in s.procs && s.procs[p].Cleaning? && s' == s.Without(p).(sidecar := None)
    case Crash(p) => p in s.procs && s' == s.Without(p)
    case DirFsync => s' == s.(record := s.record.Settled())
    case PowerLoss(back, sidecarBack) =>
      back in s.record.recoverable &&
      s' == Sys(s.record.PowerCut(back), if sidecarBack then Some(s.nextIno)
        else None, s.nextIno + 1, map[], map[], s.minted)
  }

  /** A run: the systems passed through, and the event between each and the next. */
  ghost predicate Behaviour<R>(states: seq<Sys<R>>, events: seq<Event<R>>, sidecarFirst: bool := false) {
    && |states| == |events| + 1
    && states[0] == Start()
    && forall i :: 0 <= i < |events| ==> Step(states[i], events[i], states[i + 1], sidecarFirst)
  }

  ghost predicate Inv<R>(s: Sys<R>) {
    && s.record.Valid()
    && (!s.minted ==> s.record == Empty() && s.procs == map[])
    // A lock held is a lock recorded.
    && (forall p :: p in s.procs && s.procs[p].HoldsLock() ==>
      s.procs[p].ino in s.locks && s.locks[s.procs[p].ino] == p)
    // While the record exists, every open descriptor is on the one sidecar inode.
    && (s.record.current.Some? ==> forall p :: p in s.procs && s.procs[p].HasFd() ==> s.sidecar == Some(s.procs[p].ino))
    // A holder's version is the one on disk.
    && (forall p :: p in s.procs && s.procs[p].Live? ==> s.record.current == Some(s.procs[p].base))
    // The sidecar is removed only after the record.
    && (forall p :: p in s.procs && (s.procs[p].RecordGone? || s.procs[p].Leaving? || s.procs[p].Cleaning?) ==>
      s.record.current.None?)
    && (forall p :: p in s.procs ==> !s.procs[p].SidecarGone?)
    // Nobody can know of a run before its first save.
    && (forall p :: p in s.procs && s.procs[p].Unsaved() ==>
          s.record == Empty() && s.procs.Keys == {p} && (s.procs[p].HasFd() ==> s.sidecar == Some(s.procs[p].ino)))
  }

  /** What the layers above see. */
  ghost function Abstract<R>(s: Sys<R>): HeldStore.Held<R> {
    HeldStore.Held(s.record, map p | p in s.procs && s.procs[p].Live? :: s.procs[p].base)
  }

  /** The abstract action of an event. */
  ghost function ActionOf<R>(s: Sys<R>, e: Event<R>): HeldStore.Action<R> {
    match e
    case FirstSave(p, r, o) => HeldStore.Create(p, r, o)
    case Load(p, readable) => if readable && s.record.current.Some? then HeldStore.Take(p) else HeldStore.Skip
    case Save(p, r, o) => HeldStore.Put(p, r, o)
    case Release(p) => if p in s.procs && s.procs[p].Live? then HeldStore.Drop(p) else HeldStore.Skip
    case Crash(p) => if p in s.procs && s.procs[p].Live? then HeldStore.Drop(p) else HeldStore.Skip
    case UnlinkRecord(p) => HeldStore.Erase(p)
    case DirFsync => HeldStore.Settle
    case PowerLoss(back, _) => HeldStore.PowerCut(back)
    case _ => HeldStore.Skip
  }

  /** While a process is live on an existing record, it is the only one. */
  lemma OneHolder<R>(s: Sys<R>, p: Pid, q: Pid)
    requires Inv(s) && p in s.procs && q in s.procs && s.procs[p].Live? && s.procs[q].HoldsLock()
    ensures p == q
  {
  }

  lemma CreateKeepsInv<R>(s: Sys<R>, e: Event<R>, s': Sys<R>)
    requires Inv(s) && Step(s, e, s') && e.BeginCreate?
    ensures Inv(s') && HeldStore.Step(Abstract(s), HeldStore.Skip, Abstract(s'))
  {
    assert Abstract(s').live == Abstract(s).live;
  }

  lemma BeginKeepsInv<R>(s: Sys<R>, e: Event<R>, s': Sys<R>)
    requires Inv(s) && Step(s, e, s') && (e.BeginOpen? || e.BeginSweep?)
    ensures Inv(s') && HeldStore.Step(Abstract(s), HeldStore.Skip, Abstract(s'))
  {
    assert Abstract(s').live == Abstract(s).live;
  }

  /** A new sidecar is made only while there is no record, or by its creator. */
  lemma NewSidecarKeepsInv<R>(s: Sys<R>, e: Event<R>, s': Sys<R>)
    requires Inv(s) && Step(s, e, s') && e.OpenSidecar? && s.sidecar.None?
    ensures Inv(s') && HeldStore.Step(Abstract(s), HeldStore.Skip, Abstract(s'))
  {
    assert Abstract(s').live == Abstract(s).live;
  }

  lemma OpenSidecarKeepsInv<R>(s: Sys<R>, e: Event<R>, s': Sys<R>)
    requires Inv(s) && Step(s, e, s') && e.OpenSidecar? && s.sidecar.Some?
    ensures Inv(s') && HeldStore.Step(Abstract(s), HeldStore.Skip, Abstract(s'))
  {
    assert Abstract(s').live == Abstract(s).live;
  }

  lemma FlockKeepsInv<R>(s: Sys<R>, e: Event<R>, s': Sys<R>)
    requires Inv(s) && Step(s, e, s') && e.Flock?
    ensures Inv(s') && HeldStore.Step(Abstract(s), HeldStore.Skip, Abstract(s'))
  {
    assert Abstract(s').live == Abstract(s).live;
  }

  lemma LoadKeepsInv<R>(s: Sys<R>, e: Event<R>, s': Sys<R>)
    requires Inv(s) && Step(s, e, s') && e.Load?
    ensures Inv(s') && HeldStore.Step(Abstract(s), ActionOf(s, e), Abstract(s'))
  {
    if s.record.current.Some? {
      forall q | q in s.procs && s.procs[q].Live? ensures q == e.p { OneHolder(s, q, e.p); }
      assert Abstract(s).live == map[];
    }
  }

  lemma CleanUpKeepsInv<R>(s: Sys<R>, e: Event<R>, s': Sys<R>)
    requires Inv(s) && Step(s, e, s') && e.CleanUp?
    ensures Inv(s') && HeldStore.Step(Abstract(s), HeldStore.Skip, Abstract(s'))
  {
    assert Abstract(s').live == Abstract(s).live;
  }

  lemma DepartureKeepsInv<R>(s: Sys<R>, e: Event<R>, s': Sys<R>)
    requires Inv(s) && Step(s, e, s')
    requires e.GiveUp? || e.Release? || e.Crash?
    ensures Inv(s') && HeldStore.Step(Abstract(s), ActionOf(s, e), Abstract(s'))
  {
    assert Abstract(s').live == Abstract(s).live - {e.p};
    if !s.procs[e.p].Live? {
      assert Abstract(s').live == Abstract(s).live;
    }
  }

  lemma FirstSaveKeepsInv<R>(s: Sys<R>, e: Event<R>, s': Sys<R>)
    requires Inv(s) && Step(s, e, s') && e.FirstSave?
    ensures Inv(s') && HeldStore.Step(Abstract(s), ActionOf(s, e), Abstract(s'))
  {
    assert s.procs[e.p].Unsaved();
    assert Abstract(s).live == map[];
  }

  lemma SaveKeepsInv<R>(s: Sys<R>, e: Event<R>, s': Sys<R>)
    requires Inv(s) && Step(s, e, s') && e.Save?
    ensures Inv(s') && HeldStore.Step(Abstract(s), ActionOf(s, e), Abstract(s'))
  {
    forall q | q in s.procs && s.procs[q].HoldsLock() ensures q == e.p { OneHolder(s, e.p, q); }
    assert Abstract(s').live == if e.o.NotWritten? then Abstract(s).live else Abstract(s).live[e.p := e.r];
  }

  lemma UnlinkKeepsInv<R>(s: Sys<R>, e: Event<R>, s': Sys<R>)
    requires Inv(s) && Step(s, e, s') && (e.UnlinkRecord? || e.UnlinkSidecar?)
    ensures Inv(s') && HeldStore.Step(Abstract(s), ActionOf(s, e), Abstract(s'))
  {
    if e.UnlinkRecord? {
      forall q | q in s.procs && s.procs[q].HoldsLock() ensures q == e.p { OneHolder(s, e.p, q); }
      assert Abstract(s').live == Abstract(s).live - {e.p};
    } else {
      assert Abstract(s').live == Abstract(s).live;
    }
  }

  lemma DiskKeepsInv<R>(s: Sys<R>, e: Event<R>, s': Sys<R>)
    requires Inv(s) && Step(s, e, s') && (e.DirFsync? || e.PowerLoss?)
    ensures Inv(s') && HeldStore.Step(Abstract(s), ActionOf(s, e), Abstract(s'))
  {
    if e.PowerLoss? {
      assert Abstract(s').live == map[];
    } else {
      assert Abstract(s').live == Abstract(s).live;
    }
  }

  /** Every event keeps the invariant and is one action of the holder interface, or invisible to it. */
  lemma StepRefines<R>(s: Sys<R>, e: Event<R>, s': Sys<R>)
    requires Inv(s) && Step(s, e, s')
    ensures Inv(s') && HeldStore.Step(Abstract(s), ActionOf(s, e), Abstract(s'))
  {
    match e
    case BeginCreate(_) => CreateKeepsInv(s, e, s');
    case BeginOpen(_) => BeginKeepsInv(s, e, s');
    case BeginSweep(_) => BeginKeepsInv(s, e, s');
    case OpenSidecar(_) =>
      if s.sidecar.Some? {
        OpenSidecarKeepsInv(s, e, s');
      } else {
        NewSidecarKeepsInv(s, e, s');
      }
    case Flock(_) => FlockKeepsInv(s, e, s');
    case GiveUp(_) => DepartureKeepsInv(s, e, s');
    case FirstSave(_, _, _) => FirstSaveKeepsInv(s, e, s');
    case Load(_, _) => LoadKeepsInv(s, e, s');
    case Save(_, _, _) => SaveKeepsInv(s, e, s');
    case Release(_) => DepartureKeepsInv(s, e, s');
    case UnlinkRecord(_) => UnlinkKeepsInv(s, e, s');
    case UnlinkSidecar(_, _) => UnlinkKeepsInv(s, e, s');
    case CleanUp(_) => CleanUpKeepsInv(s, e, s');
    case Crash(_) => DepartureKeepsInv(s, e, s');
    case DirFsync => DiskKeepsInv(s, e, s');
    case PowerLoss(_, _) => DiskKeepsInv(s, e, s');
  }

  /**
   Over every run: at most one process is live on the record, and it holds the
   version on disk, so no save overwrites one its writer did not load or write.
   */
  lemma {:induction false} LockSafety<R>(states: seq<Sys<R>>, events: seq<Event<R>>, i: nat)
    requires Behaviour(states, events) && i < |states|
    ensures Inv(states[i]) && Abstract(states[i]).Exclusive()
  {
    if i == 0 {
      assert Abstract(states[0]).live == map[];
    } else {
      LockSafety(states, events, i - 1);
      StepRefines(states[i - 1], events[i - 1], states[i]);
      HeldStore.StepKeepsExclusive(Abstract(states[i - 1]), ActionOf(states[i - 1], events[i - 1]),
        Abstract(states[i]));
    }
  }

  /** An open that finds the record gone under its lock lets go, and takes the sidecar it may have made with it. */
  lemma StaleSidecarGoes<R>(s: Sys<R>, p: Pid) returns (released: Sys<R>, cleaned: Sys<R>)
    requires Inv(s) && p in s.procs && s.procs[p].Locked? && s.procs[p].kind.Opener? && s.record.current.None?
    ensures Step(s, Load(p, true), released) && s.procs[p].ino !in released.locks
    ensures Step(released, CleanUp(p), cleaned) && cleaned.sidecar.None? && p !in cleaned.procs
    ensures Inv(cleaned) && cleaned.record == s.record
  {
    released := s.Without(p).With(p, Cleaning);
    cleaned := released.Without(p).(sidecar := None);
    StepRefines(s, Load(p, true), released);
    StepRefines(released, CleanUp(p), cleaned);
  }

  // ---------- The order of prune's unlinks ----------

  /** The run on which two processes hold the record, with the sidecar unlinked first. */
  function RacingEvents(r: nat): seq<Event<nat>> {
    [BeginCreate(0), OpenSidecar(0), Flock(0), FirstSave(0, r, Saved), Release(0),
     BeginSweep(1), OpenSidecar(1), Flock(1), Load(1, true), UnlinkSidecar(1, true),
     BeginOpen(2), OpenSidecar(2), Flock(2), Load(2, true)]
  }

  /** A run created and closed. */
  function CreatedRun(r: nat): seq<Sys<nat>> {
    var s0: Sys<nat> := Start();
    var s1 := s0.With(0, Seen(Creator)).(minted := true);
    var s2 := s1.With(0, Opened(Creator, 0)).(sidecar := Some(0), nextIno := 1);
    var s3 := s2.With(0, Locked(Creator, 0)).(locks := s2.locks[0 := 0]);
    var s4 := s3.(record := s3.record.Save(r, Saved)).With(0, Live(Creator, 0, r));
    [s0, s1, s2, s3, s4, s4.Without(0)]
  }

  /** A prune that has removed the sidecar and not yet the record. */
  function HalfPruned(s5: Sys<nat>, r: nat): seq<Sys<nat>> {
    var s6 := s5.With(1, Seen(Sweeper));
    var s7 := s6.With(1, Opened(Sweeper, 0));
    var s8 := s7.With(1, Locked(Sweeper, 0)).(locks := s7.locks[0 := 1]);
    var s9 := s8.With(1, Live(Sweeper, 0, r));
    [s6, s7, s8, s9, s9.(sidecar := None).With(1, SidecarGone(0, r))]
  }

  /** A resume that makes a fresh sidecar and opens the record the prune is about to remove. */
  function Resumed(s10: Sys<nat>, r: nat): seq<Sys<nat>> {
    var s11 := s10.With(2, Seen(Opener));
    var s12 := s11.With(2, Opened(Opener, 1)).(sidecar := Some(1), nextIno := 2);
    var s13 := s12.With(2, Locked(Opener, 1)).(locks := s12.locks[1 := 2]);
    [s11, s12, s13, s13.With(2, Live(Opener, 1, r))]
  }

  function RacingStates(r: nat): seq<Sys<nat>> {
    var created := CreatedRun(r);
    var pruning := HalfPruned(created[5], r);
    created + pruning + Resumed(pruning[4], r)
  }

  lemma CreatedRunSteps(r: nat, i: nat)
    requires i < 5
    ensures Step(CreatedRun(r)[i], RacingEvents(r)[i], CreatedRun(r)[i + 1], true)
    ensures CreatedRun(r)[5] == Sys(Store(Some(r), {Some(r)}), Some(0), 1, map[], map[], true)
  {
  }

  lemma HalfPrunedSteps(s5: Sys<nat>, r: nat, i: nat)
    requires s5 == Sys(Store(Some(r), {Some(r)}), Some(0), 1, map[], map[], true) && i < 5
    ensures Step(([s5] + HalfPruned(s5, r))[i], RacingEvents(r)[5 + i], HalfPruned(s5, r)[i], true)
    ensures HalfPruned(s5, r)[4] == Sys(s5.record, None, 1, map[0 := 1], map[1 := SidecarGone(0, r)], true)
  {
  }

  lemma ResumedSteps(s10: Sys<nat>, r: nat, i: nat)
    requires s10 == Sys(Store(Some(r), {Some(r)}), None, 1, map[0 := 1], map[1 := SidecarGone(0, r)], true) && i < 4
    ensures Step(([s10] + Resumed(s10, r))[i], RacingEvents(r)[10 + i], Resumed(s10, r)[i], true)
    ensures Resumed(s10, r)[3].record == s10.record
    ensures Resumed(s10, r)[3].procs == map[1 := SidecarGone(0, r), 2 := Live(Opener, 1, r)]
  {
  }

  /**
   The record-before-sidecar order is needed: with the other order a run reaches
   a process about to unlink a record that another has just opened under "the" lock.
   */
  lemma SidecarFirstIsUnsafe(r: nat)
    ensures Behaviour(RacingStates(r), RacingEvents(r), true)
    ensures var s := RacingStates(r)[14];
      && s.record.current == Some(r)
      && s.procs == map[1 := SidecarGone(0, r), 2 := Live(Opener, 1, r)]
  {
    var created := CreatedRun(r);
    var pruning := HalfPruned(created[5], r);
    CreatedRunSteps(r, 0);
    HalfPrunedSteps(created[5], r, 0);
    ResumedSteps(pruning[4], r, 0);
    var states, events := RacingStates(r), RacingEvents(r);
    forall i | 0 <= i < |events|
      ensures Step(states[i], events[i], states[i + 1], true)
    {
      if i < 5 {
        CreatedRunSteps(r, i);
      } else if i < 10 {
        HalfPrunedSteps(created[5], r, i - 5);
      } else {
        ResumedSteps(pruning[4], r, i - 10);
      }
    }
  }
}
