/**
 The interface the run lock gives the ledger: one record, and at most one live
 process holding it. `RunLock` refines it from flock on sidecar inodes; the
 send protocol is stated over it.
 */
module HeldStore {
  import opened Wrappers
  import opened DurableStore

  type Pid = nat

  /** `live` maps each process holding the run to the version it loaded or last wrote. */
  datatype Held<!R(==)> = Held(store: Store<R>, live: map<Pid, R>) {

    /** At most one holder, and what it holds is what is on disk. */
    ghost predicate Exclusive() {
      && (forall p, q :: p in live && q in live ==> p == q)
      && (forall p :: p in live ==> store.current == Some(live[p]))
    }
  }

  datatype Action<R> =
    | Create(p: Pid, r: R, o: SaveOutcome)
    | Take(p: Pid)
    | Put(p: Pid, r: R, o: SaveOutcome)
    | Drop(p: Pid)
    | Erase(p: Pid)
    | Settle
    | PowerCut(back: Option<R>)
    | Skip

  ghost predicate Step<R>(s: Held<R>, a: Action<R>, s': Held<R>) {
    match a
    case Create(p, r, o) =>
      s.store == Empty() && s.live == map[] &&
      s' == Held(s.store.Save(r, o), if o.Saved? then map[p := r] else map[])
    case Take(p) =>
      s.store.current.Some? && s.live == map[] && s' == s.(live := map[p := s.store.current.value])
    case Put(p, r, o) =>
      p in s.live && s.store.current == Some(s.live[p]) &&
      s' == Held(s.store.Save(r, o), if o.NotWritten? then s.live else s.live[p := r])
    case Drop(p) => p in s.live && s' == s.(live := s.live - {p})
    case Erase(p) =>
      p in s.live && s.store.current == Some(s.live[p]) && s' == Held(s.store.Unlinked(), s.live - {p})
    case Settle => s' == s.(store := s.store.Settled())
    case PowerCut(back) => back in s.store.recoverable && s' == Held(s.store.PowerCut(back), map[])
    case Skip => s' == s
  }

  lemma StepKeepsExclusive<R>(s: Held<R>, a: Action<R>, s': Held<R>)
    requires s.Exclusive() && Step(s, a, s')
    ensures s'.Exclusive()
  {
  }
}
