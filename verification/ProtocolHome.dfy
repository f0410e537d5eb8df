/**
 The runs directory itself. `Create` makes it with MkdirAll, and no write ever
 fsyncs its parent: until something else does, a power cut may take the directory
 and every record in it, the durable ones included.
 */
module ProtocolHome {
  import opened Wrappers
  import opened DurableStore
  import opened Records
  import opened Protocol
  import opened ProtocolSafety
  import opened ProtocolSteps
  import opened ProtocolTheorems
  import opened ProtocolGate
  import opened ProtocolReopen
  import L = Ledger

  /** The directory's entry in its parent: not there, made and not fsynced, or there for good. */
  datatype Entry = Missing | Fresh | Lasting

  datatype Home = Home(world: World, entry: Entry)

  datatype HomeEvent =
    | EnsureDir
    | ParentFsync      // by anybody: the source never does
    | Inside(e: Event)
    | LoseDirectory    // a power cut, and the entry does not come back

  const NO_HOME := Home(Start(), Missing)

  /** Nothing is left of the run but what was sent. */
  function LoseAll(w: World): World {
    w.(store := Empty(), holder := None, pruned := true)
  }

  ghost function HomeApply(h: Home, e: HomeEvent): Option<Home> {
    match e
    case EnsureDir => Some(h.(entry := if h.entry.Missing? then Fresh else h.entry))
    case ParentFsync => if h.entry.Fresh? then Some(h.(entry := Lasting)) else None
    case LoseDirectory => if h.entry.Fresh? then Some(Home(LoseAll(h.world), Missing)) else None
    case Inside(e) =>
      if h.entry.Missing? && e.Create? then None
      else
        match Apply(h.world, e)
        case None => None
        case Some(w) => Some(Home(w, if e.PowerCut? && h.entry.Fresh? then Lasting else h.entry))
  }

  ghost function HomePlay(h: Home, events: seq<HomeEvent>): Option<Home>
    decreases |events|
  {
    if events == [] then Some(h)
    else
      match HomeApply(h, events[0])
      case None => None
      case Some(h') => HomePlay(h', events[1..])
  }

  /** Every version of the record a power cut may leave, none among them while the directory may go. */
  function Recoverable(h: Home): set<Option<Run>> {
    h.world.store.recoverable + if h.entry.Fresh? then {None} else {}
  }

  // ---------- The invariant still holds ----------

  ghost predicate HomeWell(h: Home) {
    Inv(h.world) && (h.entry.Missing? ==> h.world.store == Empty() && h.world.holder.None?)
  }

  lemma LossKeeps(w: World)
    requires Inv(w)
    ensures Inv(LoseAll(w))
  {
    NarrowKeeps(w, Empty(), true);
    SameRecorded(w.(store := Empty(), pruned := true), LoseAll(w));
  }

  lemma MissingStays(w: World, e: Event)
    requires w.store == Empty() && w.holder.None? && !e.Create? && Apply(w, e).Some?
    ensures Apply(w, e).value.store == Empty() && Apply(w, e).value.holder.None?
  {
    hide ApplyHeld;
  }

  lemma HomeApplyKeeps(h: Home, e: HomeEvent)
    requires HomeWell(h) && HomeApply(h, e).Some?
    ensures HomeWell(HomeApply(h, e).value)
  {
    hide Apply, Inv;
    match e
    case EnsureDir =>
    case ParentFsync =>
    case LoseDirectory => LossKeeps(h.world);
    case Inside(e) =>
      ApplyKeeps(h.world, e);
      if h.entry.Missing? {
        MissingStays(h.world, e);
      }
  }

  lemma {:induction false} HomePlayKeeps(h: Home, events: seq<HomeEvent>)
    requires HomeWell(h) && HomePlay(h, events).Some?
    ensures HomeWell(HomePlay(h, events).value)
    decreases |events|
  {
    hide HomeApply, HomeWell;
    if events != [] {
      HomeApplyKeeps(h, events[0]);
      HomePlayKeeps(HomeApply(h, events[0]).value, events[1..]);
    }
  }

  // ---------- Write-ahead, exactly ----------

  /**
   When a request leaves, everything a power cut could leave names it as sent
   exactly when the runs directory's own entry is there for good.
   */
  lemma WriteAheadIff(events: seq<HomeEvent>, h: Home, w': World)
    requires HomePlay(NO_HOME, events) == Some(h) && Apply(h.world, Send) == Some(w')
    ensures |w'.wire| == |h.world.wire| + 1
    ensures (forall v :: v in Recoverable(h) ==> v.Some? && Holds(v.value, w'.wire[|h.world.wire|])) <==>
      h.entry.Lasting?
  {
    HomePlayKeeps(NO_HOME, events);
    SendIsDurable(h.world, w');
    assert h.entry.Fresh? ==> None in Recoverable(h);
  }

  lemma SendIsDurable(w: World, w': World)
    requires Inv(w) && Apply(w, Send) == Some(w')
    ensures w.holder.Some? && |w'.wire| == |w.wire| + 1
    ensures forall v :: v in w.store.recoverable ==> v.Some? && Holds(v.value, w'.wire[|w.wire|])
  {
    SentIsWell(w, w.holder.value);
  }

  /** Once it is, the directory is never lost: what follows is an ordinary history. */
  lemma {:induction false} LastingIsOrdinary(h: Home, events: seq<HomeEvent>, h': Home) returns (plain: seq<Event>)
    requires h.entry.Lasting? && HomePlay(h, events) == Some(h')
    ensures h'.entry.Lasting? && Play(h.world, plain) == Some(h'.world)
    decreases |events|
  {
    hide Apply;
    if events == [] {
      plain := [];
    } else {
      var h1 := HomeApply(h, events[0]).value;
      var rest := LastingIsOrdinary(h1, events[1..], h');
      if events[0].Inside? {
        plain := [events[0].e] + rest;
        assert plain[1..] == rest;
      } else {
        plain := rest;
      }
    }
  }

  /**
   A request that left once the directory was there for good is named as sent by
   everything that can ever be recovered, until a prune of the settled run.
   */
  lemma LastingHolds(before: seq<HomeEvent>, h: Home, q: Sent, after: seq<HomeEvent>, h': Home)
    returns (plain: seq<Event>)
    requires HomePlay(NO_HOME, before) == Some(h) && h.entry.Lasting? && q in h.world.wire && !h.world.pruned
    requires HomePlay(h, after) == Some(h')
    ensures Play(h.world, plain) == Some(h'.world)
    ensures forall v :: v in Recoverable(h') ==>
      if v.Some? then Holds(v.value, q)
      else exists k :: 0 <= k < |plain| && PrunedAt(h.world, plain, k)
  {
    plain := LastingIsOrdinary(h, after, h');
    HomePlayKeeps(NO_HOME, before);
    PlayKeeps(h.world, plain);
    WireGrows(h.world, plain, q);
    WellHolds(h'.world, q);
    if h'.world.pruned {
      PrunedBySettling(h.world, plain);
    }
  }

  // ---------- The first run in a new home ----------

  ghost predicate ReachableHome(h: Home) {
    exists events: seq<HomeEvent> :: HomePlay(NO_HOME, events) == Some(h)
  }

  lemma {:induction false} HomePlaySnoc(h: Home, events: seq<HomeEvent>, e: HomeEvent)
    requires HomePlay(h, events).Some?
    ensures HomePlay(h, events + [e]) == HomeApply(HomePlay(h, events).value, e)
    decreases |events|
  {
    hide HomeApply;
    if events == [] {
      assert events + [e] == [e] && [e][1..] == [];
    } else {
      assert (events + [e])[1..] == events[1..] + [e];
      HomePlaySnoc(HomeApply(h, events[0]).value, events[1..], e);
    }
  }

  lemma NextHome(h: Home, e: HomeEvent, h': Home)
    requires ReachableHome(h) && HomeApply(h, e) == Some(h')
    ensures ReachableHome(h')
  {
    hide HomeApply;
    var events: seq<HomeEvent> :| HomePlay(NO_HOME, events) == Some(h);
    HomePlaySnoc(NO_HOME, events, e);
  }

  lemma NextInside(h: Home, e: Event, w: World)
    requires ReachableHome(h) && h.entry.Fresh? && !e.PowerCut? && Apply(h.world, e) == Some(w)
    ensures ReachableHome(Home(w, Fresh))
  {
    hide Apply;
    NextHome(h, Inside(e), Home(w, Fresh));
  }

  /** A home in which a run has just been created, the directory not yet fsynced. */
  lemma FirstCreated(id: string) returns (w: World, inv: Invocation)
    requires |id| <= 240 && forall i :: 0 <= i < |id| ==> ' ' <= id[i] <= '~'
    ensures ReachableHome(Home(w, Fresh)) && w.holder == Some(inv) && inv.pc == Ready(Simulate, Some(BODY))
    ensures var next := L.BeginRun(inv.mem, Simulate, Some(BODY));
      next.Success? && next.value.Find(Simulate).Some? && next.value.Find(Simulate).value.body.Some?
  {
    var r;
    r, w, inv := BroadcastCreated(id);
    FreshBegins(inv.mem, Some(BODY));
    assert HomePlay(NO_HOME, []) == Some(NO_HOME);
    NextHome(NO_HOME, EnsureDir, Home(Start(), Fresh));
    NextInside(Home(Start(), Fresh), Event.Create(CreateBroadcast, WITH_YES, r, Saved), w);
  }

  lemma BegunHome(w: World, inv: Invocation, w1: World)
    requires ReachableHome(Home(w, Fresh)) && w.holder == Some(inv) && OnBegin(w, inv, Saved) == Some(w1)
    ensures ReachableHome(Home(w1, Fresh))
  {
    hide OnBegin;
    NextInside(Home(w, Fresh), Begin(Saved), w1);
  }

  lemma MarkedHome(w: World, inv: Invocation) returns (w1: World, inv1: Invocation)
    requires ReachableHome(Home(w, Fresh)) && w.holder == Some(inv) && inv.pc.Begun?
    ensures inv1 == inv.(flag := true, pc := Sending(inv.pc.step, 0)) && w1 == Hold(w, inv1)
    ensures ReachableHome(Home(w1, Fresh))
  {
    inv1 := inv.(flag := true, pc := Sending(inv.pc.step, 0));
    w1 := Hold(w, inv1);
    NextInside(Home(w, Fresh), Mark, w1);
  }

  lemma SentHome(w: World, inv: Invocation) returns (w1: World)
    requires ReachableHome(Home(w, Fresh)) && w.holder == Some(inv) && inv.pc.Sending?
    requires inv.mem.Find(inv.pc.step).Some? && inv.mem.Find(inv.pc.step).value.body.Some?
    ensures w1.wire != [] && ReachableHome(Home(w1, Fresh))
  {
    w1 := OnSend(w, inv).value;
    NextInside(Home(w, Fresh), Send, w1);
  }

  lemma Lost(w: World) returns (h': Home)
    ensures HomeApply(Home(w, Fresh), LoseDirectory) == Some(h')
    ensures h'.world.wire == w.wire && Recoverable(h') == {None}
  {
    h' := Home(LoseAll(w), Missing);
  }

  /**
   The first run in a new home: its record is written and fsynced before its request
   leaves, and a power cut then takes the directory. The request is out, and
   nothing that is left names it, though nothing was ever pruned.
   */
  lemma FirstRunCanBeLost(id: string) returns (h: Home, h': Home)
    requires |id| <= 240 && forall i :: 0 <= i < |id| ==> ' ' <= id[i] <= '~'
    ensures ReachableHome(h) && HomeApply(h, LoseDirectory) == Some(h')
    ensures h'.world.wire == h.world.wire != [] && Recoverable(h') == {None}
  {
    var w, inv := FirstCreated(id);
    hide HomeApply, Recoverable;
    var w1, inv1 := BeginSaved(w, inv, L.BeginRun(inv.mem, Simulate, Some(BODY)).value);
    BegunHome(w, inv, w1);
    var w2, inv2 := MarkedHome(w1, inv1);
    var w3 := SentHome(w2, inv2);
    h := Home(w3, Fresh);
    h' := Lost(w3);
  }

  // ---------- A loss reopens nothing ----------

  /** What was final stays final: a lost directory takes refusals with it, and the run they refused. */
  lemma {:induction false} ShutThroughLoss(h: Home, events: seq<HomeEvent>)
    requires HomeWell(h) && Shut(h.world) && HomePlay(h, events).Some?
    ensures Shut(HomePlay(h, events).value.world)
    decreases |events|
  {
    hide Apply, Inv;
    if events != [] {
      HomeApplyKeeps(h, events[0]);
      if events[0].Inside? {
        ApplyShut(h.world, events[0].e);
      }
      ShutThroughLoss(HomeApply(h, events[0]).value, events[1..]);
    }
  }
}
