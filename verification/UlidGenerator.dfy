/**
 The generator of run identifiers (internal/ulid/ulid.go, Generator).

 `Mint` is one call as a function of the generator's memory; `Generator.New`
 is the source's method over its fields and its in-place carry loop, proved to
 be that function. The clock and the entropy are parameters: a call is told
 what the clock says and how many bytes the reader delivered before it stopped.
 */
module UlidGenerator {
  import opened Wrappers
  import opened Ulid

  const ENTROPY: nat := 10

  datatype MintError = EntropyFailed | EntropyExhausted

  datatype Memory = Memory(lastMS: nat, lastRand: seq<bv8>, seeded: bool) {
    ghost predicate Valid() {
      lastMS < TWO_64 && |lastRand| == ENTROPY
    }

    /** The number the memory stands at. */
    function High(): nat {
      Number(lastMS, lastRand)
    }
  }

  /** A Go `uint64(int64)` conversion. */
  function Unsigned(ms: int): nat {
    ms % TWO_64
  }

  /** The carry: one more, wrapping to zero. */
  function Incremented(b: seq<bv8>): (r: seq<bv8>)
    ensures |r| == |b|
  {
    if b == [] then []
    else if b[|b| - 1] == 255 then Incremented(b[..|b| - 1]) + [0]
    else b[..|b| - 1] + [b[|b| - 1] + 1]
  }

  predicate Exhausted(b: seq<bv8>) {
    forall i :: 0 <= i < |b| ==> b[i] == 255
  }

  function Refilled(old_: seq<bv8>, drawn: seq<bv8>): (r: seq<bv8>)
    requires |drawn| <= |old_|
    ensures |r| == |old_|
  {
    drawn + old_[|drawn|..]
  }

  /** One call. `drawn` is what the entropy reader delivered; short means it failed. */
  function Mint(g: Memory, now: int, drawn: seq<bv8>): (r: (Memory, Result<nat, MintError>))
    requires g.Valid() && |drawn| <= ENTROPY
    ensures r.0.Valid()
  {
    var ms := Unsigned(now);
    if !g.seeded || ms > g.lastMS then
      var rand := Refilled(g.lastRand, drawn);
      if |drawn| < ENTROPY then (g.(lastRand := rand), Failure(EntropyFailed))
      else (Memory(ms, rand, true), Success(Number(ms % TWO_48, rand)))
    else
      var rand := Incremented(g.lastRand);
      if Exhausted(g.lastRand) then (g.(lastRand := rand), Failure(EntropyExhausted))
      else (g.(lastRand := rand), Success(Number(g.lastMS % TWO_48, rand)))
  }

  /** At a new millisecond a full draw is the id's entropy, and is remembered with the clock. */
  lemma FullDrawIsTheId(g: Memory, now: int, drawn: seq<bv8>)
    requires g.Valid() && |drawn| == ENTROPY && (!g.seeded || now % TWO_64 > g.lastMS)
    ensures Mint(g, now, drawn) == (Memory(now % TWO_64, drawn, true), Success(Number(now % TWO_48, drawn)))
  {
    assert drawn + g.lastRand[|drawn|..] == drawn;
    assert now % TWO_64 % TWO_48 == now % TWO_48;
  }

  /** So two new milliseconds mint one id exactly when the clocks and the draws agree. */
  lemma SameIdIff(g: Memory, now: int, drawn: seq<bv8>, g': Memory, now': int, drawn': seq<bv8>)
    requires g.Valid() && |drawn| == ENTROPY && (!g.seeded || now % TWO_64 > g.lastMS)
    requires g'.Valid() && |drawn'| == ENTROPY && (!g'.seeded || now' % TWO_64 > g'.lastMS)
    ensures Mint(g, now, drawn).1.Success? && Mint(g', now', drawn').1.Success?
    ensures Text(Mint(g, now, drawn).1.value) == Text(Mint(g', now', drawn').1.value) <==>
      now % TWO_48 == now' % TWO_48 && drawn == drawn'
  {
    FullDrawIsTheId(g, now, drawn);
    FullDrawIsTheId(g', now', drawn');
    EncodingIsAnOrderEmbedding(now % TWO_48, drawn, now' % TWO_48, drawn');
  }

  /** A short draw fails, and leaves what it delivered in front of what was there, under the old clock. */
  lemma ShortDrawIsKept(g: Memory, now: int, drawn: seq<bv8>)
    requires g.Valid() && |drawn| < ENTROPY && (!g.seeded || now % TWO_64 > g.lastMS)
    ensures Mint(g, now, drawn).1 == Failure(EntropyFailed)
    ensures var g' := Mint(g, now, drawn).0;
      && g'.lastMS == g.lastMS && g'.seeded == g.seeded
      && g'.lastRand[..|drawn|] == drawn && g'.lastRand[|drawn|..] == g.lastRand[|drawn|..]
  {
  }

  /** A stalled clock, or one that goes back, mints the next number after the last. */
  lemma StalledIsTheSuccessor(g: Memory, now: int, drawn: seq<bv8>)
    requires g.Valid() && |drawn| <= ENTROPY && g.seeded && now % TWO_64 <= g.lastMS < TWO_48
    ensures Exhausted(g.lastRand) ==> Mint(g, now, drawn).1 == Failure(EntropyExhausted)
    ensures !Exhausted(g.lastRand) ==>
      && Mint(g, now, drawn).1 == Success(g.High() + 1)
      && Mint(g, now, drawn).0.High() == g.High() + 1
      && Mint(g, now, drawn).0.lastMS == g.lastMS && Mint(g, now, drawn).0.seeded
  {
    IncrementedAddsOne(g.lastRand);
  }

  /** The carry adds one, or wraps to zero exactly when every byte is 255. */
  lemma {:induction false} IncrementedAddsOne(b: seq<bv8>)
    ensures !Exhausted(b) ==> Number256(Incremented(b)) == Number256(b) + 1
    ensures Exhausted(b) ==> Number256(Incremented(b)) == 0 && Number256(b) + 1 == Power256(|b|)
  {
    if b != [] {
      var front, last := b[..|b| - 1], b[|b| - 1];
      IncrementedAddsOne(front);
      assert b == front + [last];
      var r := Incremented(b);
      assert r[..|r| - 1] == if last == 255 then Incremented(front) else front;
      if last != 255 {
        SuccessorByte(last);
      }
    }
  }

  lemma SuccessorByte(b: bv8)
    requires b != 255
    ensures (b + 1) as nat == b as nat + 1
  {
  }

  class Generator {
    var lastMS: nat
    const lastRand: array<bv8>
    var seeded: bool

    ghost predicate Valid()
      reads this
    {
      lastMS < TWO_64 && lastRand.Length == ENTROPY
    }

    ghost function Model(): (g: Memory)
      requires Valid()
      reads this, lastRand
      ensures g.Valid()
    {
      Memory(lastMS, lastRand[..], seeded)
    }

    constructor ()
      ensures Valid() && !seeded && fresh(lastRand)
    {
      lastMS, seeded := 0, false;
      lastRand := new bv8[ENTROPY];
    }

    /** Mints the next id. */
    method New(now: int, drawn: seq<bv8>) returns (r: Result<string, MintError>)
      requires Valid() && |drawn| <= ENTROPY
      modifies this, lastRand
      ensures Valid()
      ensures Model() == Mint(old(Model()), now, drawn).0
      ensures match Mint(old(Model()), now, drawn).1
        case Success(n) => r == Success(Text(n))
        case Failure(e) => r == Failure(e)
    {
      var ms := Unsigned(now);
      if !seeded || ms > lastMS {
        ReadFull(lastRand, drawn);
        if |drawn| < ENTROPY {
          return Failure(EntropyFailed);
        }
        lastMS := ms;
        seeded := true;
      } else {
        var ok := Increment(lastRand);
        if !ok {
          return Failure(EntropyExhausted);
        }
      }
      var id := Encode(lastMS, lastRand[..]);
      r := Success(id);
    }
  }

  /** The reader fills the buffer from the front and may stop early. */
  method ReadFull(buffer: array<bv8>, drawn: seq<bv8>)
    requires |drawn| <= buffer.Length
    modifies buffer
    ensures buffer[..] == Refilled(old(buffer[..]), drawn)
  {
    forall i | 0 <= i < |drawn| {
      buffer[i] := drawn[i];
    }
  }

  /** The in-place carry loop. */
  method Increment(b: array<bv8>) returns (ok: bool)
    modifies b
    ensures b[..] == Incremented(old(b[..]))
    ensures ok == !Exhausted(old(b[..]))
  {
    ghost var before := b[..];
    assert before[..b.Length] == before;
    var i := b.Length - 1;
    while i >= 0
      invariant -1 <= i < b.Length
      invariant b[..i + 1] == before[..i + 1]
      invariant forall j :: i < j < b.Length ==> before[j] == 255
      invariant Incremented(before) == Incremented(before[..i + 1]) + b[i + 1..]
    {
      ghost var front := before[..i + 1];
      assert front[..i] == before[..i];
      b[i] := b[i] + 1;
      if b[i] != 0 {
        assert Incremented(front) == front[..i] + [b[i]];
        assert b[..] == Incremented(front) + b[i + 1..];
        assert before[i] != 255;
        return true;
      }
      assert before[i] == 255;
      i := i - 1;
    }
    return false;
  }

  // ---------- Runs of calls ----------

  datatype Call = Call(now: int, drawn: seq<bv8>) {
    /** A clock within the 48 bits an id can hold; it may stall or go backwards. */
    ghost predicate InRange() {
      0 <= now < TWO_48 && |drawn| <= ENTROPY
    }
  }

  ghost predicate AllInRange(calls: seq<Call>) {
    forall i :: 0 <= i < |calls| ==> calls[i].InRange()
  }

  /** The ids returned before the first error. */
  ghost function Issued(g: Memory, calls: seq<Call>): seq<nat>
    requires g.Valid() && AllInRange(calls)
    decreases calls
  {
    if calls == [] then []
    else
      var (g', r) := Mint(g, calls[0].now, calls[0].drawn);
      match r
      case Success(n) => [n] + Issued(g', calls[1..])
      case Failure(_) => []
  }

  /** Ids that increase strictly from above `floor`. */
  ghost predicate Rising(ids: seq<nat>, floor: int) {
    && (forall i :: 0 <= i < |ids| ==> floor < ids[i] < TWO_128)
    && (forall i, j :: 0 <= i < j < |ids| ==> ids[i] < ids[j])
  }

  /** Every id of a run is above the memory it started from, and above every earlier id. */
  lemma {:induction false} IssuedIncreases(g: Memory, calls: seq<Call>)
    requires g.Valid() && (g.seeded ==> g.lastMS < TWO_48)
    requires AllInRange(calls)
    ensures Rising(Issued(g, calls), if g.seeded then g.High() else -1)
    decreases calls
  {
    if calls != [] {
      var (g', r) := Mint(g, calls[0].now, calls[0].drawn);
      if r.Success? {
        MintIncreases(g, calls[0]);
        IssuedIncreases(g', calls[1..]);
        RisingCons(r.value, Issued(g', calls[1..]), if g.seeded then g.High() else -1);
      }
    }
  }

  lemma RisingCons(first: nat, rest: seq<nat>, floor: int)
    requires floor < first < TWO_128 && Rising(rest, first)
    ensures Rising([first] + rest, floor)
  {
  }

  lemma MintIncreases(g: Memory, c: Call)
    requires g.Valid() && (g.seeded ==> g.lastMS < TWO_48) && c.InRange()
    requires Mint(g, c.now, c.drawn).1.Success?
    ensures var (g', r) := Mint(g, c.now, c.drawn);
      && g'.seeded && g'.lastMS < TWO_48 && r.value == g'.High() < TWO_128
      && (g.seeded ==> g.High() < g'.High())
  {
    var (g', r) := Mint(g, c.now, c.drawn);
    EntropyBound10(g.lastRand);
    EntropyBound10(g'.lastRand);
    IncrementedAddsOne(g.lastRand);
  }

  /** The ids of one generator increase strictly as strings until its first error. */
  lemma GeneratorMonotone(g: Memory, calls: seq<Call>, i: nat, j: nat)
    requires g.Valid() && !g.seeded
    requires AllInRange(calls)
    requires i < j < |Issued(g, calls)|
    ensures CharBefore(Text(Issued(g, calls)[i]), Text(Issued(g, calls)[j]))
    ensures Text(Issued(g, calls)[i]) != Text(Issued(g, calls)[j])
  {
    IssuedIncreases(g, calls);
    OrderEmbedding(Issued(g, calls)[i], Issued(g, calls)[j]);
  }

  // ---------- What an error leaves behind ----------

  /**
   Whether the next id is above `last` whatever the clock and the reader do is
   decided by the memory alone: it must not stand below `last`.
   */
  lemma NextIsAboveIff(g: Memory, last: nat)
    requires g.Valid() && g.seeded && g.lastMS < TWO_48 && last / TWO_80 <= g.lastMS
    ensures g.High() >= last <==>
      forall c: Call :: c.InRange() && Mint(g, c.now, c.drawn).1.Success? ==> Mint(g, c.now, c.drawn).1.value > last
  {
    EntropyBound10(g.lastRand);
    IncrementedAddsOne(g.lastRand);
    assert Power256(4) == 0x1_0000_0000 && Power256(8) == TWO_64 && Power256(10) == TWO_80;
    assert Exhausted(g.lastRand) ==> g.High() >= last;
    forall c: Call | c.InRange() && Mint(g, c.now, c.drawn).1.Success? && g.High() >= last
      ensures Mint(g, c.now, c.drawn).1.value > last
    {
      MintIncreases(g, c);
    }
    if g.High() < last {
      var stalled := Call(0, []);
      assert stalled.InRange() && Mint(g, stalled.now, stalled.drawn).1.value == g.High() + 1;
    }
  }

  /** Exhaustion is reported after the wrap, so the memory it leaves is below the last id. */
  lemma ExhaustionLosesOrder(g: Memory, c: Call)
    requires g.Valid() && |c.drawn| <= ENTROPY
    requires Mint(g, c.now, c.drawn).1 == Failure(EntropyExhausted)
    ensures Mint(g, c.now, c.drawn).0.High() < g.High()
  {
    IncrementedAddsOne(g.lastRand);
    assert Power256(4) == 0x1_0000_0000 && Power256(8) == TWO_64 && Power256(10) == TWO_80;
  }

  /** A reader that fails part-way overwrites the memory without moving the timestamp. */
  lemma ShortReadCanLoseOrder()
    ensures var g := Memory(5, [9, 0, 0, 0, 0, 0, 0, 0, 0, 0], true);
      var (g', r) := Mint(g, 6, [1]);
      && r == Failure(EntropyFailed)
      && Mint(g', 5, []).1.Success? && Mint(g', 5, []).1.value < g.High()
  {
    var low, high := [1, 0, 0, 0, 0, 0, 0, 0, 0, 0], [9, 0, 0, 0, 0, 0, 0, 0, 0, 0];
    assert Refilled(high, [1]) == low;
    assert low[9] != 255;
    IncrementedAddsOne(low);
    TenByteValue(low);
    TenByteValue(high);
  }

  lemma TenByteValue(b: seq<bv8>)
    requires |b| == ENTROPY && forall i :: 1 <= i < ENTROPY ==> b[i] == 0
    ensures Number256(b) == b[0] as nat * 0x100_0000_0000_0000_0000
  {
    assert b == b[..5] + b[5..] && [] + b[..5] == b[..5];
    Append5([], b[..5]);
    Append5(b[..5], b[5..]);
  }

  /**
   The encoding keeps only the low 48 bits of the clock: two clocks encode alike
   exactly when they differ by a multiple of 2^48, so past them order is lost.
   */
  lemma ClockPast48BitsWraps(g: Memory, now: int, now': int, e: seq<bv8>)
    requires g.Valid() && !g.seeded && |e| == ENTROPY && 0 <= now < TWO_64 && 0 <= now' < TWO_64
    ensures Mint(g, now, e).1.Success? && Mint(g, now', e).1.Success?
    ensures Mint(g, now, e).1.value == Mint(g, now', e).1.value <==> now % TWO_48 == now' % TWO_48
  {
    assert Refilled(g.lastRand, e) == e;
    SamePrefix(now % TWO_48, now' % TWO_48, e);
  }

  lemma SamePrefix(ms: nat, ms': nat, e: seq<bv8>)
    ensures Number(ms, e) == Number(ms', e) <==> ms == ms'
  {
  }
}
