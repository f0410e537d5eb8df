/**
 The atomic write every durable change goes through (internal/fsx/fsx.go).

 The disk keeps the directory versions a power cut may bring back and, for each
 inode, whether its bytes were fsynced. An inode that was not may come back
 holding anything. Record encoding is an exact round trip, so a file's content
 is the value written, or nothing whole.
 */
module Fsx {
  import opened Wrappers
  import opened DurableStore

  type Name = string

  /** `data` is None while the bytes are not the whole of any value. */
  datatype Inode<T> = Inode(data: Option<T>, synced: bool)

  datatype Recovered<T> = Absent | Whole(value: T) | Torn

  datatype Disk<!T(==,!new)> = Disk(versions: seq<map<Name, nat>>, inodes: seq<Inode<T>>) {

    ghost predicate Valid() {
      && versions != []
      && forall k, n :: 0 <= k < |versions| && n in versions[k] ==> versions[k][n] < |inodes|
    }

    /** The directory as processes see it. */
    function Names(): map<Name, nat>
      requires versions != []
    {
      versions[|versions| - 1]
    }

    /** What directory version `k` has at `n`. */
    ghost function Entry(k: nat, n: Name): Option<Inode<T>>
      requires Valid() && k < |versions|
    {
      if n in versions[k] then Some(inodes[versions[k][n]]) else None
    }

    /** The inode at `n` now, and every inode a power cut may leave there. */
    ghost function ViewOf(n: Name): (v: Store<Inode<T>>)
      requires Valid()
      ensures v.Valid()
    {
      Store(Entry(|versions| - 1, n), Entries(n))
    }

    ghost function Entries(n: Name): (es: set<Option<Inode<T>>>)
      requires Valid()
      ensures forall k: nat :: k < |versions| ==> Entry(k, n) in es
      ensures forall e :: e in es ==> exists k: nat :: k < |versions| && e == Entry(k, n)
    {
      set k: nat | k < |versions| :: Entry(k, n)
    }

    /** A power cut now may leave `c` at `n`. */
    ghost predicate MayRecover(n: Name, c: Recovered<T>)
      requires Valid()
    {
      exists e :: e in ViewOf(n).recoverable && EntryRecovers(e, c)
    }

    /** Every version of `n` is whole and on the platter. */
    ghost predicate Clean(n: Name)
      requires Valid()
    {
      forall i :: Some(i) in ViewOf(n).recoverable ==> i.synced && i.data.Some?
    }

    /** The file as the layers above see it. */
    ghost function StoreOf(n: Name): Store<T>
      requires Valid()
    {
      var v := ViewOf(n);
      Store(DataOf(v.current), set e | e in v.recoverable :: DataOf(e))
    }
  }

  function DataOf<T>(e: Option<Inode<T>>): Option<T> {
    if e.Some? then e.value.data else None
  }

  /** A synced inode comes back as written; an unsynced one as anything. */
  ghost predicate EntryRecovers<T>(e: Option<Inode<T>>, c: Recovered<T>) {
    match e
    case None => c.Absent?
    case Some(i) =>
      if !i.synced then !c.Absent?
      else if i.data.Some? then c == Whole(i.data.value) else c.Torn?
  }

  function Content<T>(r: Option<T>): Recovered<T> {
    if r.Some? then Whole(r.value) else Absent
  }

  /** On a clean file a power cut gives back exactly the store's recoverable versions, never a mixture. */
  lemma CleanRecovers<T(!new)>(d: Disk<T>, n: Name, c: Recovered<T>)
    requires d.Valid() && d.Clean(n)
    ensures d.StoreOf(n).Valid()
    ensures d.MayRecover(n, c) <==> exists r :: r in d.StoreOf(n).recoverable && c == Content(r)
  {
    var v := d.ViewOf(n);
    if d.MayRecover(n, c) {
      var e :| e in v.recoverable && EntryRecovers(e, c);
      assert DataOf(e) in d.StoreOf(n).recoverable && c == Content(DataOf(e));
    }
    if r :| r in d.StoreOf(n).recoverable && c == Content(r) {
      var e :| e in v.recoverable && r == DataOf(e);
      assert e.Some? ==> Some(e.value) in v.recoverable;
      assert EntryRecovers(e, c);
    }
  }

  datatype FsError = CreateFailed | WriteFailed | SyncFailed | CloseFailed | RenameFailed | SyncDirFailed

  /** The operating system: each operation may fail, and a failed one changes nothing it promises to change. */
  class FileSystem<T(==,!new)> {
    var disk: Disk<T>
    /** Every disk a power cut could have struck, in order. */
    ghost var cuts: seq<Disk<T>>

    constructor ()
      ensures disk == Disk([map[]], []) && disk.Valid() && cuts == []
    {
      disk := Disk([map[]], []);
      cuts := [];
    }

    /** O_CREATE|O_EXCL. */
    method Create(n: Name) returns (ok: bool, ino: nat)
      requires disk.Valid()
      modifies this
      ensures disk.Valid() && cuts == old(cuts) + [disk]
      ensures !ok ==> disk == old(disk)
      ensures ok ==> ino < |disk.inodes| && Unreferenced(disk, ino, n) && n in disk.Names() && disk.Names()[n] == ino
      ensures KeepsViews(old(disk), disk, {n})
    {
      ok := *;
      ino := |disk.inodes|;
      if n in disk.Names() {
        ok := false;
      }
      if ok {
        disk := Disk(disk.versions + [disk.Names()[n := ino]], disk.inodes + [Inode(None, false)]);
        AppendKeepsViews(old(disk), disk, disk.Names(), n);
      }
      cuts := cuts + [disk];
    }

    /** A failed write leaves a part of the data. */
    method Write(ino: nat, data: T, ghost tmp: Name) returns (ok: bool)
      requires disk.Valid() && ino < |disk.inodes| && Unreferenced(disk, ino, tmp)
      modifies this
      ensures disk.Valid() && cuts == old(cuts) + [disk]
      ensures disk == Changed(old(disk), ino, Inode(if ok then Some(data) else None, false))
      ensures KeepsViews(old(disk), disk, {tmp})
    {
      ok := *;
      disk := Changed(disk, ino, Inode(if ok then Some(data) else None, false));
      ChangeKeepsViews(old(disk), disk, ino, disk.inodes[ino], tmp);
      cuts := cuts + [disk];
    }

    method Sync(ino: nat, ghost tmp: Name) returns (ok: bool)
      requires disk.Valid() && ino < |disk.inodes| && Unreferenced(disk, ino, tmp)
      modifies this
      ensures disk.Valid() && cuts == old(cuts) + [disk]
      ensures disk == Changed(old(disk), ino, Inode(old(disk).inodes[ino].data, ok || old(disk).inodes[ino].synced))
      ensures KeepsViews(old(disk), disk, {tmp})
    {
      ok := *;
      disk := Changed(disk, ino, Inode(disk.inodes[ino].data, ok || disk.inodes[ino].synced));
      ChangeKeepsViews(old(disk), disk, ino, disk.inodes[ino], tmp);
      cuts := cuts + [disk];
    }

    method Close() returns (ok: bool) {
      ok := *;
    }

    /** A rename is seen at once, and survives a power cut only once the directory is fsynced. */
    method Rename(from: Name, to: Name) returns (ok: bool)
      requires disk.Valid() && from in disk.Names() && from != to
      modifies this
      ensures disk.Valid() && cuts == old(cuts) + [disk]
      ensures !ok ==> disk == old(disk)
      ensures ok ==> KeepsViews(old(disk), disk, {from, to}) && from !in disk.Names()
      ensures ok ==> disk.ViewOf(to) == old(disk).ViewOf(to).Save(old(disk).inodes[old(disk).Names()[from]],
        WrittenNotSynced)
    {
      ok := *;
      if ok {
        disk := Disk(disk.versions + [(disk.Names() - {from})[to := disk.Names()[from]]], disk.inodes);
        RenameView(old(disk), disk, from, to, old(disk).Names()[from]);
      }
      cuts := cuts + [disk];
    }

    /** Fsync of the directory: what processes see is what survives. */
    method SyncDir() returns (ok: bool)
      requires disk.Valid()
      modifies this
      ensures disk.Valid() && cuts == old(cuts) + [disk]
      ensures !ok ==> disk == old(disk)
      ensures ok ==> forall n :: disk.ViewOf(n) == old(disk).ViewOf(n).Settled()
      ensures disk.Names() == old(disk).Names()
    {
      ok := *;
      if ok {
        disk := Disk([disk.Names()], disk.inodes);
        forall n
          ensures disk.ViewOf(n) == old(disk).ViewOf(n).Settled()
        {
          SettleView(old(disk), disk, n);
        }
      }
      cuts := cuts + [disk];
    }

    method Remove(n: Name) returns (ok: bool)
      requires disk.Valid()
      modifies this
      ensures disk.Valid() && cuts == old(cuts) + [disk]
      ensures !ok ==> disk == old(disk)
      ensures ok ==> n in old(disk).Names() && n !in disk.Names()
      ensures KeepsViews(old(disk), disk, {n})
      ensures ok ==> disk.ViewOf(n) == old(disk).ViewOf(n).Unlinked()
    {
      ok := *;
      if n !in disk.Names() {
        ok := false;
      }
      if ok {
        disk := Disk(disk.versions + [disk.Names() - {n}], disk.inodes);
        AppendKeepsViews(old(disk), disk, disk.Names(), n);
        AppendView(old(disk), disk, n);
      }
      cuts := cuts + [disk];
    }

    /** The temp file: created, written, fsynced and closed, or an error. */
    method WriteTemp(tmp: Name, data: T) returns (err: Option<FsError>, ino: nat)
      requires disk.Valid()
      modifies this
      ensures disk.Valid() && old(cuts) <= cuts
      ensures KeepsViews(old(disk), disk, {tmp})
      ensures AllKeepViews(old(disk), cuts[|old(cuts)|..], tmp)
      ensures err.Some? ==> !err.value.RenameFailed? && !err.value.SyncDirFailed?
      ensures err.None? ==>
        tmp in disk.Names() && disk.Names()[tmp] == ino && disk.inodes[ino] == Inode(Some(data), true)
    {
      var ok;
      ok, ino := Create(tmp);
      if !ok {
        return Some(CreateFailed), ino;
      }
      ok := Write(ino, data, tmp);
      if !ok {
        var _ := Close();
        return Some(WriteFailed), ino;
      }
      ok := Sync(ino, tmp);
      if !ok {
        var _ := Close();
        return Some(SyncFailed), ino;
      }
      ok := Close();
      err := if ok then None else Some(CloseFailed);
    }

    /** The rename and the directory fsync. */
    method Publish(tmp: Name, path: Name, ghost whole: Inode<T>)
      returns (err: Option<FsError>, ghost outcome: SaveOutcome)
      requires disk.Valid() && path != tmp && tmp in disk.Names() && disk.inodes[disk.Names()[tmp]] == whole
      modifies this
      ensures disk.Valid() && old(cuts) <= cuts
      ensures err.None? <==> outcome.Saved?
      ensures err == Some(SyncDirFailed) <==> outcome.WrittenNotSynced?
      ensures disk.ViewOf(path) == old(disk).ViewOf(path).Save(whole, outcome)
      ensures !outcome.NotWritten? ==> tmp !in disk.Names()
      ensures forall n :: n !in {path, tmp} ==> disk.ViewOf(n) == OtherView(old(disk).ViewOf(n), outcome)
      ensures forall k :: |old(cuts)| <= k < |cuts| ==>
        cuts[k].Valid() && Between(old(disk).ViewOf(path), cuts[k].ViewOf(path), whole)
    {
      ghost var was := disk.ViewOf(path);
      outcome := NotWritten;
      var ok := Rename(tmp, path);
      if !ok {
        return Some(RenameFailed), outcome;
      }
      outcome := WrittenNotSynced;
      assert disk.ViewOf(path) == was.Save(whole, WrittenNotSynced);
      ok := SyncDir();
      if !ok {
        return Some(SyncDirFailed), outcome;
      }
      outcome := Saved;
      assert disk.ViewOf(path) == was.Save(whole, Saved);
      err := None;
    }

    /**
     Write-temp, fsync, close, rename, fsync(dir). `outcome` names which of the
     three ways the write ended; the caller sees only the error.
     */
    method WriteFileAtomic(path: Name, tmp: Name, data: T) returns (err: Option<FsError>, ghost outcome: SaveOutcome)
      requires disk.Valid() && path != tmp
      modifies this
      ensures disk.Valid()
      ensures err.None? <==> outcome.Saved?
      ensures err == Some(SyncDirFailed) <==> outcome.WrittenNotSynced?
      // What the path may come back as, at the end and at every instant between.
      ensures disk.ViewOf(path) == old(disk).ViewOf(path).Save(Inode(Some(data), true), outcome)
      // A write that reached the path leaves no temporary file.
      ensures !outcome.NotWritten? ==> tmp !in disk.Names()
      ensures old(cuts) <= cuts
      ensures forall k :: |old(cuts)| <= k < |cuts| ==>
        cuts[k].Valid() && Between(old(disk).ViewOf(path), cuts[k].ViewOf(path), Inode(Some(data), true))
      // Every other file keeps its versions, or has them settled by the directory fsync.
      ensures forall n :: n !in {path, tmp} ==> disk.ViewOf(n) == OtherView(old(disk).ViewOf(n), outcome)
    {
      var ino;
      outcome := NotWritten;
      err, ino := WriteTemp(tmp, data);
      forall k | |old(cuts)| <= k < |cuts|
        ensures cuts[k].Valid() && cuts[k].ViewOf(path) == old(disk).ViewOf(path)
      {
        assert cuts[k] == cuts[|old(cuts)|..][k - |old(cuts)|];
      }
      if err.None? {
        err, outcome := Publish(tmp, path, Inode(Some(data), true));
      }
      if err.Some? && !err.value.CreateFailed? {
        var _ := Remove(tmp);
      }
    }
  }

  /** A write settles its neighbours exactly when it fsyncs the directory. */
  ghost function OtherView<T(!new)>(was: Store<Inode<T>>, o: SaveOutcome): Store<Inode<T>> {
    if o.Saved? then was.Settled() else was
  }

  ghost predicate AllKeepViews<T(!new)>(d: Disk<T>, struck: seq<Disk<T>>, tmp: Name) {
    forall k :: 0 <= k < |struck| ==> KeepsViews(d, struck[k], {tmp})
  }

  function Changed<T(==,!new)>(d: Disk<T>, ino: nat, i: Inode<T>): Disk<T>
    requires ino < |d.inodes|
  {
    Disk(d.versions, d.inodes[ino := i])
  }

  ghost predicate Between<T(!new)>(before: Store<T>, now: Store<T>, r: T) {
    now == before || now == before.Save(r, WrittenNotSynced) || now == before.Save(r, Saved)
  }

  ghost predicate KeepsViews<T(!new)>(d: Disk<T>, d': Disk<T>, except: set<Name>)
  {
    d.Valid() && d'.Valid() && forall n :: n !in except ==> d'.ViewOf(n) == d.ViewOf(n)
  }

  ghost predicate Unreferenced<T(!new)>(d: Disk<T>, ino: nat, except: Name) {
    d.Valid() && forall k, n :: 0 <= k < |d.versions| && n in d.versions[k] && n != except ==> d.versions[k][n] != ino
  }

  lemma OldEntries<T(!new)>(d: Disk<T>, d': Disk<T>, n: Name, k: nat)
    requires d.Valid() && d'.Valid() && k < |d.versions|
    requires |d'.versions| == |d.versions| + 1 && d'.versions[..|d.versions|] == d.versions
    requires d.inodes <= d'.inodes
    ensures d'.Entry(k, n) == d.Entry(k, n)
  {
    assert d'.versions[k] == d'.versions[..|d.versions|][k];
  }

  /** Appending a directory version adds one entry to each view. */
  lemma AppendView<T(!new)>(d: Disk<T>, d': Disk<T>, n: Name)
    requires d.Valid() && d'.Valid()
    requires |d'.versions| == |d.versions| + 1 && d'.versions[..|d.versions|] == d.versions
    requires d.inodes <= d'.inodes
    ensures var e := d'.Entry(|d.versions|, n);
      d'.ViewOf(n) == Store(e, d.ViewOf(n).recoverable + {e})
  {
    var es, es' := d.Entries(n), d'.Entries(n);
    var e := d'.Entry(|d.versions|, n);
    forall x | x in es'
      ensures x in es + {e}
    {
      var k: nat :| k < |d'.versions| && x == d'.Entry(k, n);
      if k < |d.versions| {
        OldEntries(d, d', n, k);
      }
    }
    forall x | x in es
      ensures x in es'
    {
      var k: nat :| k < |d.versions| && x == d.Entry(k, n);
      OldEntries(d, d', n, k);
    }
    assert es' == es + {e};
  }

  lemma AppendKeepsViews<T(!new)>(d: Disk<T>, d': Disk<T>, names: map<Name, nat>, tmp: Name)
    requires d.Valid() && d'.Valid()
    requires d.inodes <= d'.inodes && d'.versions == d.versions + [names]
    requires names - {tmp} == d.Names() - {tmp}
    ensures KeepsViews(d, d', {tmp})
  {
    forall n | n != tmp
      ensures d'.ViewOf(n) == d.ViewOf(n)
    {
      AppendView(d, d', n);
      assert n in names <==> n in names - {tmp};
      assert n in d.Names() <==> n in d.Names() - {tmp};
      if n in names {
        assert (names - {tmp})[n] == (d.Names() - {tmp})[n];
      }
      assert d'.Entry(|d.versions|, n) == d.Entry(|d.versions| - 1, n);
    }
  }

  lemma ChangeKeepsViews<T(!new)>(d: Disk<T>, d': Disk<T>, ino: nat, i: Inode<T>, tmp: Name)
    requires Unreferenced(d, ino, tmp) && ino < |d.inodes| && d' == Changed(d, ino, i)
    ensures KeepsViews(d, d', {tmp})
  {
    forall n | n != tmp
      ensures d'.ViewOf(n) == d.ViewOf(n)
    {
      assert forall k: nat :: k < |d.versions| ==> d'.Entry(k, n) == d.Entry(k, n);
      assert d'.Entries(n) == d.Entries(n);
    }
  }

  lemma RenameView<T(!new)>(d: Disk<T>, d': Disk<T>, tmp: Name, path: Name, ino: nat)
    requires d.Valid() && tmp in d.Names() && d.Names()[tmp] == ino && tmp != path
    requires d' == Disk(d.versions + [(d.Names() - {tmp})[path := ino]], d.inodes)
    ensures d'.Valid()
    ensures d'.ViewOf(path) == d.ViewOf(path).Save(d.inodes[ino], WrittenNotSynced)
    ensures KeepsViews(d, d', {tmp, path})
  {
    AppendView(d, d', path);
    forall n | n !in {tmp, path}
      ensures d'.ViewOf(n) == d.ViewOf(n)
    {
      AppendView(d, d', n);
      assert d'.Entry(|d.versions|, n) == d.Entry(|d.versions| - 1, n);
    }
  }

  lemma SettleView<T(!new)>(d: Disk<T>, d': Disk<T>, n: Name)
    requires d.Valid() && d' == Disk([d.Names()], d.inodes)
    ensures d'.Valid() && d'.ViewOf(n) == d.ViewOf(n).Settled()
  {
    var e := d.Entry(|d.versions| - 1, n);
    assert d'.Entry(0, n) == e;
    assert d'.Entries(n) == {e};
  }

  // ---------- What the write promises ----------

  /**
   A power cut at any instant of the write gives back what the path could have
   been before, or the new bytes whole; with the directory fsynced, only the new
   bytes; with the rename not done, exactly what it could have been before.
   */
  lemma CrashAtomicity<T(!new)>(before: Disk<T>, struck: Disk<T>, path: Name, data: T, o: SaveOutcome, c: Recovered<T>)
    requires before.Valid() && struck.Valid()
    requires struck.ViewOf(path) == before.ViewOf(path).Save(Inode(Some(data), true), o)
    ensures match o
      case Saved => struck.MayRecover(path, c) <==> c == Whole(data)
      case NotWritten => struck.MayRecover(path, c) <==> before.MayRecover(path, c)
      case WrittenNotSynced => struck.MayRecover(path, c) <==> before.MayRecover(path, c) || c == Whole(data)
  {
    var added := Some(Inode(Some(data), true));
    var was, now := before.ViewOf(path).recoverable, struck.ViewOf(path).recoverable;
    assert forall x :: EntryRecovers(added, x) <==> x == Whole(data);
    match o
    case NotWritten =>
    case Saved => assert now == {added};
    case WrittenNotSynced =>
      assert now == was + {added};
      if before.MayRecover(path, c) {
        var e :| e in was && EntryRecovers(e, c);
        assert e in now;
      }
      if c == Whole(data) {
        assert added in now;
      }
  }

  /** On a file only ever written this way, the write is a `Save` of the store above. */
  lemma WriteRefinesSave<T(!new)>(before: Disk<T>, after: Disk<T>, path: Name, data: T, o: SaveOutcome)
    requires before.Valid() && after.Valid() && before.Clean(path)
    requires after.ViewOf(path) == before.ViewOf(path).Save(Inode(Some(data), true), o)
    ensures after.Clean(path) && after.StoreOf(path) == before.StoreOf(path).Save(data, o)
  {
    var v, v' := before.ViewOf(path), after.ViewOf(path);
    var added := Some(Inode(Some(data), true));
    var rs, rs' := before.StoreOf(path).recoverable, after.StoreOf(path).recoverable;
    forall r
      ensures r in rs' <==> (exists e :: e in v'.recoverable && DataOf(e) == r)
      ensures r in rs <==> (exists e :: e in v.recoverable && DataOf(e) == r)
    {
    }
    if o.WrittenNotSynced? {
      forall r
        ensures r in rs' <==> r in rs + {Some(data)}
      {
        if r in rs {
          var e :| e in v.recoverable && DataOf(e) == r;
          assert e in v'.recoverable;
        }
        if r == Some(data) {
          assert added in v'.recoverable;
        }
      }
      assert rs' == rs + {Some(data)};
    } else if o.Saved? {
      assert added in v'.recoverable;
      assert rs' == {Some(data)};
    }
  }
}
