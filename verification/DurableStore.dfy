/**
 What a durable file is to everything above the filesystem: the version
 processes read now, and every version a power cut may bring back.

 `Fsx.WriteFileAtomic` refines `Save`; the ledger, the lock system and the
 protocol are all stated over this type.
 */
module DurableStore {
  import opened Wrappers

  /** The three ways an atomic write can end. */
  datatype SaveOutcome =
    | Saved            // renamed and the directory fsynced: no error
    | NotWritten       // failed at or before the rename: an error, nothing changed
    | WrittenNotSynced // only the directory fsync failed: an error, and the new bytes are there

  datatype Store<!R(==)> = Store(current: Option<R>, recoverable: set<Option<R>>) {

    ghost predicate Valid() {
      current in recoverable
    }

    /** Every version a power cut may bring back is this one. */
    ghost predicate Durable(r: R) {
      current == Some(r) && recoverable == {Some(r)}
    }

    function Save(r: R, o: SaveOutcome): Store<R> {
      match o
      case Saved => Store(Some(r), {Some(r)})
      case NotWritten => this
      case WrittenNotSynced => Store(Some(r), recoverable + {Some(r)})
    }

    /** An unlink whose directory is not fsynced. */
    function Unlinked(): Store<R> {
      Store(None, recoverable + {None})
    }

    /** Another write in the directory fsynced it. */
    function Settled(): Store<R> {
      Store(current, {current})
    }

    function PowerCut(back: Option<R>): Store<R> {
      Store(back, {back})
    }
  }

  function Empty<R(==)>(): Store<R> {
    Store(None, {None})
  }
}
