/**
 The one assumption about FERRY: whatever arrives, in whatever order and however
 often, it runs the first request under a key and replays that answer to the rest.
 */
module IdempotentServer {

  datatype Request<T> = Request(key: string, content: T)

  /** What the server runs, in order. */
  function Ran<T>(arrived: seq<Request<T>>): seq<Request<T>> {
    if arrived == [] then []
    else
      var ran := Ran(arrived[..|arrived| - 1]);
      var q := arrived[|arrived| - 1];
      if HasKey(ran, q.key) then ran else ran + [q]
  }

  predicate HasKey<T>(ran: seq<Request<T>>, key: string) {
    exists i :: 0 <= i < |ran| && ran[i].key == key
  }

  /** Nothing runs that did not arrive. */
  lemma {:induction false} RanArrived<T>(arrived: seq<Request<T>>, i: nat)
    requires i < |Ran(arrived)|
    ensures Ran(arrived)[i] in arrived
  {
    var before := arrived[..|arrived| - 1];
    if i < |Ran(before)| {
      RanArrived(before, i);
    }
  }

  /** No key runs twice. */
  lemma {:induction false} RanOnce<T>(arrived: seq<Request<T>>, i: nat, j: nat)
    requires i < j < |Ran(arrived)|
    ensures Ran(arrived)[i].key != Ran(arrived)[j].key
  {
    var before := arrived[..|arrived| - 1];
    if j < |Ran(before)| {
      RanOnce(before, i, j);
    } else {
      assert Ran(arrived)[i] == Ran(before)[i];
    }
  }

  /** Whatever arrives, its key has run. */
  lemma {:induction false} KeyRan<T>(arrived: seq<Request<T>>, i: nat)
    requires i < |arrived|
    ensures HasKey(Ran(arrived), arrived[i].key)
  {
    var n := |arrived| - 1;
    var before := arrived[..n];
    var ran := Ran(before);
    if i < n {
      KeyRan(before, i);
      assert before[i] == arrived[i];
      var k :| 0 <= k < |ran| && ran[k].key == arrived[i].key;
      assert Ran(arrived)[k] == ran[k];
    } else if !HasKey(ran, arrived[n].key) {
      assert Ran(arrived)[|ran|] == arrived[n];
    }
  }
}
