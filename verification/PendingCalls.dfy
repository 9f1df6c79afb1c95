/**
 * Tool calls that are gathered while a stream runs: looked up under the provider's index, and shown later by their
 * place in the output.
 */
module PendingCalls {

  datatype Pending = Pending(key: nat, place: nat, id: string, name: string, args: string)

  function FindKey(calls: seq<Pending>, key: nat): (i: nat)
    ensures i <= |calls| && (i < |calls| ==> calls[i].key == key) && forall j :: 0 <= j < i ==> calls[j].key != key
  {
    if calls == [] || calls[0].key == key then 0 else 1 + FindKey(calls[1..], key)
  }

  function InsertByPlace(c: Pending, sorted: seq<Pending>): seq<Pending> {
    if sorted == [] || c.place < sorted[0].place then [c] + sorted else [sorted[0]] + InsertByPlace(c, sorted[1..])
  }

  function SortByPlace(calls: seq<Pending>): seq<Pending> {
    if calls == [] then [] else InsertByPlace(calls[|calls| - 1], SortByPlace(calls[..|calls| - 1]))
  }

  ghost predicate HasPlace(calls: seq<Pending>, k: nat) {
    exists i :: 0 <= i < |calls| && calls[i].place == k
  }

  ghost predicate Rising(calls: seq<Pending>) {
    forall i, j :: 0 <= i < j < |calls| ==> calls[i].place < calls[j].place
  }

  lemma {:induction false} InsertLast(c: Pending, sorted: seq<Pending>)
    requires forall i :: 0 <= i < |sorted| ==> sorted[i].place < c.place
    ensures InsertByPlace(c, sorted) == sorted + [c]
  {
    if sorted != [] {
      InsertLast(c, sorted[1..]);
      assert [sorted[0]] + (sorted[1..] + [c]) == sorted + [c];
    }
  }

  /** Calls that were given rising places are in order already, so sorting them changes nothing. */
  lemma {:induction false} AlreadySorted(calls: seq<Pending>)
    requires Rising(calls)
    ensures SortByPlace(calls) == calls
    decreases |calls|
  {
    if calls != [] {
      var front := calls[..|calls| - 1];
      AlreadySorted(front);
      InsertLast(calls[|calls| - 1], front);
      assert front + [calls[|calls| - 1]] == calls;
    }
  }

  lemma LastPlaceIsNew(calls: seq<Pending>)
    requires calls != [] && Rising(calls)
    ensures !HasPlace(calls[..|calls| - 1], calls[|calls| - 1].place)
  {
  }

  lemma OneMorePlace(calls: seq<Pending>)
    requires calls != []
    ensures forall k :: HasPlace(calls, k) <==> HasPlace(calls[..|calls| - 1], k) || k == calls[|calls| - 1].place
  {
    var front := calls[..|calls| - 1];
    forall k | HasPlace(front, k) ensures HasPlace(calls, k) {
      var i :| 0 <= i < |front| && front[i].place == k;
      assert calls[i].place == k;
    }
    assert calls[|calls| - 1].place == calls[|calls| - 1].place;
  }
}
