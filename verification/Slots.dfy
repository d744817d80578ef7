/** Call slots: what one proxied call carries, who completes it, and the list that lets shutdown
    reach whoever still waits. */
module Slots {

  const RET_SUCCESS: int := 0
  const RET_ERROR: int := -1

  /** The pending list is swept in full from this length on. */
  const PENDING_SWEEP_AT: nat := 256

  const SHUTTING_DOWN: string := "proxy shutting down"

  datatype Kind = User | Heartbeat | Sync | OpSync

  predicate IsSync(kind: Kind) {
    kind.Sync? || kind.OpSync?
  }

  datatype Slot = Slot(kind: Kind, done: bool, status: int, result: string)

  function NewSlot(kind: Kind): Slot {
    Slot(kind, false, -1, "")
  }

  /** The first writer decides a slot's outcome; later ones change nothing. */
  function Complete(slot: Slot, status: int, result: string): Slot {
    if slot.done then slot else slot.(done := true, status := status, result := result)
  }

  /** No slot has gone, and none that was done has changed. */
  ghost predicate DoneKept(before: map<nat, Slot>, after: map<nat, Slot>) {
    before.Keys <= after.Keys && forall id :: id in before && before[id].done ==> after[id] == before[id]
  }

  // ---------------------------------------------------------------------------
  // The pending list
  // ---------------------------------------------------------------------------

  ghost predicate Distinct(ids: seq<nat>) {
    forall i, j :: 0 <= i < j < |ids| ==> ids[i] != ids[j]
  }

  lemma DistinctSnoc(ids: seq<nat>, id: nat)
    requires Distinct(ids) && id !in ids
    ensures Distinct(ids + [id])
  {
  }

  function Elements(ids: seq<nat>): set<nat> {
    set id | id in ids
  }

  lemma ElementsSnoc(ids: seq<nat>, id: nat)
    ensures Elements(ids + [id]) == Elements(ids) + {id}
  {
  }

  function DropExpiredFront(pending: seq<nat>, owned: set<nat>): seq<nat> {
    if pending != [] && pending[0] !in owned then DropExpiredFront(pending[1..], owned) else pending
  }

  function OwnedOnly(pending: seq<nat>, owned: set<nat>): seq<nat> {
    if pending == [] then []
    else if pending[0] in owned then [pending[0]] + OwnedOnly(pending[1..], owned)
    else OwnedOnly(pending[1..], owned)
  }

  /** Expired entries leave from the front; a list still too long is swept. An entry has expired
      when nobody owns its slot any more. */
  function Prune(pending: seq<nat>, owned: set<nat>): seq<nat> {
    var front := DropExpiredFront(pending, owned);
    if |front| < PENDING_SWEEP_AT then front else OwnedOnly(front, owned)
  }

  lemma {:induction false} DropKeepsOwned(pending: seq<nat>, owned: set<nat>)
    ensures OwnedOnly(DropExpiredFront(pending, owned), owned) == OwnedOnly(pending, owned)
    ensures forall id :: id in DropExpiredFront(pending, owned) ==> id in pending
    ensures Distinct(pending) ==> Distinct(DropExpiredFront(pending, owned))
  {
    if pending != [] && pending[0] !in owned {
      DropKeepsOwned(pending[1..], owned);
    }
  }

  lemma {:induction false} OwnedOnlyElements(pending: seq<nat>, owned: set<nat>)
    ensures forall id :: id in OwnedOnly(pending, owned) <==> id in pending && id in owned
    ensures Distinct(pending) ==> Distinct(OwnedOnly(pending, owned))
  {
    if pending != [] {
      OwnedOnlyElements(pending[1..], owned);
    }
  }

  lemma {:induction false} OwnedOnlyTwice(pending: seq<nat>, owned: set<nat>)
    ensures OwnedOnly(OwnedOnly(pending, owned), owned) == OwnedOnly(pending, owned)
  {
    if pending != [] {
      OwnedOnlyTwice(pending[1..], owned);
    }
  }

  /** Pruning drops expired entries only: the owned ones all stay, in their order. */
  lemma PruneIsSound(pending: seq<nat>, owned: set<nat>)
    ensures OwnedOnly(Prune(pending, owned), owned) == OwnedOnly(pending, owned)
    ensures forall id :: id in Prune(pending, owned) ==> id in pending
    ensures forall id :: id in pending && id in owned ==> id in Prune(pending, owned)
    ensures Distinct(pending) ==> Distinct(Prune(pending, owned))
  {
    var front := DropExpiredFront(pending, owned);
    DropKeepsOwned(pending, owned);
    OwnedOnlyTwice(front, owned);
    OwnedOnlyElements(front, owned);
    OwnedOnlyElements(pending, owned);
  }

  lemma {:induction false} DistinctCount(ids: seq<nat>, within: set<nat>)
    requires Distinct(ids) && forall id :: id in ids ==> id in within
    ensures |ids| <= |within|
  {
    if ids != [] {
      var rest := ids[1..];
      assert forall id :: id in rest ==> id in within - {ids[0]};
      DistinctCount(rest, within - {ids[0]});
    }
  }

  /** Right after pruning and pushing a new slot, the list is no longer than the sweep length or
      the number of slots somebody owns, the new one included, whichever is larger. */
  lemma PruneIsBounded(pending: seq<nat>, owned: set<nat>, id: nat)
    requires Distinct(pending) && id !in pending
    ensures |Prune(pending, owned) + [id]|
            <= if |owned + {id}| > PENDING_SWEEP_AT then |owned + {id}| else PENDING_SWEEP_AT
  {
    var front := DropExpiredFront(pending, owned);
    PruneIsSound(pending, owned);
    if |front| >= PENDING_SWEEP_AT {
      OwnedOnlyElements(front, owned);
      DistinctSnoc(Prune(pending, owned), id);
      DistinctCount(Prune(pending, owned) + [id], owned + {id});
    }
  }
}
