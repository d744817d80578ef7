/** Call slots and the lists m_mu guards, as the objects callers and the proxy thread share. */
module CallTable {
  import opened Slots

  /** One call in flight, shared by whoever waits for it and by the box handed to the library. */
  class CallSlot {
    const id: nat
    const kind: Kind
    var done: bool
    var status: int
    var result: string

    constructor (id: nat, kind: Kind)
      ensures this.id == id && this.kind == kind && View() == NewSlot(kind)
    {
      this.id, this.kind, done, status, result := id, kind, false, -1, "";
    }

    function View(): Slot
      reads this
    {
      Slot(kind, done, status, result)
    }

    method Complete(status: int, result: string)
      modifies this
      ensures View() == Slots.Complete(old(View()), status, result)
    {
      if !done {
        this.status := status;
        this.result := result;
        done := true;
      }
    }
  }

  /** What the table holds besides the slots: the queue, the pending list, and what the library was
      handed and has not completed. A pending entry is a weak name: it resolves while owned. */
  datatype Lists = Lists(nextId: nat, queue: seq<nat>, pending: seq<nat>, inFlight: int, callBoxes: set<nat>, syncBoxes: set<nat>)

  class CallTable {
    var slots: map<nat, CallSlot>
    var nextId: nat
    var queue: seq<nat>
    var pending: seq<nat>
    var inFlight: int
    var callBoxes: set<nat>
    var syncBoxes: set<nat>
    var leaked: nat

    /** Every slot is under its own identity, and everything listed or outstanding is a slot. */
    ghost predicate Valid()
      reads this
    {
      && (forall id :: id in slots ==> slots[id].id == id && id < nextId)
      && (forall id :: id in queue || id in pending || id in callBoxes || id in syncBoxes ==> id in slots)
    }

    /** The in-flight count is what the library holds. */
    ghost predicate Counted()
      reads this
    {
      callBoxes !! syncBoxes && inFlight == |callBoxes| + |syncBoxes|
    }

    /** The library was handed a box for this slot and has not completed it. */
    predicate Outstanding(id: nat)
      reads this
    {
      id in callBoxes || id in syncBoxes
    }

    ghost function Views(): map<nat, Slot>
      reads this`slots, slots.Values
    {
      map id | id in slots :: slots[id].View()
    }

    function Held(): Lists
      reads this
    {
      Lists(nextId, queue, pending, inFlight, callBoxes, syncBoxes)
    }

    constructor ()
      ensures Valid() && Counted() && Views() == map[] && Held() == Lists(1, [], [], 0, {}, {}) && leaked == 0
    {
      slots, nextId, queue, pending := map[], 1, [], [];
      inFlight, callBoxes, syncBoxes, leaked := 0, {}, {}, 0;
    }

    // -------------------------------------------------------------------------
    // Registering
    // -------------------------------------------------------------------------

    method PrunePendingLocked(owned: set<nat>)
      modifies this`pending
      ensures pending == Prune(old(pending), owned)
    {
      while pending != [] && pending[0] !in owned
        invariant DropExpiredFront(pending, owned) == DropExpiredFront(old(pending), owned)
        decreases |pending|
      {
        pending := pending[1..];
      }
      if |pending| < PENDING_SWEEP_AT {
        return;
      }
      var kept := [];
      ghost var all := pending;
      for i := 0 to |pending|
        invariant pending == all
        invariant kept + OwnedOnly(pending[i..], owned) == OwnedOnly(pending, owned)
      {
        SweepOne(kept, pending, i, owned);
        if pending[i] in owned {
          kept := kept + [pending[i]];
        }
      }
      pending := kept;
    }

    /** A fresh slot under the next identity. */
    method MakeSlot(kind: Kind) returns (id: nat)
      requires Valid()
      modifies this`slots, this`nextId
      ensures Valid() && id == old(nextId) && id in slots && Held() == old(Held()).(nextId := id + 1)
      ensures Views() == old(Views())[id := NewSlot(kind)]
    {
      id := nextId;
      var slot := new CallSlot(id, kind);
      nextId := nextId + 1;
      slots := slots[id := slot];
    }

    /** Make a place for the slot where shutdown will look. */
    method Register(id: nat, owned: set<nat>)
      requires Valid() && id in slots
      modifies this`pending
      ensures Valid() && Held() == old(Held()).(pending := Prune(old(pending), owned) + [id])
    {
      PruneIsSound(pending, owned);
      PrunePendingLocked(owned);
      pending := pending + [id];
    }

    /** A fresh slot, registered before anything else is done with it. */
    method MakeRegistered(kind: Kind, owned: set<nat>) returns (id: nat)
      requires Valid()
      modifies this`slots, this`nextId, this`pending
      ensures Valid() && id == old(nextId) && id in slots && Views() == old(Views())[id := NewSlot(kind)]
      ensures Held() == old(Held()).(nextId := id + 1, pending := Prune(old(pending), owned) + [id])
    {
      id := MakeSlot(kind);
      Register(id, owned);
    }

    method QueueCommand(id: nat)
      requires Valid() && id in slots
      modifies this`queue
      ensures Valid() && Held() == old(Held()).(queue := old(queue) + [id])
    {
      queue := queue + [id];
    }

    /** The library gets a box for the slot. */
    method Hand(id: nat, sync: bool)
      requires Valid() && id in slots
      modifies this`inFlight, this`callBoxes, this`syncBoxes
      ensures Valid()
      ensures var held := old(Held());
              Held() == if sync then held.(syncBoxes := held.syncBoxes + {id}, inFlight := held.inFlight + 1)
                        else held.(callBoxes := held.callBoxes + {id}, inFlight := held.inFlight + 1)
      ensures old(Counted()) && id !in old(callBoxes) && id !in old(syncBoxes) ==> Counted()
    {
      inFlight := inFlight + 1;
      if sync {
        syncBoxes := syncBoxes + {id};
      } else {
        callBoxes := callBoxes + {id};
      }
    }

    // -------------------------------------------------------------------------
    // Dispatching
    // -------------------------------------------------------------------------

    /** Hand every queued command to the library; they are dispatched oldest first. */
    method DrainCommands() returns (dispatched: seq<nat>)
      requires Valid()
      modifies this`queue, this`inFlight, this`callBoxes, this`syncBoxes
      ensures Valid() && dispatched == old(queue)
      ensures var held := old(Held());
              Held() == held.(queue := [], callBoxes := held.callBoxes + Elements(dispatched), inFlight := held.inFlight + |dispatched|)
    {
      dispatched := [];
      while queue != []
        invariant Valid() && slots == old(slots)
        invariant dispatched + queue == old(queue)
        invariant HandedOver(old(Held()), Held(), dispatched)
        decreases |queue|
      {
        ghost var held := Held();
        var id := DispatchFront();
        HandsOver(old(Held()), held, Held(), dispatched, id);
        dispatched := dispatched + [id];
      }
    }

    method DispatchFront() returns (id: nat)
      requires Valid() && queue != []
      modifies this`queue, this`inFlight, this`callBoxes, this`syncBoxes
      ensures Valid() && id == old(queue)[0]
      ensures var held := old(Held());
              Held() == held.(queue := held.queue[1..], callBoxes := held.callBoxes + {id}, inFlight := held.inFlight + 1)
    {
      id := queue[0];
      queue := queue[1..];
      Hand(id, false);
    }

    // -------------------------------------------------------------------------
    // Shutting down
    // -------------------------------------------------------------------------

    /** Shutdown's walk: every registered slot somebody still owns is done afterwards, the undone
        ones with the reason given, the others as they were, and each one released is counted. */
    method FailAllPending(owned: set<nat>, why: string)
      requires Valid()
      modifies this`pending, this`queue, this`leaked, slots.Values
      ensures Valid() && Held() == old(Held()).(pending := [], queue := [])
      ensures WalkedOver(old(Views()), Views(), old(pending), owned, why)
      ensures leaked == old(leaked) + |Released(old(Views()), old(pending), owned)|
    {
      var walk, all := pending, slots;
      ghost var before := Views();
      pending, queue := [], [];
      assert Views() == before;
      for i := 0 to |walk|
        invariant pending == [] && queue == [] && slots == all && Valid()
        invariant WalkedOver(before, Views(), walk[..i], owned, why)
        invariant leaked == old(leaked) + |Released(before, walk[..i], owned)|
      {
        ReleasedGrows(before, walk, i, owned);
        WalkGrows(before, Views(), walk, i, owned, why);
        var id := walk[i];
        if id in owned {
          assert id in all && all[id] in all.Values;
          FailSlot(id, why);
        }
      }
      assert walk[..|walk|] == walk;
    }

    /** Release whoever waits on one slot, unless it has its answer already. */
    method FailSlot(id: nat, why: string)
      requires Valid() && id in slots
      modifies this`leaked, slots[id]
      ensures Views() == old(Views())[id := Slots.Complete(old(Views())[id], RET_ERROR, why)]
      ensures leaked == old(leaked) + if old(Views())[id].done then 0 else 1
    {
      var slot := slots[id];
      if slot.done {
        return;
      }
      slot.Complete(RET_ERROR, why);
      leaked := leaked + 1;
    }

    /** The library completes a box; the slot keeps the outcome it had, if it had one. */
    method CompleteBox(id: nat, status: int, result: string) returns (slot: CallSlot)
      requires Valid() && id in slots
      modifies this`callBoxes, this`syncBoxes, slots[id]
      ensures Valid() && slot == slots[id] && slot.View() == Slots.Complete(old(slots[id].View()), status, result)
      ensures Views() == old(Views())[id := slot.View()]
      ensures Held() == old(Held()).(callBoxes := old(callBoxes) - {id}, syncBoxes := old(syncBoxes) - {id})
      ensures old(Counted()) && old(Outstanding(id)) ==> Landing()
    {
      slot := slots[id];
      callBoxes, syncBoxes := callBoxes - {id}, syncBoxes - {id};
      slot.Complete(status, result);
    }

    /** What the library still holds will never be completed. */
    method Abandon()
      requires Valid()
      modifies this`inFlight, this`callBoxes, this`syncBoxes
      ensures Valid() && Counted() && Held() == old(Held()).(inFlight := 0, callBoxes := {}, syncBoxes := {})
    {
      inFlight, callBoxes, syncBoxes := 0, {}, {};
    }

    /** One completion has been taken from the library and is still counted. */
    ghost predicate Landing()
      reads this
    {
      callBoxes !! syncBoxes && inFlight == |callBoxes| + |syncBoxes| + 1
    }

    method Landed()
      requires Valid()
      modifies this`inFlight
      ensures Valid() && Held() == old(Held()).(inFlight := old(inFlight) - 1)
      ensures old(Landing()) ==> Counted()
    {
      inFlight := inFlight - 1;
    }
  }

  /** These commands went from the queue to the library. */
  ghost predicate HandedOver(before: Lists, after: Lists, dispatched: seq<nat>) {
    after == before.(queue := after.queue, callBoxes := before.callBoxes + Elements(dispatched),
                     inFlight := before.inFlight + |dispatched|)
  }

  lemma HandsOver(before: Lists, now: Lists, after: Lists, dispatched: seq<nat>, id: nat)
    requires HandedOver(before, now, dispatched)
    requires after == now.(queue := after.queue, callBoxes := now.callBoxes + {id}, inFlight := now.inFlight + 1)
    ensures HandedOver(before, after, dispatched + [id])
  {
    ElementsSnoc(dispatched, id);
  }

  /** The sweep looks at one more entry. */
  lemma SweepOne(kept: seq<nat>, pending: seq<nat>, i: nat, owned: set<nat>)
    requires i < |pending|
    ensures (if pending[i] in owned then kept + [pending[i]] else kept) + OwnedOnly(pending[i + 1..], owned)
            == kept + OwnedOnly(pending[i..], owned)
  {
    var later := OwnedOnly(pending[i + 1..], owned);
    assert pending[i..][1..] == pending[i + 1..];
    assert (kept + [pending[i]]) + later == kept + ([pending[i]] + later);
  }

  // ---------------------------------------------------------------------------
  // The walk
  // ---------------------------------------------------------------------------

  /** The owned slots walked over are done, with this reason if they had no outcome; no other moved. */
  ghost predicate WalkedOver(before: map<nat, Slot>, after: map<nat, Slot>, walked: seq<nat>, owned: set<nat>, why: string) {
    && after.Keys == before.Keys
    && (forall id :: id in after ==>
          after[id] == if id in walked && id in owned then Slots.Complete(before[id], RET_ERROR, why) else before[id])
  }

  /** The slots a walk of the pending list would release. */
  ghost function Released(slots: map<nat, Slot>, pending: seq<nat>, owned: set<nat>): set<nat> {
    set id | id in pending && id in owned && id in slots && !slots[id].done
  }

  lemma WalkGrows(before: map<nat, Slot>, now: map<nat, Slot>, walk: seq<nat>, i: nat, owned: set<nat>, why: string)
    requires i < |walk| && WalkedOver(before, now, walk[..i], owned, why) && (walk[i] in owned ==> walk[i] in before)
    ensures var id := walk[i];
            if id in owned
            then WalkedOver(before, now[id := Slots.Complete(now[id], RET_ERROR, why)], walk[..i + 1], owned, why)
                 && now[id].done == (before[id].done || id in walk[..i])
            else WalkedOver(before, now, walk[..i + 1], owned, why)
  {
    assert walk[..i + 1] == walk[..i] + [walk[i]];
  }

  lemma ReleasedGrows(slots: map<nat, Slot>, walk: seq<nat>, i: nat, owned: set<nat>)
    requires i < |walk|
    ensures |Released(slots, walk[..i + 1], owned)|
            == |Released(slots, walk[..i], owned)|
               + if walk[i] in owned && walk[i] in slots && !slots[walk[i]].done && walk[i] !in walk[..i] then 1 else 0
  {
    var id := walk[i];
    assert walk[..i + 1] == walk[..i] + [id];
    var before, after := Released(slots, walk[..i], owned), Released(slots, walk[..i + 1], owned);
    if id in owned && id in slots && !slots[id].done {
      assert after == before + {id};
    } else {
      assert after == before;
    }
  }
}
