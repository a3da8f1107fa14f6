/** The single-producer, single-consumer command ring in shared memory. The producer
    stages a slot and publishes it; the consumer peeks at a slot and releases it. The four
    methods are the points between which the two processes may interleave. */
module CommandRings {
  import opened Common
  import opened SignalLists

  datatype ActionCode = NoAction | InsertAction | RemoveAction

  datatype Slot = Slot(action: ActionCode, signalListId: nat, signalPosition: nat, signal: nat)

  const CLEARED := Slot(NoAction, 0, 0, 0)

  /** An insertion leaves the position field of its slot as it was. */
  predicate Means(slot: Slot, c: Command) {
    match c
    case Insert(s, id) => slot.action.InsertAction? && slot.signal == s && slot.signalListId == id
    case Remove(s, p, id) => slot == Slot(RemoveAction, id, p, s)
  }

  /** The slots behind rp up to and including wp, around the end. */
  function Between(ss: seq<Slot>, rp: nat, wp: nat): seq<Slot>
    requires rp < |ss| && wp < |ss|
  {
    if rp <= wp then ss[rp + 1..wp + 1] else ss[rp + 1..] + ss[..wp + 1]
  }

  function After(i: nat, size: nat): nat {
    if i + 1 == size then 0 else i + 1
  }

  /** Writing behind wp does not change them, as long as rp is not reached. */
  lemma BetweenKeeps(ss: seq<Slot>, rp: nat, wp: nat, slot: Slot)
    requires rp < |ss| && wp < |ss| && After(wp, |ss|) != rp
    ensures Between(ss[After(wp, |ss|) := slot], rp, wp) == Between(ss, rp, wp)
  {
  }

  lemma BetweenGrows(ss: seq<Slot>, rp: nat, wp: nat)
    requires rp < |ss| && wp < |ss| && After(wp, |ss|) != rp
    ensures Between(ss, rp, After(wp, |ss|)) == Between(ss, rp, wp) + [ss[After(wp, |ss|)]]
  {
    var next := After(wp, |ss|);
    assert ss[next..next + 1] == [ss[next]];
  }

  lemma BetweenShrinks(ss: seq<Slot>, rp: nat, wp: nat)
    requires rp < |ss| && wp < |ss| && rp != wp
    ensures Between(ss, rp, wp) == [ss[After(rp, |ss|)]] + Between(ss, After(rp, |ss|), wp)
  {
  }

  class CommandRing {
    const slots: array<Slot>
    var rp: nat
    var wp: nat

    /** Every slot value ever published, in order, and how many of them were released. */
    ghost var published: seq<Slot>
    ghost var consumed: nat

    ghost predicate Valid()
      reads this, slots
    {
      && 2 <= slots.Length
      && rp < slots.Length && wp < slots.Length
      && consumed <= |published|
      && published[consumed..] == Unconsumed()
      && slots[wp].signalListId == if published == [] then 0 else published[|published| - 1].signalListId
    }

    /** The slots behind rp up to and including wp. */
    ghost function Unconsumed(): seq<Slot>
      requires rp < slots.Length && wp < slots.Length
      reads this, slots
    {
      Between(slots[..], rp, wp)
    }

    function Next(i: nat): (j: nat)
      requires i < slots.Length
      ensures j < slots.Length
    {
      After(i, slots.Length)
    }

    predicate HasRoom()
      requires wp < slots.Length
      reads this
    {
      Next(wp) != rp
    }

    constructor (signals: nat)
      requires signals >= 1
      ensures Valid() && fresh(slots) && slots.Length == 2 * signals
      ensures published == [] && consumed == 0 && Unconsumed() == []
    {
      slots := new Slot[2 * signals](_ => CLEARED);
      rp, wp, published, consumed := 0, 0, [], 0;
    }

    /** Room is left exactly while fewer than 2n - 1 commands wait. */
    lemma RoomMeansFewer()
      requires Valid()
      ensures HasRoom() <==> |Unconsumed()| + 1 < slots.Length
    {
    }

    /** Writes the slot behind wp. Nothing that the consumer may read changes, and neither
        does the slot at wp, which getSignalList reads. */
    method Stage(slot: Slot)
      requires Valid() && HasRoom()
      modifies slots
      ensures Valid() && slots[Next(wp)] == slot
      ensures Unconsumed() == old(Unconsumed()) && slots[wp] == old(slots[wp])
    {
      ghost var before := slots[..];
      BetweenKeeps(before, rp, wp, slot);
      slots[Next(wp)] := slot;
      assert slots[..] == before[After(wp, |before|) := slot];
    }

    /** Makes the staged slot the newest command. */
    method Publish()
      requires Valid() && HasRoom()
      modifies this`wp, this`published
      ensures Valid() && wp == Next(old(wp))
      ensures Unconsumed() == old(Unconsumed()) + [slots[Next(old(wp))]]
      ensures published == old(published) + [slots[Next(old(wp))]]
    {
      var next := Next(wp);
      BetweenGrows(slots[..], rp, wp);
      published := published + [slots[next]];
      wp := next;
    }

    /** The oldest command that was not released. */
    method Peek() returns (slot: Slot)
      requires Valid() && rp != wp
      ensures consumed < |published| && slot == published[consumed]
      ensures Unconsumed() != [] && slot == Unconsumed()[0]
    {
      BetweenShrinks(slots[..], rp, wp);
      slot := slots[Next(rp)];
    }

    method Release()
      requires Valid() && rp != wp
      modifies this`rp, this`consumed
      ensures Valid() && consumed == old(consumed) + 1
      ensures old(Unconsumed()) != [] && Unconsumed() == old(Unconsumed())[1..]
    {
      BetweenShrinks(slots[..], rp, wp);
      rp := Next(rp);
      consumed := consumed + 1;
    }

    /** getSignalList reads the newest id here even after the slot has been consumed. */
    method NewestId() returns (id: nat)
      requires Valid()
      ensures id == if published == [] then 0 else published[|published| - 1].signalListId
    {
      id := slots[wp].signalListId;
    }
  }
}
