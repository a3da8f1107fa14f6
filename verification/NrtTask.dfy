/** The NRT image of Task, with the fields that Task keeps in its signals. */
module NrtTasks {
  import opened Common
  import opened SignalLists
  import opened Allotments
  import opened CommandRings
  import opened Protocol
  import opened ProtocolInvariant

  /** The first |l| places of a segment show the list l. */
  ghost predicate Shows(scl: seq<nat>, l: seq<nat>) {
    |l| <= |scl| && scl[..|l|] == l
  }

  ghost predicate NrtSegmented(cfg: Config, scl: seq<seq<nat>>, counts: seq<nat>, ls: Lists) {
    && ValidConfig(cfg) && |scl| == |counts| == 4
    && forall w :: 0 <= w < 4 ==>
         |scl[w]| == CountClass(cfg, w) && counts[w] == |ls[w]| && Shows(scl[w], ls[w])
  }

  ghost predicate Subscribable(cfg: Config, nrt: Nrt, s: nat) {
    && ValidConfig(cfg) && Sized(cfg, nrt) && s < |cfg|
    && SignalOk(cfg, nrt, s) && InRange(cfg, nrt.lists[cfg[s].width])
    && (s !in nrt.lists[cfg[s].width] ==> |nrt.lists[cfg[s].width]| < CountClass(cfg, cfg[s].width))
  }

  lemma NrtOkSubscribable(cfg: Config, nrt: Nrt, s: nat)
    requires ValidConfig(cfg) && NrtOk(cfg, nrt) && s < |cfg|
    ensures Subscribable(cfg, nrt, s)
  {
    assert SignalOk(cfg, nrt, s) && ClassOk(cfg, cfg[s].width, nrt.lists[cfg[s].width]);
    SegmentFits(cfg, nrt.lists, cfg[s].width);
  }

  /** The task in any run may be asked to subscribe, with room in its ring exactly when the
      model has it. */
  lemma {:induction false} CallableInRuns(cfg: Config, steps: seq<Action>, s: nat, ring: CommandRing)
    requires ValidConfig(cfg) && Run(cfg, steps).Some? && s < |cfg|
    requires ring.Valid() && ring.slots.Length == 2 * |cfg|
    requires |ring.Unconsumed()| == |Run(cfg, steps).value.pending|
    ensures Subscribable(cfg, Run(cfg, steps).value.nrt, s)
    ensures ring.HasRoom() <==> RingHasRoom(cfg, Run(cfg, steps).value)
  {
    NrtOkSubscribable(cfg, Run(cfg, steps).value.nrt, s);
    ring.RoomMeansFewer();
  }

  ghost function Outcome(cfg: Config, nrt: Nrt, s: nat, sid: SessionId, insert: bool): TaskOutcome
    requires Subscribable(cfg, nrt, s)
  {
    if insert then TaskInsert(cfg, nrt, s, sid) else TaskRemove(cfg, nrt, s, sid)
  }

  lemma OutcomeIds(cfg: Config, nrt: Nrt, s: nat, sid: SessionId, insert: bool)
    requires Subscribable(cfg, nrt, s)
    ensures var o := Outcome(cfg, nrt, s, sid, insert);
            && o.nrt.listId == nrt.listId + (if o.command.None? then 0 else 1)
            && o.nrt.subscriptionId == if o.command.None? then nrt.subscriptionId
                                       else nrt.subscriptionId[s := o.nrt.listId]
  {
  }

  class NrtTask {
    const cfg: Config
    var signalCopyList: seq<seq<nat>>
    var signalTypeCount: seq<nat>
    var signalListId: nat
    var copyListPos: seq<nat>
    var sessions: seq<set<SessionId>>
    var subscriptionId: seq<nat>

    /** The lists that the copy list shows. */
    ghost var lists: Lists

    ghost function View(): Nrt
      reads this
    {
      Nrt(lists, copyListPos, sessions, subscriptionId, signalListId)
    }

    ghost predicate Valid()
      reads this
    {
      && NrtSegmented(cfg, signalCopyList, signalTypeCount, lists)
      && Sized(cfg, View())
    }

    /** nrt_init */
    constructor (cfg: Config)
      requires ValidConfig(cfg)
      ensures Valid() && this.cfg == cfg && View() == InitialState(cfg).nrt
    {
      this.cfg := cfg;
      signalCopyList := seq(4, w requires 0 <= w < 4 => seq(CountClass(cfg, w), _ => 0));
      signalTypeCount, signalListId, lists := [0, 0, 0, 0], 0, NO_SIGNALS;
      copyListPos := seq(|cfg|, _ => 0);
      sessions := seq(|cfg|, _ => {});
      subscriptionId := seq(|cfg|, _ => 0);
    }

    /** Task::subscribe once its wait for room in the ring is over: the NRT state moves to
        the outcome, and the ring takes the outcome's command if there is one. */
    method Subscribe(ring: CommandRing, s: nat, sid: SessionId, insert: bool) returns (already: bool, ghost sent: Slot)
      requires Valid() && ring.Valid() && ring.HasRoom() && Subscribable(cfg, View(), s)
      modifies this, ring`wp, ring`published, ring.slots
      ensures Valid() && ring.Valid()
      ensures var o := Outcome(cfg, old(View()), s, sid, insert);
              && View() == o.nrt && already == o.command.None?
              && (o.command.Some? ==> Means(sent, o.command.value))
      ensures ring.Unconsumed() == if already then old(ring.Unconsumed()) else old(ring.Unconsumed()) + [sent]
    {
      ghost var before, o := View(), Outcome(cfg, View(), s, sid, insert);
      OutcomeIds(cfg, before, s, sid, insert);
      var slot := ring.slots[ring.Next(ring.wp)].(signal := s);
      ring.Stage(slot);
      already, slot := Prepare(slot, s, sid, insert);
      sent := Conclude(ring, slot, s, already, before, o);
    }

    /** Publishes the command if there is one. */
    method Conclude(ring: CommandRing, slot: Slot, s: nat, already: bool, ghost before: Nrt, ghost o: TaskOutcome)
      returns (ghost sent: Slot)
      requires Valid() && ring.Valid() && ring.HasRoom() && s < |subscriptionId| && Prepared(before, o, already, slot)
      requires o.nrt.listId == before.listId + (if already then 0 else 1)
      requires o.nrt.subscriptionId
            == if already then before.subscriptionId else before.subscriptionId[s := o.nrt.listId]
      modifies this`signalListId, this`subscriptionId, ring`wp, ring`published, ring.slots
      ensures Valid() && ring.Valid() && View() == o.nrt
      ensures o.command.Some? ==> Means(sent, o.command.value)
      ensures ring.Unconsumed() == if already then old(ring.Unconsumed()) else old(ring.Unconsumed()) + [sent]
    {
      sent := slot.(signalListId := signalListId + 1);
      if !already {
        Announce(ring, slot, s);
      }
    }

    /** The outcome but for the new id, which Announce hands out. */
    ghost predicate Prepared(before: Nrt, o: TaskOutcome, already: bool, slot: Slot)
      reads this
    {
      && already == o.command.None?
      && View() == o.nrt.(subscriptionId := before.subscriptionId, listId := before.listId)
      && (o.command.Some? ==> Means(slot.(signalListId := before.listId + 1), o.command.value))
    }

    method Prepare(slot: Slot, s: nat, sid: SessionId, insert: bool) returns (already: bool, slot': Slot)
      requires Valid() && Subscribable(cfg, View(), s) && slot.signal == s
      modifies this`sessions, this`signalTypeCount, this`copyListPos, this`lists, this`signalCopyList
      ensures Valid() && Prepared(old(View()), Outcome(cfg, old(View()), s, sid, insert), already, slot')
    {
      if insert {
        already, slot' := Join(slot, s, sid);
      } else {
        already, slot' := Leave(slot, s, sid);
      }
    }

    method Join(slot: Slot, s: nat, sid: SessionId) returns (already: bool, slot': Slot)
      requires Valid() && Subscribable(cfg, View(), s) && slot.signal == s
      modifies this`sessions, this`signalTypeCount, this`copyListPos, this`lists, this`signalCopyList
      ensures Valid() && Prepared(old(View()), TaskInsert(cfg, old(View()), s, sid), already, slot')
    {
      already := sessions[s] != {};
      slot' := slot.(action := InsertAction);
      sessions := sessions[s := sessions[s] + {sid}];
      if !already {
        var w := cfg[s].width;
        assert Shows(signalCopyList[w], lists[w]);
        var i := signalTypeCount[w];
        signalTypeCount := signalTypeCount[w := i + 1];
        var segment: seq<nat> := signalCopyList[w][i := s];
        signalCopyList := signalCopyList[w := segment];
        copyListPos := copyListPos[s := i];
        lists := lists[w := lists[w] + [s]];
        assert Shows(signalCopyList[w], lists[w]);
      }
    }

    /** The last signal of the class takes the place of s. */
    method Leave(slot: Slot, s: nat, sid: SessionId) returns (already: bool, slot': Slot)
      requires Valid() && Subscribable(cfg, View(), s) && slot.signal == s
      modifies this`sessions, this`signalTypeCount, this`copyListPos, this`lists, this`signalCopyList
      ensures Valid() && Prepared(old(View()), TaskRemove(cfg, old(View()), s, sid), already, slot')
    {
      var subscribed := sessions[s] != {};
      var p := copyListPos[s];
      slot' := slot.(action := RemoveAction, signalPosition := p);
      sessions := sessions[s := sessions[s] - {sid}];
      already := !subscribed || sessions[s] != {};
      if !already {
        var w := cfg[s].width;
        assert Shows(signalCopyList[w], lists[w]);
        signalTypeCount := signalTypeCount[w := signalTypeCount[w] - 1];
        var last := signalCopyList[w][signalTypeCount[w]];
        assert last == lists[w][|lists[w]| - 1];
        var segment: seq<nat> := signalCopyList[w][p := last];
        signalCopyList := signalCopyList[w := segment];
        copyListPos := copyListPos[last := p];
        lists := lists[w := SwapRemove(lists[w], p)];
        assert Shows(signalCopyList[w], lists[w]);
      }
    }

    /** Gives the command its id and publishes it. */
    method Announce(ring: CommandRing, slot: Slot, s: nat)
      requires ring.Valid() && ring.HasRoom() && s < |subscriptionId|
      modifies this`signalListId, this`subscriptionId, ring`wp, ring`published, ring.slots
      ensures signalListId == old(signalListId) + 1
      ensures subscriptionId == old(subscriptionId)[s := signalListId]
      ensures ring.Valid()
      ensures ring.Unconsumed() == old(ring.Unconsumed()) + [slot.(signalListId := signalListId)]
    {
      signalListId := signalListId + 1;
      subscriptionId := subscriptionId[s := signalListId];
      ring.Stage(slot.(signalListId := signalListId));
      ring.Publish();
    }

    /** The current order together with the newest id, both read under the mutex. */
    method GetSignalList(ring: CommandRing) returns (list: seq<nat>, id: nat)
      requires Valid() && ring.Valid()
      ensures list == Flatten(lists)
      ensures id == if ring.published == [] then 0 else ring.published[|ring.published| - 1].signalListId
    {
      list := [];
      for i := 0 to 4
        invariant list == FlattenUpTo(lists, i)
      {
        var j := 0;
        assert Shows(signalCopyList[i], lists[i]);
        while j < signalTypeCount[i]
          invariant j <= |lists[i]| && list == FlattenUpTo(lists, i) + lists[i][..j]
        {
          assert signalCopyList[i][..|lists[i]|][j] == lists[i][j];
          list := list + [signalCopyList[i][j]];
          j := j + 1;
        }
      }
      FlattenUpToAll(lists);
      id := ring.NewestId();
    }
  }
}
