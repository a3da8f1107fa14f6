/** The tasks of the two processes and their ring, run against the machine: whatever the other
    parties have done, a call finds its preconditions met and comes to one step. */
module Refinement {
  import opened Common
  import opened SignalLists
  import opened CommandRings
  import opened Protocol
  import opened ProtocolInvariant
  import opened ProtocolTheorems
  import opened NrtTasks
  import opened RtTasks

  ghost predicate AllMean(slots: seq<Slot>, pending: seq<Command>) {
    |slots| == |pending| && forall k :: 0 <= k < |slots| ==> Means(slots[k], pending[k])
  }

  /** The objects stand for their parts of a state of the machine. */
  ghost predicate Represent(cfg: Config, nrt: NrtTask, rt: RtTask, ring: CommandRing, st: State)
    reads nrt, rt, ring, ring.slots
  {
    && nrt.Valid() && rt.Valid() && ring.Valid()
    && nrt.cfg == rt.cfg == cfg && ring.slots.Length == 2 * |cfg|
    && nrt.View() == st.nrt
    && rt.lists == st.rt.lists && rt.signalListId == st.rt.listId && rt.seqNo == st.rt.seqNo
    && AllMean(ring.Unconsumed(), st.pending)
  }

  /** prefork_init with nrt_init and rt_init: the initial state. */
  method Start(cfg: Config) returns (nrt: NrtTask, rt: RtTask, ring: CommandRing)
    requires ValidConfig(cfg) && |cfg| >= 1
    ensures fresh(nrt) && fresh(rt) && fresh(ring) && fresh(ring.slots)
    ensures Run(cfg, []).Some? && Represent(cfg, nrt, rt, ring, Run(cfg, []).value)
  {
    nrt := new NrtTask(cfg);
    rt := new RtTask(cfg);
    ring := new CommandRing(|cfg|);
  }

  /** processSignalList, while RT drains and a command waits, is the step RtConsume. */
  method Consume(cfg: Config, nrt: NrtTask, rt: RtTask, ring: CommandRing, ghost steps: seq<Action>)
    requires ValidConfig(cfg) && Run(cfg, steps).Some?
    requires Represent(cfg, nrt, rt, ring, Run(cfg, steps).value)
    requires Enabled(cfg, Run(cfg, steps).value, RtConsume)
    modifies rt, ring`rp, ring`consumed
    ensures Run(cfg, steps + [RtConsume]).Some?
    ensures Represent(cfg, nrt, rt, ring, Run(cfg, steps + [RtConsume]).value)
  {
    ghost var st := Run(cfg, steps).value;
    ConsumeEffect(cfg, steps);
    Waiting(ring);
    rt.ProcessSignalList(ring, st.pending[0]);
  }

  lemma Waiting(ring: CommandRing)
    requires ring.Valid()
    ensures ring.rp != ring.wp <==> ring.Unconsumed() != []
  {
  }

  /** The test with which rt_update goes on draining. */
  lemma DrainsWhileWaiting(cfg: Config, nrt: NrtTask, rt: RtTask, ring: CommandRing, st: State)
    requires Represent(cfg, nrt, rt, ring, st)
    ensures ring.rp != ring.wp <==> st.pending != []
  {
    Waiting(ring);
  }

  /** calculateCopyList is the step RtEmitList. */
  method EmitList(cfg: Config, nrt: NrtTask, rt: RtTask, ring: CommandRing, ghost steps: seq<Action>)
    returns (pdo: Pdo)
    requires ValidConfig(cfg) && Run(cfg, steps).Some?
    requires Represent(cfg, nrt, rt, ring, Run(cfg, steps).value)
    requires Enabled(cfg, Run(cfg, steps).value, RtEmitList)
    ensures Run(cfg, steps + [RtEmitList]).Some?
    ensures var st := Run(cfg, steps + [RtEmitList]).value;
            Represent(cfg, nrt, rt, ring, st) && st.log == Run(cfg, steps).value.log + [pdo]
  {
    RunSnoc(cfg, steps, RtEmitList);
    var count;
    pdo, count := rt.CalculateCopyList();
  }

  /** copyData is the step RtEmitData. */
  method EmitData(cfg: Config, nrt: NrtTask, rt: RtTask, ring: CommandRing, mem: seq<seq<Byte>>,
                  ghost steps: seq<Action>)
    returns (pdo: Pdo)
    requires ValidConfig(cfg) && Run(cfg, steps).Some?
    requires Represent(cfg, nrt, rt, ring, Run(cfg, steps).value)
    requires Enabled(cfg, Run(cfg, steps).value, RtEmitData(mem))
    modifies rt`seqNo
    ensures Run(cfg, steps + [RtEmitData(mem)]).Some?
    ensures var st := Run(cfg, steps + [RtEmitData(mem)]).value;
            Represent(cfg, nrt, rt, ring, st) && st.log == Run(cfg, steps).value.log + [pdo]
  {
    RunSnoc(cfg, steps, RtEmitData(mem));
    var count;
    pdo, count := rt.CopyData(mem);
  }

  function Sent(pending: seq<Command>, command: Option<Command>): seq<Command> {
    if command.None? then pending else pending + [command.value]
  }

  lemma SubscribeEffect(cfg: Config, steps: seq<Action>, s: nat, sid: SessionId)
    requires ValidConfig(cfg) && Run(cfg, steps).Some? && RingHasRoom(cfg, Run(cfg, steps).value)
    requires SyncedSession(Run(cfg, steps).value, sid) && s < |cfg|
    requires s !in Run(cfg, steps).value.sessions[sid].subscribed
    ensures var st, r := Run(cfg, steps).value, Run(cfg, steps + [Action.Subscribe(sid, s)]);
            && Subscribable(cfg, st.nrt, s) && r.Some?
            && var o := Outcome(cfg, st.nrt, s, sid, true);
               r.value.nrt == o.nrt && r.value.rt == st.rt && r.value.pending == Sent(st.pending, o.command)
  {
    var st := Run(cfg, steps).value;
    RunSnoc(cfg, steps, Action.Subscribe(sid, s));
    NrtOkSubscribable(cfg, st.nrt, s);
    assert SessionOk(cfg, st.nrt, st.log, st.history, sid, st.sessions[sid]);
  }

  lemma UnsubscribeEffect(cfg: Config, steps: seq<Action>, s: nat, sid: SessionId)
    requires ValidConfig(cfg) && Run(cfg, steps).Some? && RingHasRoom(cfg, Run(cfg, steps).value)
    requires SyncedSession(Run(cfg, steps).value, sid) && s < |cfg|
    requires s in Run(cfg, steps).value.sessions[sid].subscribed
    ensures var st, r := Run(cfg, steps).value, Run(cfg, steps + [Action.Unsubscribe(sid, s)]);
            && Subscribable(cfg, st.nrt, s) && r.Some?
            && var o := Outcome(cfg, st.nrt, s, sid, false);
               r.value.nrt == o.nrt && r.value.rt == st.rt && r.value.pending == Sent(st.pending, o.command)
  {
    RunSnoc(cfg, steps, Action.Unsubscribe(sid, s));
    NrtOkSubscribable(cfg, Run(cfg, steps).value.nrt, s);
  }

  lemma ConsumeEffect(cfg: Config, steps: seq<Action>)
    requires ValidConfig(cfg) && Run(cfg, steps).Some? && Enabled(cfg, Run(cfg, steps).value, RtConsume)
    ensures var st, r := Run(cfg, steps).value, Run(cfg, steps + [RtConsume]);
            && st.pending != [] && WellFormed(cfg, st.rt.lists) && Applicable(cfg, st.rt.lists, st.pending[0])
            && r.Some? && r.value.nrt == st.nrt && r.value.pending == st.pending[1..]
            && r.value.rt == st.rt.(lists := Apply(cfg, st.rt.lists, st.pending[0]), listId := st.pending[0].id)
  {
    var st := Run(cfg, steps).value;
    RunSnoc(cfg, steps, RtConsume);
    assert CommandOk(cfg, st.pending, st.rt, st.history, 0);
  }

  /** One call of Task::subscribe, which leads from st to st'. */
  method Call(cfg: Config, nrt: NrtTask, ghost rt: RtTask, ring: CommandRing, s: nat, sid: SessionId, insert: bool,
              ghost st: State, ghost st': State)
    returns (already: bool)
    requires Represent(cfg, nrt, rt, ring, st) && ring.HasRoom() && Subscribable(cfg, st.nrt, s)
    requires var o := Outcome(cfg, st.nrt, s, sid, insert);
             st'.nrt == o.nrt && st'.rt == st.rt && st'.pending == Sent(st.pending, o.command)
    modifies nrt, ring`wp, ring`published, ring.slots
    ensures Represent(cfg, nrt, rt, ring, st') && (already <==> st'.pending == st.pending)
  {
    ghost var sent, command := CLEARED, Outcome(cfg, st.nrt, s, sid, insert).command;
    ghost var before := ring.Unconsumed();
    already, sent := nrt.Subscribe(ring, s, sid, insert);
    SentMeans(before, st.pending, sent, command);
    assert AllMean(ring.Unconsumed(), Sent(st.pending, command));
  }

  lemma SentMeans(slots: seq<Slot>, pending: seq<Command>, sent: Slot, command: Option<Command>)
    requires AllMean(slots, pending) && (command.Some? ==> Means(sent, command.value))
    ensures AllMean(if command.None? then slots else slots + [sent], Sent(pending, command))
    ensures Sent(pending, command) == pending <==> command.None?
  {
    assert |Sent(pending, command)| == |pending| + if command.None? then 0 else 1;
  }

  /** Task::subscribe for a session that does not have the signal yet, with room in the ring, is
      what the step Subscribe does to NRT and ring. */
  method Subscribe(cfg: Config, nrt: NrtTask, rt: RtTask, ring: CommandRing, s: nat, sid: SessionId,
                   ghost steps: seq<Action>)
    returns (already: bool)
    requires ValidConfig(cfg) && Run(cfg, steps).Some?
    requires Represent(cfg, nrt, rt, ring, Run(cfg, steps).value) && ring.HasRoom()
    requires SyncedSession(Run(cfg, steps).value, sid) && s < |cfg|
    requires s !in Run(cfg, steps).value.sessions[sid].subscribed
    modifies nrt, ring`wp, ring`published, ring.slots
    ensures Run(cfg, steps + [Action.Subscribe(sid, s)]).Some?
    ensures var st := Run(cfg, steps + [Action.Subscribe(sid, s)]).value;
            Represent(cfg, nrt, rt, ring, st) && (already <==> st.pending == Run(cfg, steps).value.pending)
  {
    CallableInRuns(cfg, steps, s, ring);
    SubscribeEffect(cfg, steps, s, sid);
    already := Call(cfg, nrt, rt, ring, s, sid, true, Run(cfg, steps).value,
                    Run(cfg, steps + [Action.Subscribe(sid, s)]).value);
  }

  /** The same for leaving a signal that the session has. */
  method Unsubscribe(cfg: Config, nrt: NrtTask, rt: RtTask, ring: CommandRing, s: nat, sid: SessionId,
                     ghost steps: seq<Action>)
    returns (already: bool)
    requires ValidConfig(cfg) && Run(cfg, steps).Some?
    requires Represent(cfg, nrt, rt, ring, Run(cfg, steps).value) && ring.HasRoom()
    requires SyncedSession(Run(cfg, steps).value, sid) && s < |cfg|
    requires s in Run(cfg, steps).value.sessions[sid].subscribed
    modifies nrt, ring`wp, ring`published, ring.slots
    ensures Run(cfg, steps + [Action.Unsubscribe(sid, s)]).Some?
    ensures var st := Run(cfg, steps + [Action.Unsubscribe(sid, s)]).value;
            Represent(cfg, nrt, rt, ring, st) && (already <==> st.pending == Run(cfg, steps).value.pending)
  {
    CallableInRuns(cfg, steps, s, ring);
    UnsubscribeEffect(cfg, steps, s, sid);
    already := Call(cfg, nrt, rt, ring, s, sid, false, Run(cfg, steps).value,
                    Run(cfg, steps + [Action.Unsubscribe(sid, s)]).value);
  }
}
