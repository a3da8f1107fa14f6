/** Two runs of the streaming protocol with one signal: in one, subscribe activates the signal at
    once, and a list loaded later does not contain it; in the other, a session catches up on an
    outdated data frame. */
module ProtocolRuns {
  import opened Common
  import opened SignalLists
  import opened Protocol
  import opened ProtocolInvariant
  import opened ProtocolTheorems

  const ONE: Config := [SignalInfo(3, 1)]
  const MEM: seq<seq<Byte>> := [[7]]
  /** The lists with the signal in them. */
  const LISTED: Lists := [[], [], [], [0]]

  /** The step a leads from st to st2. */
  ghost predicate CanStep(st: State, a: Action, st2: State) {
    Inv(ONE, st) && Enabled(ONE, st, a) && Next(ONE, st, a) == st2
  }

  ghost predicate Trace(actions: seq<Action>, states: seq<State>) {
    && |states| == |actions| + 1 && states[0] == InitialState(ONE)
    && forall i, j :: 0 <= i && j == i + 1 && j < |states| ==> CanStep(states[i], actions[i], states[j])
  }

  ghost predicate Reached(st: State) {
    exists actions, states :: Trace(actions, states) && states[|actions|] == st
  }

  lemma ReachedInv(st: State)
    requires Reached(st)
    ensures Inv(ONE, st)
  {
    var actions, states :| Trace(actions, states) && states[|actions|] == st;
    var n := |actions|;
    if n == 0 {
      InitialInv(ONE);
    } else {
      assert CanStep(states[n - 1], actions[n - 1], states[n]);
      NextKeepsInv(ONE, states[n - 1], actions[n - 1]);
    }
  }

  lemma Extend(actions: seq<Action>, states: seq<State>, a: Action, st2: State)
    requires Trace(actions, states) && CanStep(states[|actions|], a, st2)
    ensures Trace(actions + [a], states + [st2])
  {
    var as2, ss2 := actions + [a], states + [st2];
    forall i, j | 0 <= i && j == i + 1 && j < |ss2|
      ensures CanStep(ss2[i], as2[i], ss2[j])
    {
      assert j < |states| ==> CanStep(states[i], actions[i], states[j]);
    }
  }

  lemma Go(st: State, a: Action, st2: State)
    requires Reached(st) && CanStep(st, a, st2)
    ensures Reached(st2) && Inv(ONE, st2)
  {
    var actions, states :| Trace(actions, states) && states[|actions|] == st;
    Extend(actions, states, a, st2);
    assert (states + [st2])[|actions + [a]|] == st2;
    NextKeepsInv(ONE, st, a);
  }

  lemma Shorten(actions: seq<Action>, states: seq<State>)
    requires Trace(actions, states) && actions != []
    ensures Trace(actions[..|actions| - 1], states[..|actions|])
    ensures CanStep(states[|actions| - 1], actions[|actions| - 1], states[|actions|])
  {
    var as1, ss1 := actions[..|actions| - 1], states[..|actions|];
    forall i, j | 0 <= i && j == i + 1 && j < |ss1|
      ensures CanStep(ss1[i], as1[i], ss1[j])
    {
      assert CanStep(states[i], actions[i], states[j]);
    }
  }

  /** A trace is a run. */
  lemma {:induction false} TraceIsRun(actions: seq<Action>, states: seq<State>)
    requires Trace(actions, states)
    ensures Run(ONE, actions) == Some(states[|actions|])
    decreases |actions|
  {
    if actions != [] {
      var n := |actions| - 1;
      Shorten(actions, states);
      TraceIsRun(actions[..n], states[..n + 1]);
      RunGoesOn(actions[..n], actions[n], states[n], states[n + 1]);
      assert actions[..n] + [actions[n]] == actions;
    }
  }

  lemma {:induction false} RunGoesOn(steps: seq<Action>, a: Action, st: State, st2: State)
    requires Run(ONE, steps) == Some(st) && CanStep(st, a, st2)
    ensures Run(ONE, steps + [a]) == Some(st2)
  {
    RunSnoc(ONE, steps, a);
  }

  // ---- The RT task ----

  lemma DoWake(st: State)
    requires Inv(ONE, st) && st.rt.phase.Idle?
    ensures CanStep(st, RtWake, st.(rt := st.rt.(phase := if st.pending != [] then Draining else Copying)))
  {
  }

  lemma DoConsume(st: State, c: Command)
    requires Inv(ONE, st) && st.rt.phase.Draining? && st.pending == [c] && Applicable(ONE, st.rt.lists, c)
    ensures CanStep(st, RtConsume,
                    st.(pending := [], rt := st.rt.(lists := Apply(ONE, st.rt.lists, c), listId := c.id)))
  {
    assert st.pending[1..] == [];
  }

  lemma DoDrained(st: State)
    requires Inv(ONE, st) && st.rt.phase.Draining? && st.pending == []
    ensures CanStep(st, RtDrained, st.(rt := st.rt.(phase := Listing)))
  {
  }

  lemma DoEmitList(st: State)
    requires Inv(ONE, st) && st.rt.phase.Listing?
    ensures CanStep(st, RtEmitList, st.(log := st.log + [SignalListPdo(st.rt.listId, Flatten(st.rt.lists))],
                        samples := st.samples + [[]], rt := st.rt.(phase := Copying)))
  {
  }

  function DataFrame(rt: Rt): Pdo {
    DataPdo(rt.listId, rt.seqNo, if rt.lists == NO_SIGNALS then [] else [7])
  }

  lemma DoEmitData(st: State)
    requires Inv(ONE, st) && st.rt.phase.Copying? && (st.rt.lists == NO_SIGNALS || st.rt.lists == LISTED)
    ensures CanStep(st, RtEmitData(MEM), st.(log := st.log + [DataFrame(st.rt)], samples := st.samples + [MEM],
                        rt := st.rt.(phase := Idle, seqNo := st.rt.seqNo + 1)))
  {
    assert ValidMemory(ONE, MEM);
    if st.rt.lists == NO_SIGNALS {
      assert Flatten(NO_SIGNALS) == [];
    } else {
      assert Flatten(LISTED) == [0];
      assert [0][1..] == [];
      assert Encode(MEM, [0]) == [7];
    }
  }

  // ---- Sessions ----

  /** A session that has synchronised on the frame at the cursor, while nothing was listed. */
  function Fresh(cursor: nat): Session {
    Session(InSync, cursor, 0, 0, Positions(ONE, []), 0, {}, {}, {}, None)
  }

  lemma DoConnect(st: State, sid: SessionId)
    requires Inv(ONE, st) && sid !in st.sessions
    ensures CanStep(st, Connect(sid), st.(sessions := st.sessions[sid := InitialSession(ONE)]))
  {
  }

  lemma DoCatchUp(st: State, sid: SessionId)
    requires Inv(ONE, st) && sid in st.sessions && st.sessions[sid].phase.CatchingUp? && st.log != []
    ensures var x := st.sessions[sid].(phase := FetchingList, cursor := |st.log| - 1);
            CanStep(st, CatchUp(sid), st.(sessions := st.sessions[sid := x]))
  {
  }

  lemma DoFetch(st: State, sid: SessionId)
    requires Inv(ONE, st) && sid in st.sessions && st.sessions[sid].phase.FetchingList?
    ensures var x := st.sessions[sid].(phase := Scanning(Flatten(st.nrt.lists)), listId := st.nrt.listId);
            CanStep(st, FetchList(sid), st.(sessions := st.sessions[sid := x]))
  {
  }

  lemma DoScan(st: State, sid: SessionId)
    requires Inv(ONE, st) && sid in st.sessions && st.sessions[sid].phase == Scanning([])
    requires st.sessions[sid].cursor < |st.log| && st.log[st.sessions[sid].cursor] == DataPdo(0, 0, [])
    requires st.sessions[sid].listId == 0 && st.sessions[sid].active == {}
    ensures CanStep(st, Scan(sid), st.(sessions := st.sessions[sid := st.sessions[sid].(phase := InSync, seqNo := 0,
                          positions := Positions(ONE, []), pdoSize := 0, transferred := {})]))
  {
    var x := st.sessions[sid];
    var y := ScanOne(ONE, st.nrt.subscriptionId, x, st.log[x.cursor]);
    assert y.transferred == {} && y.active == {};
    assert y == x.(phase := InSync, seqNo := 0, positions := Positions(ONE, []), pdoSize := 0, transferred := {});
  }

  lemma DoReceive(st: State, sid: SessionId, y: Session)
    requires Inv(ONE, st) && SyncedSession(st, sid) && st.sessions[sid].cursor + 1 < |st.log|
    requires |st.nrt.subscriptionId| == 1
    requires y == ReceiveOne(ONE, st.nrt.subscriptionId, st.sessions[sid], st.log[st.sessions[sid].cursor + 1])
    ensures CanStep(st, Receive(sid), st.(sessions := st.sessions[sid := y]))
  {
  }

  lemma DoSubscribe(st: State, sid: SessionId)
    requires Inv(ONE, st) && SyncedSession(st, sid) && st.pending == []
    requires 0 !in st.sessions[sid].active && 0 !in st.sessions[sid].subscribed && Sized(ONE, st.nrt)
    ensures var x, o := st.sessions[sid], TaskInsert(ONE, st.nrt, 0, sid);
            CanStep(st, Subscribe(sid, 0), Publish(st, o, sid, x.(subscribed := x.subscribed + {0},
                      active := if o.command.None? && 0 in x.transferred then x.active + {0} else x.active)))
  {
  }

  lemma DoUnsubscribe(st: State, sid: SessionId)
    requires Inv(ONE, st) && SyncedSession(st, sid) && st.pending == [] && 0 in st.sessions[sid].subscribed
    requires Sized(ONE, st.nrt) && SignalOk(ONE, st.nrt, 0) && st.nrt.lists == LISTED
    ensures var x := st.sessions[sid];
            CanStep(st, Unsubscribe(sid, 0),
                    Publish(st, TaskRemove(ONE, st.nrt, 0, sid), sid,
                            x.(subscribed := x.subscribed - {0}, active := x.active - {0})))
  {
  }

  // ---- Stretches of the run ----

  /** The RT task wakes up and takes over the one command that is waiting. */
  function Consumed(st: State, c: Command): State
    requires Applicable(ONE, st.rt.lists, c)
  {
    st.(pending := [], rt := st.rt.(phase := Draining, lists := Apply(ONE, st.rt.lists, c), listId := c.id))
  }

  lemma Consumes(st: State, c: Command)
    requires Reached(st) && st.rt.phase.Idle? && st.pending == [c] && Applicable(ONE, st.rt.lists, c)
    ensures Reached(Consumed(st, c))
  {
    ReachedInv(st);
    var s1 := st.(rt := st.rt.(phase := Draining));
    DoWake(st);
    Go(st, RtWake, s1);
    DoConsume(s1, c);
    Go(s1, RtConsume, Consumed(st, c));
  }

  /** It then emits the new list and a data frame. */
  function Served(st: State): State {
    st.(log := st.log + [SignalListPdo(st.rt.listId, Flatten(st.rt.lists))] + [DataFrame(st.rt)],
        samples := st.samples + [[]] + [MEM],
        rt := st.rt.(phase := Idle, seqNo := st.rt.seqNo + 1))
  }

  lemma Serves(st: State)
    requires Reached(st) && st.rt.phase.Draining? && st.pending == []
    requires st.rt.lists == NO_SIGNALS || st.rt.lists == LISTED
    ensures Reached(Served(st))
  {
    ReachedInv(st);
    var s1 := st.(rt := st.rt.(phase := Listing));
    DoDrained(st);
    Go(st, RtDrained, s1);
    var s2 := s1.(log := st.log + [SignalListPdo(st.rt.listId, Flatten(st.rt.lists))], samples := st.samples + [[]],
                  rt := st.rt.(phase := Copying));
    DoEmitList(s1);
    Go(s1, RtEmitList, s2);
    DoEmitData(s2);
    Go(s2, RtEmitData(MEM), Served(st));
  }

  /** A session connects and synchronises while there is only the first frame. */
  lemma Joins(st: State, sid: SessionId)
    requires Reached(st) && sid !in st.sessions && st.log == [DataPdo(0, 0, [])]
    requires st.nrt.lists == NO_SIGNALS && st.nrt.listId == 0
    ensures Reached(st.(sessions := st.sessions[sid := Fresh(0)]))
  {
    CatchesUp(st, sid);
    JoinsScanning(st, WithCaughtUp(st, sid), sid);
  }

  function WithCaughtUp(st: State, sid: SessionId): State {
    st.(sessions := st.sessions[sid := InitialSession(ONE).(phase := FetchingList, cursor := 0)])
  }

  lemma CatchesUp(st: State, sid: SessionId)
    requires Reached(st) && sid !in st.sessions && |st.log| == 1
    ensures Reached(WithCaughtUp(st, sid))
  {
    ReachedInv(st);
    var s1, s2 := st.(sessions := st.sessions[sid := InitialSession(ONE)]), WithCaughtUp(st, sid);
    DoConnect(st, sid);
    Go(st, Connect(sid), s1);
    DoCatchUp(s1, sid);
    assert s1.sessions[sid := s2.sessions[sid]] == s2.sessions;
    Go(s1, CatchUp(sid), s2);
  }

  lemma JoinsScanning(st: State, s2: State, sid: SessionId)
    requires s2 == WithCaughtUp(st, sid) && Reached(s2)
    requires st.log == [DataPdo(0, 0, [])] && st.nrt.lists == NO_SIGNALS && st.nrt.listId == 0
    ensures Reached(st.(sessions := st.sessions[sid := Fresh(0)]))
  {
    ReachedInv(s2);
    assert Flatten(NO_SIGNALS) == [];
    var x3 := s2.sessions[sid].(phase := Scanning([]), listId := 0);
    var s3 := st.(sessions := st.sessions[sid := x3]);
    DoFetch(s2, sid);
    assert s2.sessions[sid := x3] == s3.sessions;
    Go(s2, FetchList(sid), s3);
    DoScan(s3, sid);
    var s4 := st.(sessions := st.sessions[sid := Fresh(0)]);
    assert s3.sessions[sid := Fresh(0)] == s4.sessions;
    Go(s3, Scan(sid), s4);
  }

  lemma Subscribes(st: State, sid: SessionId, o: TaskOutcome, x: Session, st2: State)
    requires Reached(st) && SyncedSession(st, sid) && st.pending == [] && Sized(ONE, st.nrt)
    requires 0 !in st.sessions[sid].active && 0 !in st.sessions[sid].subscribed && o == TaskInsert(ONE, st.nrt, 0, sid)
    requires var y := st.sessions[sid];
             x == y.(subscribed := y.subscribed + {0},
                     active := if o.command.None? && 0 in y.transferred then y.active + {0} else y.active)
    requires st2 == Publish(st, o, sid, x)
    ensures Reached(st2) && CanStep(st, Subscribe(sid, 0), st2)
  {
    ReachedInv(st);
    DoSubscribe(st, sid);
    Go(st, Subscribe(sid, 0), st2);
  }

  lemma Unsubscribes(st: State, sid: SessionId, o: TaskOutcome, x: Session, st2: State)
    requires Reached(st) && SyncedSession(st, sid) && st.pending == [] && 0 in st.sessions[sid].subscribed
    requires Sized(ONE, st.nrt) && SignalOk(ONE, st.nrt, 0) && st.nrt.lists == LISTED
    requires o == TaskRemove(ONE, st.nrt, 0, sid)
    requires var y := st.sessions[sid]; x == y.(subscribed := y.subscribed - {0}, active := y.active - {0})
    requires st2 == Publish(st, o, sid, x)
    ensures Reached(st2)
  {
    ReachedInv(st);
    DoUnsubscribe(st, sid);
    Go(st, Unsubscribe(sid, 0), st2);
  }

  lemma Receives(st: State, x: Session, ids: seq<nat>, pdo: Pdo, y: Session, st2: State)
    requires Reached(st) && 0 in st.sessions && st.sessions[0] == x && x.phase.InSync?
    requires x.cursor + 1 < |st.log| && st.log[x.cursor + 1] == pdo
    requires |ids| == 1 && st.nrt.subscriptionId == ids && y == ReceiveOne(ONE, ids, x, pdo)
    requires st2 == st.(sessions := st.sessions[0 := y])
    ensures Reached(st2)
  {
    ReachedInv(st);
    DoReceive(st, 0, y);
    Go(st, Receive(0), st2);
  }

  lemma Rounds(st: State, c: Command, st2: State)
    requires Reached(st) && st.rt.phase.Idle? && st.pending == [c] && Applicable(ONE, st.rt.lists, c)
    requires Apply(ONE, st.rt.lists, c) == NO_SIGNALS || Apply(ONE, st.rt.lists, c) == LISTED
    requires st2 == Served(Consumed(st, c))
    ensures Reached(st2)
  {
    Consumes(st, c);
    Serves(Consumed(st, c));
  }

  /** What the commands do to the lists. */
  lemma ListCalculations(id: nat)
    ensures Applicable(ONE, NO_SIGNALS, Insert(0, id)) && Apply(ONE, NO_SIGNALS, Insert(0, id)) == LISTED
    ensures Applicable(ONE, LISTED, Remove(0, 0, id)) && Apply(ONE, LISTED, Remove(0, 0, id)) == NO_SIGNALS
    ensures Flatten(NO_SIGNALS) == [] && Flatten(LISTED) == [0]
  {
    assert SwapRemove([0], 0) == [];
    assert NO_SIGNALS[3] + [0] == [0];
    assert NO_SIGNALS[3 := [0]] == LISTED;
  }

  // ---- The run ----

  const SHARED_NRT := Nrt(LISTED, [0], [{0, 1}], [3], 3)
  const UNLISTED_NRT := Nrt(NO_SIGNALS, [0], [{}], [2], 2)
  const EMPTY_NRT := Nrt(NO_SIGNALS, [0], [{}], [0], 0)

  /** The first data frame, nothing listed. */
  function Begun(): State {
    State(EMPTY_NRT, [], Rt(NO_SIGNALS, 0, 1, Idle), [DataPdo(0, 0, [])], [MEM], [NO_SIGNALS], map[])
  }

  lemma Begins()
    ensures Reached(Begun())
  {
    var st := InitialState(ONE);
    assert st.nrt == EMPTY_NRT;
    var none: seq<Action> := [];
    assert Trace(none, [st]) && [st][|none|] == st;
    ReachedInv(st);
    var s1 := st.(rt := st.rt.(phase := Copying));
    DoWake(st);
    Go(st, RtWake, s1);
    DoEmitData(s1);
    Go(s1, RtEmitData(MEM), Begun());
  }

  function Joined(): State {
    State(EMPTY_NRT, [], Rt(NO_SIGNALS, 0, 1, Idle), [DataPdo(0, 0, [])], [MEM], [NO_SIGNALS],
          map[0 := Fresh(0), 1 := Fresh(0)])
  }

  lemma BothJoin()
    ensures Reached(Joined())
  {
    Begins();
    Joins(Begun(), 0);
    var s1 := Begun().(sessions := map[0 := Fresh(0)]);
    assert Begun().sessions[0 := Fresh(0)] == s1.sessions;
    Joins(s1, 1);
    assert s1.sessions[1 := Fresh(0)] == Joined().sessions;
  }

  /** Session 1 has subscribed to the signal with command id. */
  function Listing1(id: nat): Nrt {
    Nrt(LISTED, [0], [{1}], [id], id)
  }

  function Subscriber(): Session {
    Fresh(0).(subscribed := {0})
  }

  lemma InsertCalculated(nrt: Nrt, id: nat)
    requires id >= 1 && nrt == Nrt(NO_SIGNALS, [0], [{}], [id - 1], id - 1)
    ensures TaskInsert(ONE, nrt, 0, 1) == TaskOutcome(Listing1(id), Some(Insert(0, id)))
  {
    assert NO_SIGNALS[3] + [0] == [0];
    assert NO_SIGNALS[3 := [0]] == LISTED;
    assert {} + {1} == {1};
    var o := TaskInsert(ONE, nrt, 0, 1);
    assert o.nrt.sessions == [{1}] && o.nrt.position == [0] && o.nrt.subscriptionId == [id];
  }

  function Subscribed1(): State {
    State(Listing1(1), [Insert(0, 1)], Rt(NO_SIGNALS, 0, 1, Idle), [DataPdo(0, 0, [])], [MEM], [NO_SIGNALS, LISTED],
          map[0 := Fresh(0), 1 := Subscriber()])
  }

  lemma OneSubscribes()
    ensures Reached(Subscribed1())
  {
    BothJoin();
    InsertCalculated(EMPTY_NRT, 1);
    assert {} + {0} == {0};
    assert Joined().sessions[1 := Subscriber()] == Subscribed1().sessions;
    Subscribes(Joined(), 1, TaskOutcome(Listing1(1), Some(Insert(0, 1))), Subscriber(), Subscribed1());
  }

  const LOG1: seq<Pdo> := [DataPdo(0, 0, []), SignalListPdo(1, [0]), DataPdo(1, 1, [7])]

  function Streaming1(): State {
    State(Listing1(1), [], Rt(LISTED, 1, 2, Idle), LOG1, [MEM, [], MEM], [NO_SIGNALS, LISTED],
          map[0 := Fresh(0), 1 := Subscriber()])
  }

  lemma OneIsServed()
    ensures Reached(Streaming1())
  {
    OneSubscribes();
    ListCalculations(1);
    FirstServing();
    Rounds(Subscribed1(), Insert(0, 1), Streaming1());
  }

  lemma FirstServing()
    ensures Applicable(ONE, Subscribed1().rt.lists, Insert(0, 1))
    ensures Served(Consumed(Subscribed1(), Insert(0, 1))) == Streaming1()
  {
    ListCalculations(1);
    var st := Consumed(Subscribed1(), Insert(0, 1));
    assert st.rt == Rt(LISTED, 1, 1, Draining);
    ServingCalculated(st);
  }

  /** What serving the first list comes to. */
  lemma ServingCalculated(st: State)
    requires st.rt == Rt(LISTED, 1, 1, Draining) && st.log == [DataPdo(0, 0, [])] && st.samples == [MEM]
    ensures Served(st) == st.(log := LOG1, samples := [MEM, [], MEM], rt := Rt(LISTED, 1, 2, Idle))
  {
    assert LISTED[3] != NO_SIGNALS[3];
    assert Flatten(LISTED) == [0];
    assert st.log + [SignalListPdo(1, [0])] + [DataPdo(1, 1, [7])] == LOG1;
    assert st.samples + [[]] + [MEM] == [MEM, [], MEM];
  }

  // ---- The other run ----

  /** Session 2 has caught up on the first frame, while the command of session 1 waits. */
  function CaughtUp2(): State {
    WithCaughtUp(Subscribed1(), 2)
  }

  lemma TwoIsNew()
    ensures 2 !in Subscribed1().sessions && |Subscribed1().log| == 1
  {
  }

  /** Its frame has id 0, and the newest command id 1. */
  lemma TwoIsStranded()
    ensures Stranded(CaughtUp2(), 2)
  {
    var x := CaughtUp2().sessions[2];
    assert x == InitialSession(ONE).(phase := FetchingList, cursor := 0);
    assert CaughtUp2().log == [DataPdo(0, 0, [])] && CaughtUp2().nrt == Listing1(1);
  }

  /** In this run session 2 stands on a data frame that is older than the newest command, and
      no further steps of anybody get it in sync. */
  lemma StrandingHappens() returns (steps: seq<Action>)
    ensures Run(ONE, steps) == Some(CaughtUp2()) && Stranded(CaughtUp2(), 2) && !CanSync(ONE, steps, 2)
  {
    OneSubscribes();
    TwoIsNew();
    CatchesUp(Subscribed1(), 2);
    var actions, states :| Trace(actions, states) && states[|actions|] == CaughtUp2();
    TraceIsRun(actions, states);
    steps := actions;
    TwoIsStranded();
    StrandedCannotSync(ONE, steps, 2);
  }

  // ---- The first run goes on ----

  /** Session 0 once it has loaded the list with the signal. */
  function Loaded0(): Session {
    Fresh(1).(listId := 1, positions := Positions(ONE, [0]), pdoSize := 1, transferred := {0})
  }

  lemma LoadCalculated()
    ensures ReceiveOne(ONE, [1], Fresh(0), SignalListPdo(1, [0])) == Loaded0()
  {
    var y := ReceiveOne(ONE, [1], Fresh(0), SignalListPdo(1, [0]));
    assert [0][1..] == [];
    assert TotalSize(ONE, [0]) == 1;
    assert y.transferred == {0} && y.active == {};
  }

  function HalfLoaded(): State {
    State(Listing1(1), [], Rt(LISTED, 1, 2, Idle), LOG1, [MEM, [], MEM], [NO_SIGNALS, LISTED],
          map[0 := Loaded0(), 1 := Subscriber()])
  }

  lemma ZeroLoads()
    ensures Reached(HalfLoaded())
  {
    OneIsServed();
    LoadCalculated();
    assert Streaming1().sessions[0 := Loaded0()] == HalfLoaded().sessions;
    Receives(Streaming1(), Fresh(0), [1], SignalListPdo(1, [0]), Loaded0(), HalfLoaded());
  }

  function Unlisted(): State {
    State(UNLISTED_NRT, [Remove(0, 0, 2)], Rt(LISTED, 1, 2, Idle), LOG1, [MEM, [], MEM],
          [NO_SIGNALS, LISTED, NO_SIGNALS], map[0 := Loaded0(), 1 := Fresh(0)])
  }

  lemma RemoveCalculated()
    ensures SignalOk(ONE, Listing1(1), 0)
    ensures TaskRemove(ONE, Listing1(1), 0, 1) == TaskOutcome(UNLISTED_NRT, Some(Remove(0, 0, 2)))
  {
    assert {1} - {1} == {};
    assert SwapRemove([0], 0) == [];
    var o := TaskRemove(ONE, Listing1(1), 0, 1);
    assert o.nrt.lists == NO_SIGNALS && o.nrt.sessions == [{}] && o.nrt.position == [0] && o.nrt.subscriptionId == [2];
  }

  lemma OneUnsubscribes()
    ensures Reached(Unlisted())
  {
    ZeroLoads();
    RemoveCalculated();
    assert {0} - {0} == {};
    assert HalfLoaded().sessions[1 := Fresh(0)] == Unlisted().sessions;
    Unsubscribes(HalfLoaded(), 1, TaskOutcome(UNLISTED_NRT, Some(Remove(0, 0, 2))), Fresh(0), Unlisted());
  }

  const LOG2: seq<Pdo> :=
    [DataPdo(0, 0, []), SignalListPdo(1, [0]), DataPdo(1, 1, [7]), SignalListPdo(2, []), DataPdo(2, 2, [])]
  const SAMPLES2: seq<seq<seq<Byte>>> := [MEM, [], MEM, [], MEM]

  function Streaming2(): State {
    State(UNLISTED_NRT, [], Rt(NO_SIGNALS, 2, 3, Idle), LOG2, SAMPLES2,
          [NO_SIGNALS, LISTED, NO_SIGNALS], map[0 := Loaded0(), 1 := Fresh(0)])
  }

  lemma RemovalIsServed()
    ensures Reached(Streaming2())
  {
    OneUnsubscribes();
    ListCalculations(2);
    assert Served(Consumed(Unlisted(), Remove(0, 0, 2))) == Streaming2();
    Rounds(Unlisted(), Remove(0, 0, 2), Streaming2());
  }

  function Subscribed2(): State {
    State(Listing1(3), [Insert(0, 3)], Rt(NO_SIGNALS, 2, 3, Idle), LOG2, SAMPLES2,
          [NO_SIGNALS, LISTED, NO_SIGNALS, LISTED], map[0 := Loaded0(), 1 := Subscriber()])
  }

  lemma OneSubscribesAgain()
    ensures Reached(Subscribed2())
  {
    RemovalIsServed();
    InsertCalculated(UNLISTED_NRT, 3);
    assert {} + {0} == {0};
    assert Streaming2().sessions[1 := Subscriber()] == Subscribed2().sessions;
    Subscribes(Streaming2(), 1, TaskOutcome(Listing1(3), Some(Insert(0, 3))), Subscriber(), Subscribed2());
  }

  /** RT has taken the command, but not yet emitted the list. */
  function BeforeEarly(): State {
    State(Listing1(3), [], Rt(LISTED, 3, 3, Draining), LOG2, SAMPLES2,
          [NO_SIGNALS, LISTED, NO_SIGNALS, LISTED], map[0 := Loaded0(), 1 := Subscriber()])
  }

  lemma RtIsBusy()
    ensures Reached(BeforeEarly())
  {
    OneSubscribesAgain();
    ListCalculations(3);
    Consumes(Subscribed2(), Insert(0, 3));
    assert Consumed(Subscribed2(), Insert(0, 3)) == BeforeEarly();
  }

  function Early0(): Session {
    Loaded0().(subscribed := {0}, active := {0})
  }

  function AfterEarly(): State {
    State(SHARED_NRT, [], Rt(LISTED, 3, 3, Draining), LOG2, SAMPLES2,
          [NO_SIGNALS, LISTED, NO_SIGNALS, LISTED], map[0 := Early0(), 1 := Subscriber()])
  }

  lemma JoinCalculated()
    ensures TaskInsert(ONE, Listing1(3), 0, 0) == TaskOutcome(SHARED_NRT, None)
  {
    assert {1} + {0} == {0, 1};
    assert [{1}][0 := {0, 1}] == [{0, 1}];
  }

  lemma ZeroActivatesEarly()
    ensures Reached(AfterEarly()) && CanStep(BeforeEarly(), Subscribe(0, 0), AfterEarly())
  {
    RtIsBusy();
    JoinCalculated();
    assert {} + {0} == {0};
    assert BeforeEarly().sessions[0 := Early0()] == AfterEarly().sessions;
    Subscribes(BeforeEarly(), 0, TaskOutcome(SHARED_NRT, None), Early0(), AfterEarly());
  }

  function Framed0(): Session {
    Early0().(cursor := 2, seqNo := 1, frame := Some(2))
  }

  function Framed(): State {
    State(SHARED_NRT, [], Rt(LISTED, 3, 3, Draining), LOG2, SAMPLES2,
          [NO_SIGNALS, LISTED, NO_SIGNALS, LISTED], map[0 := Framed0(), 1 := Subscriber()])
  }

  lemma FrameCalculated()
    ensures ReceiveOne(ONE, [3], Early0(), DataPdo(1, 1, [7])) == Framed0()
  {
  }

  lemma FrameReady()
    ensures 0 in AfterEarly().sessions && AfterEarly().sessions[0] == Early0() && Early0().cursor == 1
    ensures |AfterEarly().log| == 5 && AfterEarly().log[2] == DataPdo(1, 1, [7])
    ensures Framed() == AfterEarly().(sessions := AfterEarly().sessions[0 := Framed0()])
  {
    assert AfterEarly().sessions[0 := Framed0()] == Framed().sessions;
  }

  lemma ZeroTakesData()
    ensures Reached(Framed())
  {
    ZeroActivatesEarly();
    FrameCalculated();
    FrameReady();
    Receives(AfterEarly(), Early0(), [3], DataPdo(1, 1, [7]), Framed0(), Framed());
  }

  function Broken0(): Session {
    Framed0().(cursor := 3, listId := 2, positions := Positions(ONE, []), pdoSize := 0, transferred := {})
  }

  function Broken(): State {
    State(SHARED_NRT, [], Rt(LISTED, 3, 3, Draining), LOG2, SAMPLES2,
          [NO_SIGNALS, LISTED, NO_SIGNALS, LISTED], map[0 := Broken0(), 1 := Subscriber()])
  }

  lemma ReloadCalculated()
    ensures ReceiveOne(ONE, [3], Framed0(), SignalListPdo(2, [])) == Broken0()
  {
    var y := ReceiveOne(ONE, [3], Framed0(), SignalListPdo(2, []));
    assert y.transferred == {} && y.active == {0};
  }

  lemma ZeroReloads()
    ensures Reached(Broken())
  {
    ZeroTakesData();
    ReloadCalculated();
    assert Framed().sessions[0 := Broken0()] == Broken().sessions;
    Receives(Framed(), Framed0(), [3], SignalListPdo(2, []), Broken0(), Broken());
  }

  /** In this run the signal is active in session 0, and yet the list that the session has
      loaded does not have it: there is no value to be read. */
  lemma EarlyActivationFails() returns (steps: seq<Action>)
    ensures Run(ONE, steps) == Some(Broken())
    ensures var x := Broken().sessions[0];
            0 in x.active && 0 !in x.transferred && GetValue(ONE, Broken().log, x, 0) == None
  {
    ZeroReloads();
    var actions, states :| Trace(actions, states) && states[|actions|] == Broken();
    TraceIsRun(actions, states);
    steps := actions;
    PositionAbsent(ONE, [], 0);
  }
}
