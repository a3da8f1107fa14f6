/** Every sequence of frames that the real-time task may emit is the log of some run of the
    protocol: one session subscribes and unsubscribes as it takes. So the exact condition for the
    survival of frames is one on the runs of the protocol. */
module ProtocolFrames {
  import opened Common
  import opened SignalLists
  import opened Protocol
  import opened ProtocolInvariant
  import ProtocolTheorems
  import PdoMemory
  import opened FrameSurvival
  import opened ProtocolMemory

  const SID: SessionId := 0

  ghost predicate Reached(cfg: Config, st: State)
    requires ValidConfig(cfg)
  {
    exists steps: seq<Action> :: Run(cfg, steps) == Some(st)
  }

  lemma {:induction false} Step(cfg: Config, st: State, a: Action)
    requires ValidConfig(cfg) && Inv(cfg, st) && Reached(cfg, st) && Enabled(cfg, st, a)
    ensures Inv(cfg, Next(cfg, st, a)) && Reached(cfg, Next(cfg, st, a))
  {
    var steps: seq<Action> :| Run(cfg, steps) == Some(st);
    ProtocolTheorems.RunSnoc(cfg, steps, a);
    assert Run(cfg, steps + [a]) == Some(Next(cfg, st, a));
  }

  // ---- One session and nobody else ----

  /** The only session is in sync and subscribes to the signals that are on, and every command has
      been consumed. */
  ghost predicate Alone(cfg: Config, st: State, on: seq<bool>, phase: RtPhase)
    requires ValidConfig(cfg)
  {
    && Inv(cfg, st) && Reached(cfg, st) && |on| == |cfg| && |cfg| >= 1
    && st.sessions.Keys == {SID} && st.sessions[SID].phase.InSync?
    && (forall s :: 0 <= s < |cfg| ==> (s in st.sessions[SID].subscribed <==> on[s]))
    && st.rt.phase == phase && st.pending == []
  }

  /** A signal is listed if and only if it is on. */
  lemma ListedIfOn(cfg: Config, st: State, on: seq<bool>, phase: RtPhase)
    requires ValidConfig(cfg) && Alone(cfg, st, on, phase)
    ensures st.rt.listId < |st.history| && On(|cfg|, Flatten(st.history[st.rt.listId])) == on
  {
    var x, l := st.sessions[SID], Flatten(st.nrt.lists);
    assert SessionOk(cfg, st.nrt, st.log, st.history, SID, x);
    FlattenListed(cfg, st.nrt.lists);
    forall s | 0 <= s < |cfg|
      ensures s in l <==> on[s]
    {
      OnIfSubscribed(cfg, st, s);
    }
    assert On(|cfg|, l) == on;
  }

  lemma OnIfSubscribed(cfg: Config, st: State, s: nat)
    requires ValidConfig(cfg) && Inv(cfg, st) && st.sessions.Keys == {SID} && s < |cfg|
    ensures st.nrt.sessions[s] == if s in st.sessions[SID].subscribed then {SID} else {}
    ensures Listed(cfg, st.nrt.lists, s) <==> s in st.sessions[SID].subscribed
  {
    assert SessionOk(cfg, st.nrt, st.log, st.history, SID, st.sessions[SID]);
    assert SignalOk(cfg, st.nrt, s);
    assert st.nrt.sessions[s] <= {SID};
    assert SID in st.nrt.sessions[s] ==> st.nrt.sessions[s] == {SID};
    assert SID !in st.nrt.sessions[s] ==> st.nrt.sessions[s] == {};
  }

  function Toggle(on: seq<bool>, s: nat): Action
    requires s < |on|
  {
    if on[s] then Unsubscribe(SID, s) else Subscribe(SID, s)
  }

  /** The session changes its mind about one signal; the command is under way. */
  lemma Toggled(cfg: Config, st: State, on: seq<bool>, phase: RtPhase, s: nat) returns (st': State)
    requires ValidConfig(cfg) && Alone(cfg, st, on, phase) && s < |cfg|
    ensures Inv(cfg, st') && Reached(cfg, st') && |st'.pending| == 1 && st'.rt == st.rt
    ensures st'.log == st.log && st'.history == st.history + [st'.nrt.lists]
    ensures st'.sessions.Keys == {SID} && st'.sessions[SID].phase.InSync?
    ensures forall i :: 0 <= i < |cfg| ==> (i in st'.sessions[SID].subscribed <==> on[s := !on[s]][i])
  {
    var a := Toggle(on, s);
    OnIfSubscribed(cfg, st, s);
    assert SessionOk(cfg, st.nrt, st.log, st.history, SID, st.sessions[SID]);
    Step(cfg, st, a);
    st' := Next(cfg, st, a);
  }

  /** RT consumes it. */
  lemma Consumed(cfg: Config, st: State, on: seq<bool>) returns (st': State)
    requires ValidConfig(cfg) && Inv(cfg, st) && Reached(cfg, st) && |st.pending| == 1 && st.rt.phase.Draining?
    requires |on| == |cfg| >= 1 && st.sessions.Keys == {SID} && st.sessions[SID].phase.InSync?
    requires forall i :: 0 <= i < |cfg| ==> (i in st.sessions[SID].subscribed <==> on[i])
    ensures Alone(cfg, st', on, Draining) && st'.log == st.log && st'.history == st.history
  {
    Step(cfg, st, RtConsume);
    st' := Next(cfg, st, RtConsume);
  }

  /** One change while RT drains. */
  lemma ChangeOne(cfg: Config, st: State, on: seq<bool>, s: nat) returns (st': State)
    requires ValidConfig(cfg) && Alone(cfg, st, on, Draining) && s < |cfg|
    ensures Alone(cfg, st', on[s := !on[s]], Draining) && st'.log == st.log && st.history <= st'.history
  {
    var st1 := Toggled(cfg, st, on, Draining, s);
    st' := Consumed(cfg, st1, on[s := !on[s]]);
  }

  /** The change that makes RT drain. */
  lemma ChangeFirst(cfg: Config, st: State, on: seq<bool>) returns (st': State)
    requires ValidConfig(cfg) && Alone(cfg, st, on, Idle)
    ensures Alone(cfg, st', on[0 := !on[0]], Draining) && st'.log == st.log && st.history <= st'.history
  {
    var st1 := Toggled(cfg, st, on, Idle, 0);
    Step(cfg, st1, RtWake);
    st' := Consumed(cfg, Next(cfg, st1, RtWake), on[0 := !on[0]]);
  }

  /** All changes from signal s on. */
  lemma {:induction false} ChangeRest(cfg: Config, st: State, on: seq<bool>, on': seq<bool>, s: nat)
    returns (st': State)
    requires ValidConfig(cfg) && Alone(cfg, st, on, Draining) && |on'| == |on|
    requires s <= |on| && on[..s] == on'[..s]
    ensures Alone(cfg, st', on', Draining) && st'.log == st.log && st.history <= st'.history
    decreases |on| - s
  {
    if s == |on| {
      assert on == on[..s] && on' == on'[..s];
      st' := st;
    } else {
      var st1 := st;
      if on[s] != on'[s] {
        st1 := ChangeOne(cfg, st, on, s);
      }
      var on1 := on[s := on'[s]];
      assert on1 == if on[s] == on'[s] then on else on[s := !on[s]];
      PrefixGrows(on, on', s);
      st' := ChangeRest(cfg, st1, on1, on', s + 1);
    }
  }

  lemma PrefixGrows(on: seq<bool>, on': seq<bool>, s: nat)
    requires s < |on| == |on'| && on[..s] == on'[..s]
    ensures on[s := on'[s]][..s + 1] == on'[..s + 1]
  {
    assert on[s := on'[s]][..s + 1] == on[..s] + [on'[s]];
    assert on'[..s + 1] == on'[..s] + [on'[s]];
  }

  // ---- Frames ----

  /** The log is as the real-time task may emit it. */
  ghost predicate Logs(cfg: Config, st: State, es: seq<Emission>)
    requires ValidConfig(cfg)
  {
    Inv(cfg, st) && |st.log| == |es| && Emissions(cfg, st, |st.log|) == es
  }

  /** What has been emitted stays, and one frame more is one emission more. */
  lemma LogsMore(cfg: Config, st: State, es: seq<Emission>, st': State, e: Emission)
    requires ValidConfig(cfg) && Logs(cfg, st, es) && Inv(cfg, st') && st.history <= st'.history
    requires |st'.log| == |st.log| + 1 && st'.log[..|st.log|] == st.log
    requires Emissions(cfg, st', |st'.log|)[|st.log|] == e
    ensures Logs(cfg, st', es + [e])
  {
    forall i | 0 <= i < |es|
      ensures Emissions(cfg, st', |st'.log|)[i] == es[i]
    {
      assert st'.log[i] == st'.log[..|st.log|][i] == st.log[i];
      assert PdoOk(cfg, st.log, st.samples, st.history, i);
    }
  }

  function Blank(cfg: Config): (mem: seq<seq<Byte>>)
    ensures ValidMemory(cfg, mem)
  {
    seq(|cfg|, s requires 0 <= s < |cfg| => seq(cfg[s].memSize, _ => 0))
  }

  lemma EmitListOn(cfg: Config, st: State, es: seq<Emission>, on: seq<bool>) returns (st': State)
    requires ValidConfig(cfg) && Alone(cfg, st, on, Draining) && Logs(cfg, st, es)
    ensures Alone(cfg, st', on, Copying) && Logs(cfg, st', es + [Emission(true, on)])
  {
    Step(cfg, st, RtDrained);
    var st1 := Next(cfg, st, RtDrained);
    Step(cfg, st1, RtEmitList);
    st' := Next(cfg, st1, RtEmitList);
    ListedIfOn(cfg, st, on, Draining);
    LogsMore(cfg, st, es, st', Emission(true, on));
  }

  lemma EmitDataOn(cfg: Config, st: State, es: seq<Emission>, on: seq<bool>) returns (st': State)
    requires ValidConfig(cfg) && Alone(cfg, st, on, Copying) && Logs(cfg, st, es)
    ensures Alone(cfg, st', on, Idle) && Logs(cfg, st', es + [Emission(false, on)])
  {
    Step(cfg, st, RtEmitData(Blank(cfg)));
    st' := Next(cfg, st, RtEmitData(Blank(cfg)));
    ListedIfOn(cfg, st, on, Copying);
    LogsMore(cfg, st, es, st', Emission(false, on));
  }

  lemma LogsKeep(cfg: Config, st: State, es: seq<Emission>, st': State)
    requires ValidConfig(cfg) && Logs(cfg, st, es) && Inv(cfg, st') && st.history <= st'.history && st'.log == st.log
    ensures Logs(cfg, st', es)
  {
    forall i | 0 <= i < |es|
      ensures Emissions(cfg, st', |st'.log|)[i] == es[i]
    {
      assert PdoOk(cfg, st.log, st.samples, st.history, i);
    }
  }

  /** A cycle with a list: at least one signal changes, if only to change back. */
  lemma Relisted(cfg: Config, st: State, es: seq<Emission>, on: seq<bool>, on': seq<bool>) returns (st': State)
    requires ValidConfig(cfg) && Alone(cfg, st, on, Idle) && Logs(cfg, st, es) && |on'| == |on|
    ensures Alone(cfg, st', on', Copying) && Logs(cfg, st', es + [Emission(true, on')])
  {
    var st1 := ChangeFirst(cfg, st, on);
    var st2 := ChangeRest(cfg, st1, on[0 := !on[0]], on', 0);
    LogsKeep(cfg, st, es, st2);
    st' := EmitListOn(cfg, st2, es, on');
  }

  /** A cycle without a list. */
  lemma Continued(cfg: Config, st: State, es: seq<Emission>, on: seq<bool>) returns (st': State)
    requires ValidConfig(cfg) && Alone(cfg, st, on, Idle) && Logs(cfg, st, es)
    ensures Alone(cfg, st', on, Idle) && Logs(cfg, st', es + [Emission(false, on)])
  {
    Step(cfg, st, RtWake);
    var st1 := Next(cfg, st, RtWake);
    LogsKeep(cfg, st, es, st1);
    st' := EmitDataOn(cfg, st1, es, on);
  }

  /** The first frame, before anybody connects. */
  lemma FirstFrame(cfg: Config) returns (st: State)
    requires ValidConfig(cfg)
    ensures Inv(cfg, st) && Reached(cfg, st) && st.sessions == map[] && st.pending == [] && st.rt.phase.Idle?
    ensures st.nrt == InitialState(cfg).nrt && st.history == [NO_SIGNALS] && st.rt.listId == 0
    ensures |st.log| == 1 && st.log[0].DataPdo? && st.log[0].listId == 0
  {
    var st0 := InitialState(cfg);
    assert Run(cfg, []) == Some(st0);
    Step(cfg, st0, RtWake);
    var st1 := Next(cfg, st0, RtWake);
    Step(cfg, st1, RtEmitData(Blank(cfg)));
    st := Next(cfg, st1, RtEmitData(Blank(cfg)));
  }

  ghost predicate OneFrame(cfg: Config, st: State, x: Session)
    requires ValidConfig(cfg)
  {
    && Inv(cfg, st) && Reached(cfg, st) && st.sessions == map[SID := x] && st.pending == [] && st.rt.phase.Idle?
    && st.nrt == InitialState(cfg).nrt && |st.log| == 1 && st.log[0].DataPdo? && st.log[0].listId == 0
  }

  lemma Connected(cfg: Config) returns (st: State)
    requires ValidConfig(cfg)
    ensures OneFrame(cfg, st, InitialSession(cfg))
  {
    var st0 := FirstFrame(cfg);
    Step(cfg, st0, Connect(SID));
    st := Next(cfg, st0, Connect(SID));
    assert st.sessions == map[SID := InitialSession(cfg)];
  }

  /** A session catches up on it. */
  lemma CaughtUp(cfg: Config) returns (st: State)
    requires ValidConfig(cfg)
    ensures OneFrame(cfg, st, InitialSession(cfg).(phase := FetchingList, cursor := 0))
  {
    var st1 := Connected(cfg);
    Step(cfg, st1, CatchUp(SID));
    st := Next(cfg, st1, CatchUp(SID));
    assert st.sessions == map[SID := InitialSession(cfg).(phase := FetchingList, cursor := 0)];
  }

  /** It joins on it. */
  lemma Joined(cfg: Config) returns (st: State)
    requires ValidConfig(cfg) && |cfg| >= 1
    ensures Alone(cfg, st, NoneOn(|cfg|), Idle) && |st.log| == 1 && st.log[0].DataPdo?
  {
    var st2 := CaughtUp(cfg);
    Step(cfg, st2, FetchList(SID));
    var st3 := Next(cfg, st2, FetchList(SID));
    var x := st3.sessions[SID];
    assert x.phase.Scanning? && x.cursor == 0 && x.listId == 0 && x.subscribed == {};
    ScanSyncs(cfg, st3);
    st := Next(cfg, st3, Scan(SID));
  }

  lemma ScanSyncs(cfg: Config, st: State)
    requires ValidConfig(cfg) && Inv(cfg, st) && Reached(cfg, st) && SID in st.sessions
    requires var x := st.sessions[SID];
             && x.phase.Scanning? && x.cursor < |st.log| && st.log[x.cursor].DataPdo?
             && st.log[x.cursor].listId == x.listId
    ensures Enabled(cfg, st, Scan(SID))
    ensures var st' := Next(cfg, st, Scan(SID));
            && Inv(cfg, st') && Reached(cfg, st') && st'.sessions.Keys == st.sessions.Keys
            && st' == st.(sessions := st'.sessions)
            && st'.sessions[SID].phase.InSync? && st'.sessions[SID].subscribed == st.sessions[SID].subscribed
  {
    Step(cfg, st, Scan(SID));
  }

  lemma Started(cfg: Config) returns (st: State)
    requires ValidConfig(cfg) && |cfg| >= 1
    ensures Alone(cfg, st, NoneOn(|cfg|), Idle) && Logs(cfg, st, [Emission(false, NoneOn(|cfg|))])
  {
    st := Joined(cfg);
    ListedIfOn(cfg, st, NoneOn(|cfg|), Idle);
    assert PdoOk(cfg, st.log, st.samples, st.history, 0);
    assert Emissions(cfg, st, 1) == [Emission(false, NoneOn(|cfg|))];
  }

  /** Whatever the real-time task may emit, there is a run that has it in its log. */
  lemma {:induction false} Realized(cfg: Config, es: seq<Emission>) returns (st: State)
    requires ValidConfig(cfg) && |cfg| >= 1 && es != [] && Emittable(MemSizes(cfg), es)
    ensures Alone(cfg, st, Last(es).on, if Last(es).list then Copying else Idle) && Logs(cfg, st, es)
  {
    EmittableParts(MemSizes(cfg), es);
    var n := |es| - 1;
    if n == 0 {
      st := Started(cfg);
    } else {
      var st0 := Realized(cfg, es[..n]);
      st := RealizedNext(cfg, st0, es[..n], es[n]);
    }
  }

  lemma RealizedNext(cfg: Config, st: State, es: seq<Emission>, e: Emission) returns (st': State)
    requires ValidConfig(cfg) && es != [] && |e.on| == |cfg| && Follows(Last(es), e)
    requires Alone(cfg, st, Last(es).on, if Last(es).list then Copying else Idle) && Logs(cfg, st, es)
    ensures Alone(cfg, st', e.on, if e.list then Copying else Idle) && Logs(cfg, st', es + [e])
  {
    var on := Last(es).on;
    if Last(es).list {
      st' := EmitDataOn(cfg, st, es, on);
    } else if e.list {
      st' := Relisted(cfg, st, es, on, e.on);
    } else {
      st' := Continued(cfg, st, es, on);
    }
  }

  // ---- Survival in the runs of the protocol ----

  /** In every run, each frame of the log stays intact until minPdoCount - 2 more are emitted. */
  ghost predicate LogsSurvive(cfg: Config, r: PdoMemory.Region, m: nat)
    requires ValidConfig(cfg)
  {
    forall steps: seq<Action>, i, k
      :: Run(cfg, steps).Some? && 0 <= i < k < |Run(cfg, steps).value.log| && k - i <= m - 2 ==>
         PdoMemory.Intact(r, FramesOf(Run(cfg, steps).value.log), i, k)
  }

  /** A run with that log, in which the same frames are lost. */
  lemma LostInRun(cfg: Config, r: PdoMemory.Region, m: nat, es: seq<Emission>, i: nat, k: nat)
    requires ValidConfig(cfg) && |cfg| >= 1 && Lost(r, MemSizes(cfg), m, es, i, k)
    ensures !LogsSurvive(cfg, r, m)
  {
    var st := Realized(cfg, es);
    LogFrames(cfg, st);
    var steps: seq<Action> :| Run(cfg, steps) == Some(st);
    assert !PdoMemory.Intact(r, FramesOf(Run(cfg, steps).value.log), i, k);
  }

  /** Frames survive in all runs of the protocol exactly if there is enough room. */
  lemma LogsSurviveIff(cfg: Config, shmem: nat, m: nat)
    requires ValidConfig(cfg) && Positive(MemSizes(cfg)) && shmem % PdoMemory.WORD == 0 && m >= 10
    ensures var n, bytes := |cfg|, Total(MemSizes(cfg));
            LogsSurvive(cfg, PdoMemory.Prepare(shmem, n, bytes, m), m) <==> EnoughRoom(n, bytes, m)
  {
    var sizes := MemSizes(cfg);
    var r := PdoMemory.Prepare(shmem, |cfg|, Total(sizes), m);
    if EnoughRoom(|cfg|, Total(sizes), m) {
      forall steps: seq<Action>, i, k
        | Run(cfg, steps).Some? && 0 <= i < k < |Run(cfg, steps).value.log| && k - i <= m - 2
        ensures PdoMemory.Intact(r, FramesOf(Run(cfg, steps).value.log), i, k)
      {
        LogSurvives(cfg, steps, shmem, m, i, k);
      }
    } else {
      SurvivalIff(shmem, sizes, m);
      var es, i, k :| Emittable(sizes, es) && 0 <= i < k < |es| && k - i <= m - 2
                      && !PdoMemory.Intact(r, Frames(sizes, es), i, k);
      LostInRun(cfg, r, m, es, i, k);
    }
  }
}
