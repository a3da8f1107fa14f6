/** The streaming protocol between sessions, the NRT task and the RT task, as a state
    machine over its atomic steps.

    Memory is sequentially consistent, list ids do not wrap, and the frames (PDOs) that
    the RT task links into shared memory form a log. A session that finds its frame
    overwritten takes the Desync step. */
module Protocol {
  import opened Common
  import opened SignalLists

  type SessionId = nat

  datatype Pdo =
    | SignalListPdo(listId: nat, signals: seq<nat>)
    | DataPdo(listId: nat, seqNo: nat, data: seq<Byte>)

  /** The NRT image of Task together with the fields Task keeps in each Signal. */
  datatype Nrt = Nrt(
    lists: Lists,
    position: seq<nat>,
    sessions: seq<set<SessionId>>,
    subscriptionId: seq<nat>,
    listId: nat)

  /** Where rt_update stands. */
  datatype RtPhase = Idle | Draining | Listing | Copying

  datatype Rt = Rt(lists: Lists, listId: nat, seqNo: nat, phase: RtPhase)

  /** All phases but the last are the stages of SessionTaskData::init. A session that has looked at
      the memory before the first frame is Passing: it goes on with the second. */
  datatype SessionPhase = CatchingUp | FetchingList | Scanning(list: seq<nat>) | Passing(list: seq<nat>) | InSync

  datatype Session = Session(
    phase: SessionPhase,
    cursor: nat,
    seqNo: nat,
    listId: nat,
    positions: seq<nat>,
    pdoSize: nat,
    transferred: set<nat>,
    subscribed: set<nat>,
    active: set<nat>,
    frame: Option<nat>)

  /** samples[i] is the signal memory that frame i was made from and history[k] the
      signal lists after command k; neither is read by any step. */
  datatype State = State(
    nrt: Nrt,
    pending: seq<Command>,
    rt: Rt,
    log: seq<Pdo>,
    samples: seq<seq<seq<Byte>>>,
    history: seq<Lists>,
    sessions: map<SessionId, Session>)

  datatype Action =
    | Connect(sid: SessionId)
    | Subscribe(sid: SessionId, signal: nat)
    | Unsubscribe(sid: SessionId, signal: nat)
    | RtWake
    | RtConsume
    | RtDrained
    | RtEmitList
    | RtEmitData(mem: seq<seq<Byte>>)
    | CatchUp(sid: SessionId)
    | FetchList(sid: SessionId)
    | Scan(sid: SessionId)
    | Receive(sid: SessionId)
    | Desync(sid: SessionId)

  // ---- Task::subscribe under the mutex ----

  /** command is None where Task::subscribe returns true without publishing anything. */
  datatype TaskOutcome = TaskOutcome(nrt: Nrt, command: Option<Command>)

  ghost predicate Sized(cfg: Config, nrt: Nrt) {
    |nrt.position| == |nrt.sessions| == |nrt.subscriptionId| == |cfg|
  }

  function TaskInsert(cfg: Config, nrt: Nrt, s: nat, sid: SessionId): TaskOutcome
    requires ValidConfig(cfg) && Sized(cfg, nrt) && s < |cfg|
  {
    var joined := nrt.(sessions := nrt.sessions[s := nrt.sessions[s] + {sid}]);
    if nrt.sessions[s] != {} then TaskOutcome(joined, None)
    else
      var w, id := cfg[s].width, nrt.listId + 1;
      TaskOutcome(
        joined.(lists := nrt.lists[w := nrt.lists[w] + [s]],
                position := nrt.position[s := |nrt.lists[w]|],
                subscriptionId := nrt.subscriptionId[s := id],
                listId := id),
        Some(Insert(s, id)))
  }

  ghost predicate SignalOk(cfg: Config, nrt: Nrt, s: nat)
    requires ValidConfig(cfg) && Sized(cfg, nrt) && s < |cfg|
  {
    var l := nrt.lists[cfg[s].width];
    if nrt.sessions[s] == {} then s !in l
    else nrt.position[s] < |l| && l[nrt.position[s]] == s
  }

  function TaskRemove(cfg: Config, nrt: Nrt, s: nat, sid: SessionId): TaskOutcome
    requires ValidConfig(cfg) && Sized(cfg, nrt) && s < |cfg| && SignalOk(cfg, nrt, s)
    requires forall i :: 0 <= i < |nrt.lists[cfg[s].width]| ==> nrt.lists[cfg[s].width][i] < |cfg|
  {
    var left := nrt.(sessions := nrt.sessions[s := nrt.sessions[s] - {sid}]);
    if nrt.sessions[s] == {} || nrt.sessions[s] - {sid} != {} then TaskOutcome(left, None)
    else
      var w, id, p := cfg[s].width, nrt.listId + 1, nrt.position[s];
      var last := nrt.lists[w][|nrt.lists[w]| - 1];
      TaskOutcome(
        left.(lists := nrt.lists[w := SwapRemove(nrt.lists[w], p)],
              position := nrt.position[last := p],
              subscriptionId := nrt.subscriptionId[s := id],
              listId := id),
        Some(Remove(s, p, id)))
  }

  // ---- SessionTaskData ----

  function Load(cfg: Config, subscriptionId: seq<nat>, x: Session, l: seq<nat>, id: nat): Session
    requires InRange(cfg, l) && |subscriptionId| == |cfg|
  {
    x.(listId := id,
       positions := Positions(cfg, l),
       pdoSize := TotalSize(cfg, l),
       transferred := (set s | s in l),
       active := x.active + (set s | s in l && s in x.subscribed && s < |cfg| && subscriptionId[s] <= id))
  }

  /** One turn of the loop in rxPdo, on the frame after the cursor. */
  function ReceiveOne(cfg: Config, subscriptionId: seq<nat>, x: Session, p: Pdo): Session
    requires |subscriptionId| == |cfg|
  {
    var y := x.(cursor := x.cursor + 1);
    match p
    case SignalListPdo(id, l) =>
      if forall i :: 0 <= i < |l| ==> l[i] < |cfg| then Load(cfg, subscriptionId, y, l, id)
      else y.(phase := CatchingUp)
    case DataPdo(id, seqNo, _) =>
      if id != x.listId || seqNo != x.seqNo + 1 then y.(phase := CatchingUp)
      else y.(seqNo := seqNo, frame := Some(y.cursor))
  }

  /** The do loop of init, on the frame at the cursor; log is non-empty from there. */
  function ScanOne(cfg: Config, subscriptionId: seq<nat>, x: Session, p: Pdo): Session
    requires |subscriptionId| == |cfg| && x.phase.Scanning? && InRange(cfg, x.phase.list)
  {
    match p
    case SignalListPdo(_, _) => x.(cursor := x.cursor + 1)
    case DataPdo(id, seqNo, _) =>
      if id != x.listId then x.(phase := FetchingList)
      else Load(cfg, subscriptionId, x.(phase := InSync, seqNo := seqNo), x.phase.list, id)
  }

  /** What getValue returns: a pointer into the current frame, read for the signal's size. */
  function GetValue(cfg: Config, log: seq<Pdo>, x: Session, s: nat): Option<seq<Byte>> {
    if s < |cfg| && s < |x.positions| && x.frame.Some? && x.frame.value < |log| && log[x.frame.value].DataPdo?
    then
      var o := x.positions[s];
      if o + cfg[s].memSize <= |log[x.frame.value].data|
      then Some(log[x.frame.value].data[o..o + cfg[s].memSize]) else None
    else None
  }

  // ---- The machine ----

  function InitialSession(cfg: Config): Session {
    Session(CatchingUp, 0, 0, 0, seq(|cfg|, _ => 0), 0, {}, {}, {}, None)
  }

  function InitialState(cfg: Config): State {
    State(
      Nrt(NO_SIGNALS, seq(|cfg|, _ => 0), seq(|cfg|, _ => {}), seq(|cfg|, _ => 0), 0),
      [], Rt(NO_SIGNALS, 0, 0, Idle), [], [], [NO_SIGNALS], map[])
  }

  /** The command ring has two slots per signal, one of which stays empty; Task::subscribe
      waits for room before it looks at anything else. */
  ghost predicate RingHasRoom(cfg: Config, st: State) {
    |st.pending| + 1 < 2 * |cfg|
  }

  ghost predicate SyncedSession(st: State, sid: SessionId) {
    sid in st.sessions && st.sessions[sid].phase.InSync?
  }

  ghost predicate Enabled(cfg: Config, st: State, a: Action)
    requires ValidConfig(cfg) && Inv(cfg, st)
  {
    match a
    case Connect(sid) => sid !in st.sessions
    case Subscribe(sid, s) =>
      SyncedSession(st, sid) && s < |cfg| && (s in st.sessions[sid].subscribed || RingHasRoom(cfg, st))
    case Unsubscribe(sid, s) =>
      SyncedSession(st, sid) && s < |cfg| && (s !in st.sessions[sid].subscribed || RingHasRoom(cfg, st))
    case RtWake => st.rt.phase.Idle?
    case RtConsume => st.rt.phase.Draining? && st.pending != []
    case RtDrained => st.rt.phase.Draining? && st.pending == []
    case RtEmitList => st.rt.phase.Listing?
    case RtEmitData(mem) => st.rt.phase.Copying? && ValidMemory(cfg, mem)
    case CatchUp(sid) => sid in st.sessions && st.sessions[sid].phase.CatchingUp?
    case FetchList(sid) => sid in st.sessions && st.sessions[sid].phase.FetchingList?
    case Scan(sid) =>
      && sid in st.sessions
      && var x := st.sessions[sid];
         || (x.phase.Scanning? && (x.cursor == |st.log| || st.log[x.cursor].DataPdo? || x.cursor + 1 < |st.log|))
         || (x.phase.Passing? && x.cursor + 1 < |st.log|)
    case Receive(sid) => SyncedSession(st, sid) && st.sessions[sid].cursor + 1 < |st.log|
    case Desync(sid) => SyncedSession(st, sid) && st.sessions[sid].cursor + 1 < |st.log|
  }

  function Publish(st: State, o: TaskOutcome, sid: SessionId, x: Session): State {
    var st1 := st.(nrt := o.nrt, sessions := st.sessions[sid := x]);
    if o.command.None? then st1
    else st1.(pending := st.pending + [o.command.value], history := st.history + [o.nrt.lists])
  }

  ghost function SubscribeStep(cfg: Config, st: State, sid: SessionId, s: nat): State
    requires ValidConfig(cfg) && Inv(cfg, st) && SyncedSession(st, sid) && s < |cfg|
  {
    var x := st.sessions[sid];
    if s in x.active || s in x.subscribed then st
    else
      var o := TaskInsert(cfg, st.nrt, s, sid);
      var now := o.command.None? && s in x.transferred;
      Publish(st, o, sid, x.(subscribed := x.subscribed + {s},
                             active := if now then x.active + {s} else x.active))
  }

  ghost function UnsubscribeStep(cfg: Config, st: State, sid: SessionId, s: nat): State
    requires ValidConfig(cfg) && Inv(cfg, st) && SyncedSession(st, sid) && s < |cfg|
  {
    var x := st.sessions[sid];
    if s !in x.subscribed then st
    else
      assert SignalOk(cfg, st.nrt, s);
      assert ClassOk(cfg, cfg[s].width, st.nrt.lists[cfg[s].width]);
      Publish(st, TaskRemove(cfg, st.nrt, s, sid), sid,
              x.(subscribed := x.subscribed - {s}, active := x.active - {s}))
  }

  ghost function ConsumeStep(cfg: Config, st: State): State
    requires ValidConfig(cfg) && Inv(cfg, st) && st.pending != []
  {
    var c := st.pending[0];
    assert CommandOk(cfg, st.pending, st.rt, st.history, 0);
    st.(pending := st.pending[1..], rt := st.rt.(lists := Apply(cfg, st.rt.lists, c), listId := c.id))
  }

  ghost function Next(cfg: Config, st: State, a: Action): State
    requires ValidConfig(cfg) && Inv(cfg, st) && Enabled(cfg, st, a)
  {
    match a
    case Connect(sid) => st.(sessions := st.sessions[sid := InitialSession(cfg)])
    case Subscribe(sid, s) => SubscribeStep(cfg, st, sid, s)
    case Unsubscribe(sid, s) => UnsubscribeStep(cfg, st, sid, s)
    case RtWake => st.(rt := st.rt.(phase := if st.pending != [] then Draining else Copying))
    case RtConsume => ConsumeStep(cfg, st)
    case RtDrained => st.(rt := st.rt.(phase := Listing))
    case RtEmitList =>
      st.(log := st.log + [SignalListPdo(st.rt.listId, Flatten(st.rt.lists))],
          samples := st.samples + [[]],
          rt := st.rt.(phase := Copying))
    case RtEmitData(mem) =>
      FlattenListed(cfg, st.rt.lists);
      st.(log := st.log + [DataPdo(st.rt.listId, st.rt.seqNo, Encode(mem, Flatten(st.rt.lists)))],
          samples := st.samples + [mem],
          rt := st.rt.(phase := Idle, seqNo := st.rt.seqNo + 1))
    case CatchUp(sid) =>
      var cursor := if st.log == [] then 0 else |st.log| - 1;
      st.(sessions := st.sessions[sid := st.sessions[sid].(phase := FetchingList, cursor := cursor)])
    case FetchList(sid) =>
      st.(sessions := st.sessions[sid := st.sessions[sid].(phase := Scanning(Flatten(st.nrt.lists)),
                                                           listId := st.nrt.listId)])
    case Scan(sid) =>
      var x := st.sessions[sid];
      assert SessionOk(cfg, st.nrt, st.log, st.history, sid, x);
      FlattenListed(cfg, st.history[x.listId]);
      var y := if x.phase.Passing? then x.(phase := Scanning(x.phase.list), cursor := x.cursor + 1)
               else if x.cursor == |st.log| then x.(phase := Passing(x.phase.list))
               else ScanOne(cfg, st.nrt.subscriptionId, x, st.log[x.cursor]);
      st.(sessions := st.sessions[sid := y])
    case Receive(sid) =>
      var x := st.sessions[sid];
      st.(sessions := st.sessions[sid := ReceiveOne(cfg, st.nrt.subscriptionId, x, st.log[x.cursor + 1])])
    case Desync(sid) =>
      var x := st.sessions[sid];
      st.(sessions := st.sessions[sid := x.(phase := CatchingUp, cursor := x.cursor + 1)])
  }

  // ---- The invariant, one predicate per component ----

  ghost predicate NrtOk(cfg: Config, nrt: Nrt)
    requires ValidConfig(cfg)
  {
    && Sized(cfg, nrt)
    && WellFormed(cfg, nrt.lists)
    && forall s :: 0 <= s < |cfg| ==> SignalOk(cfg, nrt, s)
  }

  ghost predicate HistoryOk(cfg: Config, nrt: Nrt, history: seq<Lists>) {
    && |history| == nrt.listId + 1
    && history[nrt.listId] == nrt.lists
    && forall k :: 0 <= k < |history| ==> WellFormed(cfg, history[k])
  }

  /** subscriptionId[s] is the last id at which the listing of s changed. */
  ghost predicate SpanOk(cfg: Config, nrt: Nrt, history: seq<Lists>, s: nat)
    requires ValidConfig(cfg) && Sized(cfg, nrt) && s < |cfg|
  {
    var from, on := nrt.subscriptionId[s], nrt.sessions[s] != {};
    && from < |history|
    && (forall k :: from <= k < |history| ==> Listed(cfg, history[k], s) == on)
    && (if from == 0 then !on else Listed(cfg, history[from - 1], s) != on)
  }

  ghost predicate CommandOk(cfg: Config, pending: seq<Command>, rt: Rt, history: seq<Lists>, k: nat)
    requires ValidConfig(cfg) && k < |pending| && rt.listId + |pending| + 1 == |history|
  {
    var before := history[rt.listId + k];
    && pending[k].id == rt.listId + k + 1
    && Applicable(cfg, before, pending[k])
    && Apply(cfg, before, pending[k]) == history[rt.listId + k + 1]
  }

  ghost predicate PendingOk(cfg: Config, pending: seq<Command>, rt: Rt, history: seq<Lists>)
    requires ValidConfig(cfg)
  {
    && rt.listId + |pending| + 1 == |history|
    && rt.lists == history[rt.listId]
    && forall k :: 0 <= k < |pending| ==> CommandOk(cfg, pending, rt, history, k)
  }

  function DataCount(log: seq<Pdo>, n: nat): nat
    requires n <= |log|
  {
    if n == 0 then 0 else DataCount(log, n - 1) + if log[n - 1].DataPdo? then 1 else 0
  }

  ghost predicate PdoOk(cfg: Config, log: seq<Pdo>, samples: seq<seq<seq<Byte>>>, history: seq<Lists>, i: nat)
    requires ValidConfig(cfg) && |samples| == |log| && i < |log|
  {
    && log[i].listId < |history|
    && (i > 0 ==> log[i - 1].listId <= log[i].listId)
    && match log[i]
       case SignalListPdo(id, l) => l == Flatten(history[id])
       case DataPdo(id, seqNo, data) =>
         && ValidMemory(cfg, samples[i])
         && InRange(cfg, Flatten(history[id]))
         && data == Encode(samples[i], Flatten(history[id]))
         && seqNo == DataCount(log, i)
         && (i > 0 ==> log[i - 1].listId == id)
  }

  ghost predicate LogOk(cfg: Config, log: seq<Pdo>, samples: seq<seq<seq<Byte>>>, history: seq<Lists>)
    requires ValidConfig(cfg)
  {
    && |samples| == |log|
    && forall i :: 0 <= i < |log| ==> PdoOk(cfg, log, samples, history, i)
  }

  function TailId(log: seq<Pdo>): nat {
    if log == [] then 0 else log[|log| - 1].listId
  }

  /** Between draining the ring and emitting the new list, the tail may be older. */
  ghost predicate RtLogOk(rt: Rt, log: seq<Pdo>) {
    && rt.seqNo == DataCount(log, |log|)
    && TailId(log) <= rt.listId
    && (rt.phase.Idle? || rt.phase.Copying? ==> TailId(log) == rt.listId)
  }

  ghost predicate Loaded(cfg: Config, x: Session, l: seq<nat>) {
    && InRange(cfg, l)
    && x.positions == Positions(cfg, l)
    && x.pdoSize == TotalSize(cfg, l)
    && x.transferred == (set s | s in l)
  }

  ghost predicate SubscribedOk(cfg: Config, nrt: Nrt, sid: SessionId, x: Session)
    requires Sized(cfg, nrt)
  {
    && (forall s :: s in x.subscribed ==> s < |cfg|)
    && (forall s :: 0 <= s < |cfg| ==> (s in x.subscribed <==> sid in nrt.sessions[s]))
    && x.active <= x.subscribed
    && x.listId <= nrt.listId
  }

  ghost predicate SyncOk(cfg: Config, nrt: Nrt, log: seq<Pdo>, history: seq<Lists>, x: Session)
    requires Sized(cfg, nrt) && x.cursor < |log| && x.listId < |history|
  {
    && x.listId == log[x.cursor].listId
    && DataCount(log, x.cursor + 1) == x.seqNo + 1
    && Loaded(cfg, x, Flatten(history[x.listId]))
    && forall s :: s in x.subscribed && s < |cfg| && nrt.subscriptionId[s] <= x.listId ==> s in x.active
  }

  ghost predicate FrameOk(log: seq<Pdo>, x: Session) {
    x.frame.Some? ==> x.frame.value < |log| && log[x.frame.value].DataPdo?
  }

  ghost predicate SessionOk(cfg: Config, nrt: Nrt, log: seq<Pdo>, history: seq<Lists>, sid: SessionId, x: Session)
    requires ValidConfig(cfg) && Sized(cfg, nrt) && |history| == nrt.listId + 1
  {
    && |x.positions| == |cfg|
    && SubscribedOk(cfg, nrt, sid, x)
    && FrameOk(log, x)
    && (x.phase.InSync? ==> x.cursor < |log|)
    && (!x.phase.CatchingUp? ==> x.cursor < |log| || |log| == x.cursor == 0)
    && (x.phase.Scanning? || x.phase.Passing? ==> x.phase.list == Flatten(history[x.listId]))
    && (x.phase.InSync? ==> SyncOk(cfg, nrt, log, history, x))
  }

  ghost predicate Inv(cfg: Config, st: State)
    requires ValidConfig(cfg)
  {
    && NrtOk(cfg, st.nrt)
    && HistoryOk(cfg, st.nrt, st.history)
    && (forall s :: 0 <= s < |cfg| ==> SpanOk(cfg, st.nrt, st.history, s))
    && PendingOk(cfg, st.pending, st.rt, st.history)
    && LogOk(cfg, st.log, st.samples, st.history)
    && RtLogOk(st.rt, st.log)
    && (forall s :: 0 <= s < |cfg| ==> st.nrt.sessions[s] <= st.sessions.Keys)
    && (forall sid :: sid in st.sessions ==>
          SessionOk(cfg, st.nrt, st.log, st.history, sid, st.sessions[sid]))
  }
}
