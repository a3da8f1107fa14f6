/** What a session gets for what it asks: RT sends exactly the signals that somebody wants, once it
    has consumed the commands, and a session that has subscribed reads the value. */
module ProtocolPromises {
  import opened Common
  import opened SignalLists
  import opened Protocol
  import opened ProtocolInvariant
  import opened ProtocolTheorems

  // ---- What is wanted ----

  /** The last that the session has asked for about s was to subscribe. */
  predicate Wants(steps: seq<Action>, sid: SessionId, s: nat) {
    if steps == [] then false
    else
      var a := steps[|steps| - 1];
      if a == Subscribe(sid, s) then true
      else if a == Unsubscribe(sid, s) then false
      else Wants(steps[..|steps| - 1], sid, s)
  }

  ghost predicate IsWanted(steps: seq<Action>, s: nat) {
    exists sid: SessionId :: Wants(steps, sid, s)
  }

  ghost predicate Subscribes(st: State, sid: SessionId, s: nat) {
    sid in st.sessions && s in st.sessions[sid].subscribed
  }

  lemma SubscribesNext(cfg: Config, st: State, a: Action, sid: SessionId, s: nat)
    requires ValidConfig(cfg) && Inv(cfg, st) && Enabled(cfg, st, a)
    ensures Subscribes(Next(cfg, st, a), sid, s)
            <==> a == Subscribe(sid, s) || (a != Unsubscribe(sid, s) && Subscribes(st, sid, s))
  {
    match a
    case Subscribe(other, t) => SubscribesAfterSubscribe(cfg, st, other, t, sid, s);
    case Unsubscribe(other, t) => SubscribesAfterUnsubscribe(cfg, st, other, t, sid, s);
    case Scan(other) =>
      assert SessionOk(cfg, st.nrt, st.log, st.history, other, st.sessions[other]);
    case _ =>
  }

  lemma SubscribesAfterSubscribe(cfg: Config, st: State, other: SessionId, t: nat, sid: SessionId, s: nat)
    requires ValidConfig(cfg) && Inv(cfg, st) && SyncedSession(st, other) && t < |cfg|
    ensures Subscribes(SubscribeStep(cfg, st, other, t), sid, s)
            <==> (other == sid && t == s) || Subscribes(st, sid, s)
  {
    assert SessionOk(cfg, st.nrt, st.log, st.history, other, st.sessions[other]);
  }

  lemma SubscribesAfterUnsubscribe(cfg: Config, st: State, other: SessionId, t: nat, sid: SessionId, s: nat)
    requires ValidConfig(cfg) && Inv(cfg, st) && SyncedSession(st, other) && t < |cfg|
    ensures Subscribes(UnsubscribeStep(cfg, st, other, t), sid, s)
            <==> (other != sid || t != s) && Subscribes(st, sid, s)
  {
  }

  /** In every run, a session subscribes to what it wants, and NRT and the lists know. */
  lemma {:induction false} SubscribedAsWanted(cfg: Config, steps: seq<Action>, sid: SessionId, s: nat)
    requires ValidConfig(cfg) && Run(cfg, steps).Some?
    ensures Subscribes(Run(cfg, steps).value, sid, s) <==> Wants(steps, sid, s)
    decreases |steps|
  {
    if steps != [] {
      var before, a := steps[..|steps| - 1], steps[|steps| - 1];
      SubscribedAsWanted(cfg, before, sid, s);
      SubscribesNext(cfg, Run(cfg, before).value, a, sid, s);
    }
  }

  lemma ListedIfSubscribed(cfg: Config, st: State, s: nat)
    requires ValidConfig(cfg) && Inv(cfg, st) && s < |cfg|
    ensures Listed(cfg, st.nrt.lists, s) <==> exists sid :: Subscribes(st, sid, s)
  {
    assert SignalOk(cfg, st.nrt, s);
    forall sid | sid in st.sessions
      ensures Subscribes(st, sid, s) <==> sid in st.nrt.sessions[s]
    {
      assert SessionOk(cfg, st.nrt, st.log, st.history, sid, st.sessions[sid]);
    }
    if st.nrt.sessions[s] != {} {
      var sid :| sid in st.nrt.sessions[s];
      assert Subscribes(st, sid, s);
    }
  }

  /** Each wanted signal once, and no other. */
  ghost predicate ExactlyWanted(cfg: Config, steps: seq<Action>, order: seq<nat>) {
    NoDup(order) && forall s: nat :: s in order <==> s < |cfg| && IsWanted(steps, s)
  }

  lemma OrderIsWanted(cfg: Config, steps: seq<Action>)
    requires ValidConfig(cfg) && Run(cfg, steps).Some?
    ensures ExactlyWanted(cfg, steps, Flatten(Run(cfg, steps).value.nrt.lists))
  {
    var st := Run(cfg, steps).value;
    FlattenListed(cfg, st.nrt.lists);
    forall s: nat | s < |cfg|
      ensures Listed(cfg, st.nrt.lists, s) <==> IsWanted(steps, s)
    {
      ListedIfSubscribed(cfg, st, s);
      WantedIfSubscribed(cfg, steps, s);
    }
  }

  lemma WantedIfSubscribed(cfg: Config, steps: seq<Action>, s: nat)
    requires ValidConfig(cfg) && Run(cfg, steps).Some?
    ensures IsWanted(steps, s) <==> exists sid :: Subscribes(Run(cfg, steps).value, sid, s)
  {
    forall sid
      ensures Subscribes(Run(cfg, steps).value, sid, s) <==> Wants(steps, sid, s)
    {
      SubscribedAsWanted(cfg, steps, sid, s);
    }
  }

  // ---- Steps from a state on ----

  ghost function After(cfg: Config, st: State, more: seq<Action>): (r: Option<State>)
    requires ValidConfig(cfg) && Inv(cfg, st)
    ensures r.Some? ==> Inv(cfg, r.value)
    decreases |more|
  {
    if more == [] then Some(st)
    else if !Enabled(cfg, st, more[0]) then None
    else
      NextKeepsInv(cfg, st, more[0]);
      After(cfg, Next(cfg, st, more[0]), more[1..])
  }

  lemma {:induction false} RunAfter(cfg: Config, steps: seq<Action>, st: State, more: seq<Action>)
    requires ValidConfig(cfg) && Run(cfg, steps) == Some(st) && Inv(cfg, st)
    ensures After(cfg, st, more).Some? ==> Run(cfg, steps + more) == After(cfg, st, more)
    decreases |more|
  {
    if more == [] {
      assert steps + more == steps;
    } else if Enabled(cfg, st, more[0]) {
      var first := steps + [more[0]];
      RunSnoc(cfg, steps, more[0]);
      Regroup(steps, more);
      RunAfter(cfg, first, Next(cfg, st, more[0]), more[1..]);
    }
  }

  lemma Regroup(steps: seq<Action>, more: seq<Action>)
    requires more != []
    ensures steps + [more[0]] + more[1..] == steps + more
  {
  }

  lemma FirstStep(cfg: Config, st: State, a: Action, more: seq<Action>)
    requires ValidConfig(cfg) && Inv(cfg, st) && Enabled(cfg, st, a)
    ensures Inv(cfg, Next(cfg, st, a))
    ensures After(cfg, st, [a] + more) == After(cfg, Next(cfg, st, a), more)
  {
    NextKeepsInv(cfg, st, a);
    assert ([a] + more)[1..] == more;
  }

  lemma {:induction false} InParts(cfg: Config, st: State, first: seq<Action>, st': State, more: seq<Action>)
    requires ValidConfig(cfg) && Inv(cfg, st) && After(cfg, st, first) == Some(st') && Inv(cfg, st')
    ensures After(cfg, st, first + more) == After(cfg, st', more)
    decreases |first|
  {
    if first == [] {
      assert first + more == more;
    } else {
      NextKeepsInv(cfg, st, first[0]);
      assert (first + more)[1..] == first[1..] + more;
      InParts(cfg, Next(cfg, st, first[0]), first[1..], st', more);
    }
  }

  // ---- One cycle of RT ----

  function Consumes(k: nat): seq<Action> {
    if k == 0 then [] else [RtConsume] + Consumes(k - 1)
  }

  /** rt_update while k commands wait and no more come. */
  function Cycle(k: nat, mem: seq<seq<Byte>>): seq<Action> {
    [RtWake] + if k == 0 then [RtEmitData(mem)] else Consumes(k) + [RtDrained, RtEmitList, RtEmitData(mem)]
  }

  /** All commands have been consumed. */
  function Replayed(st: State): State {
    st.(pending := [], rt := st.rt.(lists := st.nrt.lists, listId := st.nrt.listId))
  }

  lemma {:induction false} AllConsumed(cfg: Config, st: State)
    requires ValidConfig(cfg) && Inv(cfg, st) && st.rt.phase.Draining?
    ensures After(cfg, st, Consumes(|st.pending|)) == Some(Replayed(st)) && Inv(cfg, Replayed(st))
    decreases |st.pending|
  {
    if st.pending == [] {
      assert Replayed(st) == st;
    } else {
      var st1 := ConsumeStep(cfg, st);
      FirstStep(cfg, st, RtConsume, Consumes(|st.pending| - 1));
      AllConsumed(cfg, st1);
    }
  }

  /** st' is st with the frames of a cycle: the list of the newest id, if commands were waiting, and
      the data, in the order of that list. */
  ghost predicate Served(cfg: Config, st: State, mem: seq<seq<Byte>>, st': State)
    requires ValidConfig(cfg)
  {
    var order := Flatten(st.nrt.lists);
    && (forall i :: 0 <= i < |order| ==> order[i] < |mem|)
    && st'.pending == [] && st'.rt.phase.Idle? && st'.nrt == st.nrt && st'.sessions == st.sessions
    && st'.log == st.log + (if st.pending == [] then [] else [SignalListPdo(st.nrt.listId, order)])
                  + [DataPdo(st.nrt.listId, DataCount(st.log, |st.log|), Encode(mem, order))]
    && |st'.samples| == |st'.log| && st'.samples[|st'.log| - 1] == mem
  }

  lemma Emitting(cfg: Config, st: State, mem: seq<seq<Byte>>) returns (st': State)
    requires ValidConfig(cfg) && Inv(cfg, st) && ValidMemory(cfg, mem)
    requires st.rt.phase.Copying? && st.rt.lists == st.nrt.lists && st.rt.listId == st.nrt.listId && st.pending == []
    ensures After(cfg, st, [RtEmitData(mem)]) == Some(st') && Served(cfg, st, mem, st')
  {
    FlattenListed(cfg, st.nrt.lists);
    FirstStep(cfg, st, RtEmitData(mem), []);
    assert [RtEmitData(mem)] + [] == [RtEmitData(mem)];
    st' := Next(cfg, st, RtEmitData(mem));
  }

  lemma WakeAndDrain(cfg: Config, st: State) returns (st': State)
    requires ValidConfig(cfg) && Inv(cfg, st) && st.rt.phase.Idle? && st.pending != []
    ensures After(cfg, st, [RtWake] + Consumes(|st.pending|)) == Some(st') && Inv(cfg, st')
    ensures st' == Replayed(st).(rt := Replayed(st).rt.(phase := Draining))
  {
    FirstStep(cfg, st, RtWake, Consumes(|st.pending|));
    var st1 := Next(cfg, st, RtWake);
    AllConsumed(cfg, st1);
    st' := Replayed(st1);
  }

  lemma ListAndData(cfg: Config, st: State, mem: seq<seq<Byte>>) returns (st': State)
    requires ValidConfig(cfg) && Inv(cfg, st) && ValidMemory(cfg, mem)
    requires st.rt.phase.Draining? && st.pending == []
    requires st.rt.lists == st.nrt.lists && st.rt.listId == st.nrt.listId
    ensures After(cfg, st, [RtDrained, RtEmitList, RtEmitData(mem)]) == Some(st')
    ensures exists st2 :: ListEmitted(st, st2) && Served(cfg, st2, mem, st')
  {
    var more := [RtEmitList, RtEmitData(mem)];
    assert [RtDrained] + more == [RtDrained, RtEmitList, RtEmitData(mem)];
    FirstStep(cfg, st, RtDrained, more);
    var st1 := Next(cfg, st, RtDrained);
    assert [RtEmitList] + [RtEmitData(mem)] == more;
    FirstStep(cfg, st1, RtEmitList, [RtEmitData(mem)]);
    var st2 := Next(cfg, st1, RtEmitList);
    st' := Emitting(cfg, st2, mem);
    assert ListEmitted(st, st2);
  }

  /** A list has been emitted. */
  ghost predicate ListEmitted(st: State, st': State) {
    && st'.log == st.log + [SignalListPdo(st.nrt.listId, Flatten(st.nrt.lists))]
    && st'.nrt == st.nrt && st'.sessions == st.sessions && st'.pending == st.pending == []
  }

  lemma ServedAfterList(cfg: Config, st: State, st1: State, st2: State, mem: seq<seq<Byte>>, st': State)
    requires ValidConfig(cfg) && ListEmitted(st1, st2) && Served(cfg, st2, mem, st') && st.pending != []
    requires st1.log == st.log && st1.nrt == st.nrt && st1.sessions == st.sessions
    ensures Served(cfg, st, mem, st')
  {
    DataCountAppend(st.log, SignalListPdo(st.nrt.listId, Flatten(st.nrt.lists)), |st.log|);
  }

  lemma CycleServes(cfg: Config, st: State, mem: seq<seq<Byte>>) returns (st': State)
    requires ValidConfig(cfg) && Inv(cfg, st) && st.rt.phase.Idle? && ValidMemory(cfg, mem)
    ensures After(cfg, st, Cycle(|st.pending|, mem)) == Some(st') && Served(cfg, st, mem, st')
  {
    if st.pending == [] {
      FirstStep(cfg, st, RtWake, [RtEmitData(mem)]);
      st' := Emitting(cfg, Next(cfg, st, RtWake), mem);
    } else {
      var first, rest := [RtWake] + Consumes(|st.pending|), [RtDrained, RtEmitList, RtEmitData(mem)];
      var st1 := WakeAndDrain(cfg, st);
      st' := ListAndData(cfg, st1, mem);
      var st2 :| ListEmitted(st1, st2) && Served(cfg, st2, mem, st');
      InParts(cfg, st, first, st1, rest);
      assert first + rest == Cycle(|st.pending|, mem);
      ServedAfterList(cfg, st, st1, st2, mem, st');
    }
  }

  /** In every run, when RT is idle, one cycle sends the signals that are wanted: each once and no
      others, behind a list of them if and only if commands were waiting. */
  lemma {:induction false} CycleSendsWanted(cfg: Config, steps: seq<Action>, mem: seq<seq<Byte>>) returns (st': State)
    requires ValidConfig(cfg) && Run(cfg, steps).Some? && ValidMemory(cfg, mem)
    requires Run(cfg, steps).value.rt.phase.Idle?
    ensures var st := Run(cfg, steps).value;
            && Run(cfg, steps + Cycle(|st.pending|, mem)) == Some(st') && Served(cfg, st, mem, st')
            && ExactlyWanted(cfg, steps, Flatten(st.nrt.lists))
  {
    var st := Run(cfg, steps).value;
    st' := CycleServes(cfg, st, mem);
    RunAfter(cfg, steps, st, Cycle(|st.pending|, mem));
    OrderIsWanted(cfg, steps);
  }

  // ---- The session's part ----

  function Receives(sid: SessionId, n: nat): seq<Action> {
    if n == 0 then [] else [Receive(sid)] + Receives(sid, n - 1)
  }

  /** The session reads from the last frame of the log, and has its list. */
  ghost predicate UpToDate(cfg: Config, st: State, sid: SessionId) {
    && SyncedSession(st, sid)
    && var x := st.sessions[sid];
       && x.cursor + 1 == |st.log| && x.frame == Some(x.cursor)
       && forall s :: s in x.transferred ==> Decodes(cfg, st, x, s)
  }

  /** Only the session sid may be different, and subscribes to the same. */
  ghost predicate OnlySession(st: State, st': State, sid: SessionId) {
    && sid in st.sessions && sid in st'.sessions
    && st' == st.(sessions := st'.sessions)
    && st'.sessions[sid].subscribed == st.sessions[sid].subscribed
  }

  lemma SessionOnly(st: State, st1: State, st': State, sid: SessionId)
    requires OnlySession(st, st1, sid) && OnlySession(st1, st', sid)
    ensures OnlySession(st, st', sid)
  {
  }

  lemma OneFrame(cfg: Config, st: State, sid: SessionId) returns (st': State)
    requires ValidConfig(cfg) && Inv(cfg, st) && SyncedSession(st, sid) && st.sessions[sid].cursor + 1 < |st.log|
    ensures Enabled(cfg, st, Receive(sid)) && st' == Next(cfg, st, Receive(sid)) && Inv(cfg, st')
    ensures SyncedSession(st', sid) && OnlySession(st, st', sid)
    ensures st'.sessions[sid].cursor == st.sessions[sid].cursor + 1
    ensures st'.sessions[sid].cursor + 1 == |st.log| && st.log[|st.log| - 1].DataPdo? ==> UpToDate(cfg, st', sid)
  {
    NextKeepsInv(cfg, st, Receive(sid));
    AcceptedAt(cfg, st, sid);
    st' := Next(cfg, st, Receive(sid));
  }

  lemma {:induction false} CatchesUp(cfg: Config, st: State, sid: SessionId, n: nat) returns (st': State)
    requires ValidConfig(cfg) && Inv(cfg, st) && SyncedSession(st, sid) && n > 0
    requires st.sessions[sid].cursor + 1 + n == |st.log| && st.log[|st.log| - 1].DataPdo?
    ensures After(cfg, st, Receives(sid, n)) == Some(st')
    ensures OnlySession(st, st', sid) && UpToDate(cfg, st', sid)
    decreases n
  {
    var st1 := OneFrame(cfg, st, sid);
    FirstStep(cfg, st, Receive(sid), Receives(sid, n - 1));
    st' := st1;
    if n > 1 {
      st' := CatchesUp(cfg, st1, sid, n - 1);
      SessionOnly(st, st1, st', sid);
    }
  }

  /** Everything that the session subscribes to can be read, if the last frame has the newest id. */
  lemma UpToDateReads(cfg: Config, st: State, sid: SessionId, s: nat)
    requires ValidConfig(cfg) && Inv(cfg, st) && UpToDate(cfg, st, sid) && s in st.sessions[sid].subscribed
    requires TailId(st.log) == st.nrt.listId
    ensures s in st.sessions[sid].active && Decodes(cfg, st, st.sessions[sid], s)
  {
    var x := st.sessions[sid];
    assert SessionOk(cfg, st.nrt, st.log, st.history, sid, x);
    assert SpanOk(cfg, st.nrt, st.history, s);
    SettledReadable(cfg, st, sid, s);
  }

  /** getValue gives the bytes that RT copied in its last cycle. */
  ghost predicate Reads(cfg: Config, st: State, sid: SessionId, s: nat, mem: seq<seq<Byte>>) {
    && SyncedSession(st, sid) && s in st.sessions[sid].active && s < |mem|
    && GetValue(cfg, st.log, st.sessions[sid], s) == Some(mem[s])
  }

  /** One cycle of RT, and the session receives what it sends. */
  function Round(k: nat, mem: seq<seq<Byte>>, sid: SessionId): seq<Action> {
    Cycle(k, mem) + Receives(sid, if k == 0 then 1 else 2)
  }

  lemma ReceivesServed(cfg: Config, st: State, mem: seq<seq<Byte>>, st1: State, sid: SessionId)
    returns (st': State)
    requires ValidConfig(cfg) && Inv(cfg, st1) && Served(cfg, st, mem, st1)
    requires SyncedSession(st, sid) && st.sessions[sid].cursor + 1 == |st.log|
    ensures After(cfg, st1, Receives(sid, if |st.pending| == 0 then 1 else 2)) == Some(st') && Inv(cfg, st')
    ensures OnlySession(st1, st', sid) && UpToDate(cfg, st', sid)
  {
    st' := CatchesUp(cfg, st1, sid, if |st.pending| == 0 then 1 else 2);
  }

  lemma RoundReads(cfg: Config, st: State, sid: SessionId, mem: seq<seq<Byte>>) returns (st': State)
    requires ValidConfig(cfg) && Inv(cfg, st) && st.rt.phase.Idle? && ValidMemory(cfg, mem)
    requires SyncedSession(st, sid) && st.sessions[sid].cursor + 1 == |st.log|
    ensures After(cfg, st, Round(|st.pending|, mem, sid)) == Some(st')
    ensures forall s :: s in st.sessions[sid].subscribed ==> Reads(cfg, st', sid, s, mem)
  {
    var st1 := CycleServes(cfg, st, mem);
    st' := ReceivesServed(cfg, st, mem, st1, sid);
    InParts(cfg, st, Cycle(|st.pending|, mem), st1,
            Receives(sid, if |st.pending| == 0 then 1 else 2));
    ReadsServed(cfg, st, mem, st1, st', sid);
  }

  lemma ReadsServed(cfg: Config, st: State, mem: seq<seq<Byte>>, st1: State, st': State, sid: SessionId)
    requires ValidConfig(cfg) && Inv(cfg, st') && sid in st.sessions && ValidMemory(cfg, mem)
    requires Served(cfg, st, mem, st1) && OnlySession(st1, st', sid) && UpToDate(cfg, st', sid)
    ensures forall s :: s in st.sessions[sid].subscribed ==> Reads(cfg, st', sid, s, mem)
  {
    forall s | s in st.sessions[sid].subscribed
      ensures Reads(cfg, st', sid, s, mem)
    {
      UpToDateReads(cfg, st', sid, s);
    }
  }

  /** In every run, when RT is idle and a session in sync has received all frames, then one cycle
      and one or two frames later it reads all that it wants, with the values of that cycle. */
  lemma {:induction false} WantedIsRead(cfg: Config, steps: seq<Action>, sid: SessionId, mem: seq<seq<Byte>>)
    returns (st': State)
    requires ValidConfig(cfg) && Run(cfg, steps).Some? && ValidMemory(cfg, mem)
    requires var st := Run(cfg, steps).value;
             st.rt.phase.Idle? && SyncedSession(st, sid) && st.sessions[sid].cursor + 1 == |st.log|
    ensures Run(cfg, steps + Round(|Run(cfg, steps).value.pending|, mem, sid)) == Some(st')
    ensures forall s :: Wants(steps, sid, s) ==> Reads(cfg, st', sid, s, mem)
  {
    var st := Run(cfg, steps).value;
    st' := RoundReads(cfg, st, sid, mem);
    RunAfter(cfg, steps, st, Round(|st.pending|, mem, sid));
    forall s | Wants(steps, sid, s)
      ensures Reads(cfg, st', sid, s, mem)
    {
      SubscribedAsWanted(cfg, steps, sid, s);
    }
  }

  // ---- Getting in sync ----

  function Scans(sid: SessionId, n: nat): seq<Action> {
    if n == 0 then [] else [Scan(sid)] + Scans(sid, n - 1)
  }

  /** k is the first data frame from frame i on. */
  ghost predicate FirstData(log: seq<Pdo>, i: nat, k: nat) {
    i <= k < |log| && log[k].DataPdo? && forall j :: i <= j < k ==> log[j].SignalListPdo?
  }

  /** The session has fetched the list of the id and looks for data from frame i on. */
  ghost predicate Looking(st: State, sid: SessionId, l: seq<nat>, id: nat, i: nat) {
    && sid in st.sessions && st.sessions[sid].phase == Scanning(l)
    && st.sessions[sid].listId == id && st.sessions[sid].cursor == i
  }

  /** It is in sync on data frame k if this has that id, and fetches the list anew if not. */
  ghost predicate Looked(cfg: Config, st: State, sid: SessionId, l: seq<nat>, id: nat, k: nat) {
    && sid in st.sessions && k < |st.log| && st.log[k].DataPdo?
    && var y := st.sessions[sid];
       && y.cursor == k
       && if st.log[k].listId == id then y.phase.InSync? && y.seqNo == st.log[k].seqNo && Loaded(cfg, y, l)
          else y.phase.FetchingList?
  }

  lemma ScanMoves(cfg: Config, st: State, sid: SessionId, l: seq<nat>, id: nat, i: nat, k: nat) returns (st': State)
    requires ValidConfig(cfg) && Inv(cfg, st) && Looking(st, sid, l, id, i) && FirstData(st.log, i, k)
    ensures Enabled(cfg, st, Scan(sid)) && st' == Next(cfg, st, Scan(sid)) && OnlySession(st, st', sid)
    ensures if i == k then Looked(cfg, st', sid, l, id, k) else Looking(st', sid, l, id, i + 1)
  {
    assert SessionOk(cfg, st.nrt, st.log, st.history, sid, st.sessions[sid]);
    FlattenListed(cfg, st.history[id]);
    st' := Next(cfg, st, Scan(sid));
  }

  lemma {:induction false} ScansReach(cfg: Config, st: State, sid: SessionId, l: seq<nat>, id: nat, i: nat, k: nat)
    returns (st': State)
    requires ValidConfig(cfg) && Inv(cfg, st) && Looking(st, sid, l, id, i) && FirstData(st.log, i, k)
    ensures After(cfg, st, Scans(sid, k - i + 1)) == Some(st')
    ensures OnlySession(st, st', sid) && Looked(cfg, st', sid, l, id, k)
    decreases k - i
  {
    st' := ScanMoves(cfg, st, sid, l, id, i, k);
    FirstStep(cfg, st, Scan(sid), Scans(sid, k - i));
    if i < k {
      var st1 := st';
      st' := ScansReach(cfg, st1, sid, l, id, i + 1, k);
      SessionOnly(st, st1, st', sid);
    }
  }

  /** In every run, a session that has fetched the list and looks for data passes over list frames to
      the first data frame; there it gets in sync, with the list it has fetched, if and only if the
      frame has the id of that list, and else it fetches the list anew. */
  lemma {:induction false} ScansToData(cfg: Config, steps: seq<Action>, sid: SessionId, l: seq<nat>, id: nat, i: nat,
                                       k: nat) returns (st': State)
    requires ValidConfig(cfg) && Run(cfg, steps).Some?
    requires Looking(Run(cfg, steps).value, sid, l, id, i) && FirstData(Run(cfg, steps).value.log, i, k)
    ensures Run(cfg, steps + Scans(sid, k - i + 1)) == Some(st')
    ensures OnlySession(Run(cfg, steps).value, st', sid) && Looked(cfg, st', sid, l, id, k)
  {
    var st := Run(cfg, steps).value;
    st' := ScansReach(cfg, st, sid, l, id, i, k);
    RunAfter(cfg, steps, st, Scans(sid, k - i + 1));
  }

  /** In every run, a session that has looked before the first frame was there goes on with the
      second as soon as it is there. */
  lemma {:induction false} PassesFirst(cfg: Config, steps: seq<Action>, sid: SessionId, l: seq<nat>, id: nat)
    returns (st': State)
    requires ValidConfig(cfg) && Run(cfg, steps).Some?
    requires var st := Run(cfg, steps).value;
             && sid in st.sessions && st.sessions[sid].phase == Passing(l) && st.sessions[sid].listId == id
             && st.sessions[sid].cursor == 0 && |st.log| > 1
    ensures Run(cfg, steps + [Scan(sid)]) == Some(st') && OnlySession(Run(cfg, steps).value, st', sid)
    ensures Looking(st', sid, l, id, 1)
  {
    RunSnoc(cfg, steps, Scan(sid));
    st' := Run(cfg, steps + [Scan(sid)]).value;
  }
}
