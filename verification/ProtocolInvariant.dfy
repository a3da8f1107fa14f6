/** Every step of the streaming protocol keeps the invariant. */
module ProtocolInvariant {
  import opened Common
  import opened SignalLists
  import opened Protocol

  // ---- Task::subscribe ----

  lemma InsertKeepsNrt(cfg: Config, nrt: Nrt, s: nat, sid: SessionId)
    requires ValidConfig(cfg) && NrtOk(cfg, nrt) && s < |cfg|
    ensures var o := TaskInsert(cfg, nrt, s, sid);
            && NrtOk(cfg, o.nrt)
            && (o.command.Some? ==> Applicable(cfg, nrt.lists, o.command.value)
                                    && Apply(cfg, nrt.lists, o.command.value) == o.nrt.lists)
  {
    var o := TaskInsert(cfg, nrt, s, sid);
    assert SignalOk(cfg, nrt, s);
    if o.command.Some? {
      ApplyKeeps(cfg, nrt.lists, o.command.value);
    }
    forall t | 0 <= t < |cfg|
      ensures SignalOk(cfg, o.nrt, t)
    {
      assert SignalOk(cfg, nrt, t);
    }
  }

  lemma RemoveKeepsNrt(cfg: Config, nrt: Nrt, s: nat, sid: SessionId)
    requires ValidConfig(cfg) && NrtOk(cfg, nrt) && s < |cfg|
    ensures SignalOk(cfg, nrt, s) && ClassOk(cfg, cfg[s].width, nrt.lists[cfg[s].width])
    ensures var o := TaskRemove(cfg, nrt, s, sid);
            && NrtOk(cfg, o.nrt)
            && (o.command.Some? ==> Applicable(cfg, nrt.lists, o.command.value)
                                    && Apply(cfg, nrt.lists, o.command.value) == o.nrt.lists)
  {
    assert SignalOk(cfg, nrt, s);
    var w := cfg[s].width;
    var l := nrt.lists[w];
    assert ClassOk(cfg, w, l);
    var o := TaskRemove(cfg, nrt, s, sid);
    if o.command.Some? {
      ApplyKeeps(cfg, nrt.lists, o.command.value);
      SwapRemoveMembers(l, nrt.position[s]);
    }
    forall t | 0 <= t < |cfg|
      ensures SignalOk(cfg, o.nrt, t)
    {
      assert SignalOk(cfg, nrt, t);
    }
  }

  /** What a session's view of the NRT state depends on when some command is issued. */
  ghost predicate NrtGrows(cfg: Config, nrt: Nrt, nrt': Nrt) {
    && Sized(cfg, nrt) && Sized(cfg, nrt')
    && nrt.listId <= nrt'.listId
    && forall s :: 0 <= s < |cfg| && nrt.sessions[s] != {} && nrt'.sessions[s] != {} ==>
         nrt'.subscriptionId[s] == nrt.subscriptionId[s]
  }

  lemma SessionKeepsOnNrt(cfg: Config, nrt: Nrt, nrt': Nrt, log: seq<Pdo>, h: seq<Lists>, h': seq<Lists>,
                          sid: SessionId, x: Session)
    requires ValidConfig(cfg) && NrtGrows(cfg, nrt, nrt')
    requires |h| == nrt.listId + 1 && |h'| == nrt'.listId + 1 && h <= h'
    requires SessionOk(cfg, nrt, log, h, sid, x)
    requires forall s :: 0 <= s < |cfg| ==> (sid in nrt.sessions[s] <==> sid in nrt'.sessions[s])
    ensures SessionOk(cfg, nrt', log, h', sid, x)
  {
    if x.phase.InSync? {
      forall s | s in x.subscribed && s < |cfg| && nrt'.subscriptionId[s] <= x.listId
        ensures s in x.active
      {
        assert sid in nrt.sessions[s] && sid in nrt'.sessions[s];
      }
    }
  }

  lemma PdosKeepOnHistory(cfg: Config, log: seq<Pdo>, samples: seq<seq<seq<Byte>>>, h: seq<Lists>, h': seq<Lists>)
    requires ValidConfig(cfg) && LogOk(cfg, log, samples, h) && h <= h'
    ensures LogOk(cfg, log, samples, h')
  {
    forall i | 0 <= i < |log|
      ensures PdoOk(cfg, log, samples, h', i)
    {
      assert PdoOk(cfg, log, samples, h, i);
      assert h'[log[i].listId] == h[log[i].listId];
    }
  }

  lemma SpansKeep(cfg: Config, nrt: Nrt, h: seq<Lists>, c: Command, nrt': Nrt)
    requires ValidConfig(cfg) && NrtOk(cfg, nrt) && HistoryOk(cfg, nrt, h) && NrtOk(cfg, nrt')
    requires forall s :: 0 <= s < |cfg| ==> SpanOk(cfg, nrt, h, s)
    requires Applicable(cfg, nrt.lists, c) && nrt'.lists == Apply(cfg, nrt.lists, c)
    requires nrt'.subscriptionId == nrt.subscriptionId[c.signal := nrt.listId + 1]
    requires forall s :: 0 <= s < |cfg| && s != c.signal ==> nrt'.sessions[s] == nrt.sessions[s]
    requires (nrt'.sessions[c.signal] != {}) == c.Insert?
    ensures forall s :: 0 <= s < |cfg| ==> SpanOk(cfg, nrt', h + [nrt'.lists], s)
  {
    ApplyKeeps(cfg, nrt.lists, c);
    var h' := h + [nrt'.lists];
    forall s | 0 <= s < |cfg|
      ensures SpanOk(cfg, nrt', h', s)
    {
      assert SpanOk(cfg, nrt, h, s);
      assert SignalOk(cfg, nrt, s);
      if s == c.signal {
        assert h'[nrt.listId] == nrt.lists;
      } else {
        assert Listed(cfg, h[nrt.listId], s) == (nrt.sessions[s] != {});
      }
    }
  }

  lemma PendingKeepsOnPublish(cfg: Config, pending: seq<Command>, rt: Rt, h: seq<Lists>, c: Command, ls: Lists)
    requires ValidConfig(cfg) && PendingOk(cfg, pending, rt, h)
    requires c.id == |h| && Applicable(cfg, h[|h| - 1], c) && Apply(cfg, h[|h| - 1], c) == ls
    ensures PendingOk(cfg, pending + [c], rt, h + [ls])
  {
    var pending', h' := pending + [c], h + [ls];
    forall k | 0 <= k < |pending'|
      ensures CommandOk(cfg, pending', rt, h', k)
    {
      if k < |pending| {
        assert CommandOk(cfg, pending, rt, h, k);
      }
    }
  }

  /** What Task::subscribe guarantees about the state it leaves behind. */
  ghost predicate OutcomeOk(cfg: Config, st: State, sid: SessionId, o: TaskOutcome)
    requires ValidConfig(cfg) && Inv(cfg, st)
  {
    && NrtOk(cfg, o.nrt) && NrtGrows(cfg, st.nrt, o.nrt)
    && (forall s :: 0 <= s < |cfg| ==> o.nrt.sessions[s] <= st.nrt.sessions[s] + {sid})
    && (forall s :: 0 <= s < |cfg| ==> st.nrt.sessions[s] - {sid} <= o.nrt.sessions[s])
    && if o.command.None? then
         && o.nrt.lists == st.nrt.lists && o.nrt.listId == st.nrt.listId
         && forall s :: 0 <= s < |cfg| ==> SpanOk(cfg, o.nrt, st.history, s)
       else
         var c := o.command.value;
         && c.id == o.nrt.listId == st.nrt.listId + 1
         && Applicable(cfg, st.nrt.lists, c) && o.nrt.lists == Apply(cfg, st.nrt.lists, c)
         && forall s :: 0 <= s < |cfg| ==> SpanOk(cfg, o.nrt, st.history + [o.nrt.lists], s)
  }

  lemma InsertOutcome(cfg: Config, st: State, sid: SessionId, s: nat)
    requires ValidConfig(cfg) && Inv(cfg, st) && s < |cfg|
    ensures OutcomeOk(cfg, st, sid, TaskInsert(cfg, st.nrt, s, sid))
  {
    var o := TaskInsert(cfg, st.nrt, s, sid);
    InsertKeepsNrt(cfg, st.nrt, s, sid);
    if o.command.Some? {
      SpansKeep(cfg, st.nrt, st.history, o.command.value, o.nrt);
    } else {
      SpansKeepOnJoin(cfg, st.nrt, o.nrt, st.history);
    }
  }

  lemma RemoveOutcome(cfg: Config, st: State, sid: SessionId, s: nat)
    requires ValidConfig(cfg) && Inv(cfg, st) && s < |cfg|
    ensures SignalOk(cfg, st.nrt, s) && ClassOk(cfg, cfg[s].width, st.nrt.lists[cfg[s].width])
    ensures OutcomeOk(cfg, st, sid, TaskRemove(cfg, st.nrt, s, sid))
  {
    RemoveKeepsNrt(cfg, st.nrt, s, sid);
    var o := TaskRemove(cfg, st.nrt, s, sid);
    if o.command.Some? {
      SpansKeep(cfg, st.nrt, st.history, o.command.value, o.nrt);
    } else {
      SpansKeepOnJoin(cfg, st.nrt, o.nrt, st.history);
    }
  }

  /** Common part of the steps that go through Task::subscribe. */
  lemma PublishKeeps(cfg: Config, st: State, o: TaskOutcome, sid: SessionId, y: Session)
    requires ValidConfig(cfg) && Inv(cfg, st) && sid in st.sessions && OutcomeOk(cfg, st, sid, o)
    requires SessionOk(cfg, o.nrt, st.log, Publish(st, o, sid, y).history, sid, y)
    ensures Inv(cfg, Publish(st, o, sid, y))
  {
    var st' := Publish(st, o, sid, y);
    if o.command.Some? {
      PendingKeepsOnPublish(cfg, st.pending, st.rt, st.history, o.command.value, o.nrt.lists);
      PdosKeepOnHistory(cfg, st.log, st.samples, st.history, st'.history);
      ApplyKeeps(cfg, st.nrt.lists, o.command.value);
      forall k | 0 <= k < |st'.history|
        ensures WellFormed(cfg, st'.history[k])
      {
        if k < |st.history| {
          assert WellFormed(cfg, st.history[k]);
        }
      }
    }
    forall t | t in st'.sessions
      ensures SessionOk(cfg, st'.nrt, st'.log, st'.history, t, st'.sessions[t])
    {
      if t != sid {
        assert SessionOk(cfg, st.nrt, st.log, st.history, t, st.sessions[t]);
        SessionKeepsOnNrt(cfg, st.nrt, o.nrt, st.log, st.history, st'.history, t, st.sessions[t]);
      }
    }
    forall s | 0 <= s < |cfg|
      ensures st'.nrt.sessions[s] <= st'.sessions.Keys
    {
      assert st.nrt.sessions[s] <= st.sessions.Keys;
    }
  }

  lemma SpansKeepOnJoin(cfg: Config, nrt: Nrt, nrt': Nrt, h: seq<Lists>)
    requires ValidConfig(cfg) && Sized(cfg, nrt) && Sized(cfg, nrt')
    requires nrt'.subscriptionId == nrt.subscriptionId
    requires forall s :: 0 <= s < |cfg| ==> (nrt'.sessions[s] == {} <==> nrt.sessions[s] == {})
    requires forall s :: 0 <= s < |cfg| ==> SpanOk(cfg, nrt, h, s)
    ensures forall s :: 0 <= s < |cfg| ==> SpanOk(cfg, nrt', h, s)
  {
    forall s | 0 <= s < |cfg|
      ensures SpanOk(cfg, nrt', h, s)
    {
      assert SpanOk(cfg, nrt, h, s);
    }
  }

  /** The subscribing session stays in order, whether or not it may activate at once. */
  lemma SubscriberOk(cfg: Config, st: State, sid: SessionId, s: nat, o: TaskOutcome, y: Session, h': seq<Lists>)
    requires ValidConfig(cfg) && Inv(cfg, st) && SyncedSession(st, sid) && s < |cfg|
    requires s !in st.sessions[sid].subscribed && o == TaskInsert(cfg, st.nrt, s, sid)
    requires var x := st.sessions[sid];
             y == x.(subscribed := x.subscribed + {s},
                     active := if o.command.None? && s in x.transferred then x.active + {s} else x.active)
    requires st.history <= h' && |h'| == o.nrt.listId + 1
    ensures SessionOk(cfg, o.nrt, st.log, h', sid, y)
  {
    var x := st.sessions[sid];
    assert SessionOk(cfg, st.nrt, st.log, st.history, sid, x);
    assert h'[x.listId] == st.history[x.listId];
    if st.nrt.sessions[s] != {} {
      EarlyIfListed(cfg, st, sid, s, x);
    }
    assert SubscribedOk(cfg, o.nrt, sid, y);
    assert SyncOk(cfg, o.nrt, st.log, h', y);
  }

  lemma EarlyIfListed(cfg: Config, st: State, sid: SessionId, s: nat, x: Session)
    requires ValidConfig(cfg) && Inv(cfg, st) && SessionOk(cfg, st.nrt, st.log, st.history, sid, x)
    requires x.phase.InSync? && s < |cfg| && st.nrt.sessions[s] != {}
    ensures st.nrt.subscriptionId[s] <= x.listId ==> s in x.transferred
  {
    assert SpanOk(cfg, st.nrt, st.history, s);
    assert WellFormed(cfg, st.history[x.listId]);
    FlattenListed(cfg, st.history[x.listId]);
    if st.nrt.subscriptionId[s] <= x.listId {
      assert Listed(cfg, st.history[x.listId], s);
    }
  }

  lemma SubscribeKeeps(cfg: Config, st: State, sid: SessionId, s: nat)
    requires ValidConfig(cfg) && Inv(cfg, st) && SyncedSession(st, sid) && s < |cfg|
    ensures Inv(cfg, SubscribeStep(cfg, st, sid, s))
  {
    var x := st.sessions[sid];
    if s !in x.active && s !in x.subscribed {
      var o := TaskInsert(cfg, st.nrt, s, sid);
      InsertOutcome(cfg, st, sid, s);
      var y := x.(subscribed := x.subscribed + {s},
                  active := if o.command.None? && s in x.transferred then x.active + {s} else x.active);
      SubscriberOk(cfg, st, sid, s, o, y, Publish(st, o, sid, y).history);
      PublishKeeps(cfg, st, o, sid, y);
    }
  }

  lemma UnsubscribeKeeps(cfg: Config, st: State, sid: SessionId, s: nat)
    requires ValidConfig(cfg) && Inv(cfg, st) && SyncedSession(st, sid) && s < |cfg|
    ensures Inv(cfg, UnsubscribeStep(cfg, st, sid, s))
  {
    var x := st.sessions[sid];
    assert SessionOk(cfg, st.nrt, st.log, st.history, sid, x);
    if s in x.subscribed {
      RemoveOutcome(cfg, st, sid, s);
      var o := TaskRemove(cfg, st.nrt, s, sid);
      var y := x.(subscribed := x.subscribed - {s}, active := x.active - {s});
      var h' := Publish(st, o, sid, y).history;
      assert st.history <= h';
      assert SyncOk(cfg, o.nrt, st.log, h', y) by {
        assert h'[x.listId] == st.history[x.listId];
      }
      PublishKeeps(cfg, st, o, sid, y);
    }
  }

  // ---- rt_update ----

  lemma ConsumeKeeps(cfg: Config, st: State)
    requires ValidConfig(cfg) && Inv(cfg, st) && st.rt.phase.Draining? && st.pending != []
    ensures Inv(cfg, ConsumeStep(cfg, st))
  {
    var st' := ConsumeStep(cfg, st);
    assert CommandOk(cfg, st.pending, st.rt, st.history, 0);
    forall k | 0 <= k < |st'.pending|
      ensures CommandOk(cfg, st'.pending, st'.rt, st'.history, k)
    {
      assert CommandOk(cfg, st.pending, st.rt, st.history, k + 1);
    }
  }

  lemma {:induction false} DataCountAppend(log: seq<Pdo>, p: Pdo, n: nat)
    requires n <= |log|
    ensures DataCount(log + [p], n) == DataCount(log, n)
  {
    if n > 0 {
      DataCountAppend(log, p, n - 1);
    }
  }

  lemma SessionKeepsOnLog(cfg: Config, nrt: Nrt, log: seq<Pdo>, p: Pdo, h: seq<Lists>, sid: SessionId, x: Session)
    requires ValidConfig(cfg) && Sized(cfg, nrt) && |h| == nrt.listId + 1
    requires SessionOk(cfg, nrt, log, h, sid, x)
    ensures SessionOk(cfg, nrt, log + [p], h, sid, x)
  {
    if x.phase.InSync? {
      DataCountAppend(log, p, x.cursor + 1);
    }
  }

  /** Appending a frame that satisfies PdoOk. */
  lemma EmitKeeps(cfg: Config, st: State, p: Pdo, sample: seq<seq<Byte>>, rt': Rt)
    requires ValidConfig(cfg) && Inv(cfg, st)
    requires PdoOk(cfg, st.log + [p], st.samples + [sample], st.history, |st.log|)
    requires rt'.lists == st.rt.lists && rt'.listId == st.rt.listId == p.listId
    requires rt'.seqNo == st.rt.seqNo + if p.DataPdo? then 1 else 0
    ensures Inv(cfg, st.(log := st.log + [p], samples := st.samples + [sample], rt := rt'))
  {
    var log', samples' := st.log + [p], st.samples + [sample];
    DataCountAppend(st.log, p, |st.log|);
    forall i | 0 <= i < |log'|
      ensures PdoOk(cfg, log', samples', st.history, i)
    {
      if i < |st.log| {
        assert PdoOk(cfg, st.log, st.samples, st.history, i);
        DataCountAppend(st.log, p, i);
      }
    }
    forall k | 0 <= k < |st.pending|
      ensures CommandOk(cfg, st.pending, rt', st.history, k)
    {
      assert CommandOk(cfg, st.pending, st.rt, st.history, k);
    }
    forall t | t in st.sessions
      ensures SessionOk(cfg, st.nrt, log', st.history, t, st.sessions[t])
    {
      assert SessionOk(cfg, st.nrt, st.log, st.history, t, st.sessions[t]);
      SessionKeepsOnLog(cfg, st.nrt, st.log, p, st.history, t, st.sessions[t]);
    }
  }

  lemma EmitListKeeps(cfg: Config, st: State)
    requires ValidConfig(cfg) && Inv(cfg, st) && st.rt.phase.Listing?
    ensures Inv(cfg, Next(cfg, st, RtEmitList))
  {
    var p := SignalListPdo(st.rt.listId, Flatten(st.rt.lists));
    EmitKeeps(cfg, st, p, [], st.rt.(phase := Copying));
  }

  lemma EmitDataKeeps(cfg: Config, st: State, mem: seq<seq<Byte>>)
    requires ValidConfig(cfg) && Inv(cfg, st) && st.rt.phase.Copying? && ValidMemory(cfg, mem)
    ensures Inv(cfg, Next(cfg, st, RtEmitData(mem)))
  {
    assert WellFormed(cfg, st.history[st.rt.listId]);
    FlattenListed(cfg, st.rt.lists);
    var p := DataPdo(st.rt.listId, st.rt.seqNo, Encode(mem, Flatten(st.rt.lists)));
    DataCountAppend(st.log, p, |st.log|);
    EmitKeeps(cfg, st, p, mem, st.rt.(phase := Idle, seqNo := st.rt.seqNo + 1));
  }

  lemma RtPhaseKeeps(cfg: Config, st: State, a: Action)
    requires ValidConfig(cfg) && Inv(cfg, st) && Enabled(cfg, st, a) && (a.RtWake? || a.RtDrained?)
    ensures Inv(cfg, Next(cfg, st, a))
  {
    var st' := Next(cfg, st, a);
    forall k | 0 <= k < |st.pending|
      ensures CommandOk(cfg, st.pending, st'.rt, st.history, k)
    {
      assert CommandOk(cfg, st.pending, st.rt, st.history, k);
    }
  }

  // ---- Sessions ----

  /** Replacing one session by a session that satisfies SessionOk. */
  lemma SessionStepKeeps(cfg: Config, st: State, sid: SessionId, y: Session)
    requires ValidConfig(cfg) && Inv(cfg, st)
    requires SessionOk(cfg, st.nrt, st.log, st.history, sid, y)
    ensures Inv(cfg, st.(sessions := st.sessions[sid := y]))
  {
    var st' := st.(sessions := st.sessions[sid := y]);
    forall t | t in st'.sessions
      ensures SessionOk(cfg, st.nrt, st.log, st.history, t, st'.sessions[t])
    {
      if t != sid {
        assert SessionOk(cfg, st.nrt, st.log, st.history, t, st.sessions[t]);
      }
    }
    forall s | 0 <= s < |cfg|
      ensures st.nrt.sessions[s] <= st'.sessions.Keys
    {
      assert st.nrt.sessions[s] <= st.sessions.Keys;
    }
  }

  lemma ConnectKeeps(cfg: Config, st: State, sid: SessionId)
    requires ValidConfig(cfg) && Inv(cfg, st) && sid !in st.sessions
    ensures Inv(cfg, st.(sessions := st.sessions[sid := InitialSession(cfg)]))
  {
    forall s | 0 <= s < |cfg|
      ensures sid !in st.nrt.sessions[s]
    {
      assert st.nrt.sessions[s] <= st.sessions.Keys;
    }
    SessionStepKeeps(cfg, st, sid, InitialSession(cfg));
  }

  lemma ScanFrameKeeps(cfg: Config, st: State, sid: SessionId)
    requires ValidConfig(cfg) && Inv(cfg, st) && Enabled(cfg, st, Scan(sid))
    requires st.sessions[sid].phase.Scanning? && st.sessions[sid].cursor < |st.log|
    ensures Inv(cfg, Next(cfg, st, Scan(sid)))
  {
    var x := st.sessions[sid];
    assert SessionOk(cfg, st.nrt, st.log, st.history, sid, x);
    assert PdoOk(cfg, st.log, st.samples, st.history, x.cursor);
    assert WellFormed(cfg, st.history[x.listId]);
    FlattenListed(cfg, st.history[x.listId]);
    var y := ScanOne(cfg, st.nrt.subscriptionId, x, st.log[x.cursor]);
    if y.phase.InSync? {
      LoadActivates(cfg, st, sid, x.(phase := InSync, seqNo := y.seqNo), x.phase.list, x.listId);
    }
    SessionStepKeeps(cfg, st, sid, y);
  }

  lemma ScanKeeps(cfg: Config, st: State, sid: SessionId)
    requires ValidConfig(cfg) && Inv(cfg, st) && Enabled(cfg, st, Scan(sid))
    ensures Inv(cfg, Next(cfg, st, Scan(sid)))
  {
    var x := st.sessions[sid];
    assert SessionOk(cfg, st.nrt, st.log, st.history, sid, x);
    if x.phase.Passing? {
      SessionStepKeeps(cfg, st, sid, x.(phase := Scanning(x.phase.list), cursor := x.cursor + 1));
    } else if x.cursor == |st.log| {
      SessionStepKeeps(cfg, st, sid, x.(phase := Passing(x.phase.list)));
    } else {
      ScanFrameKeeps(cfg, st, sid);
    }
  }

  lemma LoadActivates(cfg: Config, st: State, sid: SessionId, x: Session, l: seq<nat>, id: nat)
    requires ValidConfig(cfg) && Inv(cfg, st) && id < |st.history| && l == Flatten(st.history[id])
    requires SubscribedOk(cfg, st.nrt, sid, x)
    ensures InRange(cfg, l)
    ensures var y := Load(cfg, st.nrt.subscriptionId, x, l, id);
            && SubscribedOk(cfg, st.nrt, sid, y) && Loaded(cfg, y, l)
            && forall s :: s in y.subscribed && s < |cfg| && st.nrt.subscriptionId[s] <= id ==> s in y.active
  {
    assert WellFormed(cfg, st.history[id]);
    FlattenListed(cfg, st.history[id]);
    forall s | s in x.subscribed && s < |cfg| && st.nrt.subscriptionId[s] <= id
      ensures s in l
    {
      assert SpanOk(cfg, st.nrt, st.history, s);
      assert sid in st.nrt.sessions[s];
      assert Listed(cfg, st.history[id], s);
    }
  }

  /** A session in sync accepts the next frame: neither the list id nor the sequence
      number is ever off in a frame that has not been overwritten. */
  lemma ReceiveAccepts(cfg: Config, st: State, sid: SessionId)
    requires ValidConfig(cfg) && Inv(cfg, st) && Enabled(cfg, st, Receive(sid))
    ensures var x, y := st.sessions[sid], Next(cfg, st, Receive(sid)).sessions[sid];
            && y.phase.InSync? && y.cursor == x.cursor + 1
            && (st.log[y.cursor].DataPdo? ==> y.frame == Some(y.cursor) && y.seqNo == x.seqNo + 1)
            && (st.log[y.cursor].SignalListPdo? ==> y.listId == st.log[y.cursor].listId)
    ensures Inv(cfg, Next(cfg, st, Receive(sid)))
  {
    var x := st.sessions[sid];
    var y := ReceiveOne(cfg, st.nrt.subscriptionId, x, st.log[x.cursor + 1]);
    ReceivedOk(cfg, st, sid, x, y);
    SessionStepKeeps(cfg, st, sid, y);
  }

  lemma ReceivedOk(cfg: Config, st: State, sid: SessionId, x: Session, y: Session)
    requires ValidConfig(cfg) && Inv(cfg, st) && SyncedSession(st, sid) && x == st.sessions[sid]
    requires x.cursor + 1 < |st.log| && y == ReceiveOne(cfg, st.nrt.subscriptionId, x, st.log[x.cursor + 1])
    ensures y.phase.InSync? && y.cursor == x.cursor + 1
    ensures st.log[y.cursor].DataPdo? ==> y.frame == Some(y.cursor) && y.seqNo == x.seqNo + 1
    ensures st.log[y.cursor].SignalListPdo? ==> y.listId == st.log[y.cursor].listId
    ensures SessionOk(cfg, st.nrt, st.log, st.history, sid, y)
  {
    assert SessionOk(cfg, st.nrt, st.log, st.history, sid, x);
    var p := st.log[x.cursor + 1];
    assert PdoOk(cfg, st.log, st.samples, st.history, x.cursor + 1);
    if p.SignalListPdo? {
      LoadActivates(cfg, st, sid, x.(cursor := x.cursor + 1), p.signals, p.listId);
    }
    assert SyncOk(cfg, st.nrt, st.log, st.history, y);
  }

  // ---- All steps, all runs ----

  lemma InitialInv(cfg: Config)
    requires ValidConfig(cfg)
    ensures Inv(cfg, InitialState(cfg))
  {
    var st := InitialState(cfg);
    assert WellFormed(cfg, NO_SIGNALS) by {
      assert forall w :: 0 <= w < 4 ==> ClassOk(cfg, w, NO_SIGNALS[w]);
    }
    assert forall s :: 0 <= s < |cfg| ==> SignalOk(cfg, st.nrt, s);
    assert forall s :: 0 <= s < |cfg| ==> SpanOk(cfg, st.nrt, st.history, s);
  }

  lemma NextKeepsInv(cfg: Config, st: State, a: Action)
    requires ValidConfig(cfg) && Inv(cfg, st) && Enabled(cfg, st, a)
    ensures Inv(cfg, Next(cfg, st, a))
  {
    match a
    case Connect(sid) => ConnectKeeps(cfg, st, sid);
    case Subscribe(sid, s) => SubscribeKeeps(cfg, st, sid, s);
    case Unsubscribe(sid, s) => UnsubscribeKeeps(cfg, st, sid, s);
    case RtWake => RtPhaseKeeps(cfg, st, a);
    case RtConsume => ConsumeKeeps(cfg, st);
    case RtDrained => RtPhaseKeeps(cfg, st, a);
    case RtEmitList => EmitListKeeps(cfg, st);
    case RtEmitData(mem) => EmitDataKeeps(cfg, st, mem);
    case CatchUp(sid) =>
      assert SessionOk(cfg, st.nrt, st.log, st.history, sid, st.sessions[sid]);
      var cursor := if st.log == [] then 0 else |st.log| - 1;
      SessionStepKeeps(cfg, st, sid, st.sessions[sid].(phase := FetchingList, cursor := cursor));
    case FetchList(sid) =>
      assert SessionOk(cfg, st.nrt, st.log, st.history, sid, st.sessions[sid]);
      SessionStepKeeps(cfg, st, sid, st.sessions[sid].(phase := Scanning(Flatten(st.nrt.lists)),
                                                       listId := st.nrt.listId));
    case Scan(sid) => ScanKeeps(cfg, st, sid);
    case Receive(sid) => ReceiveAccepts(cfg, st, sid);
    case Desync(sid) =>
      var x := st.sessions[sid];
      assert SessionOk(cfg, st.nrt, st.log, st.history, sid, x);
      SessionStepKeeps(cfg, st, sid, x.(phase := CatchingUp, cursor := x.cursor + 1));
  }

  /** The state after the given steps, or None where some step is not enabled. */
  ghost function Run(cfg: Config, steps: seq<Action>): (r: Option<State>)
    requires ValidConfig(cfg)
    ensures r.Some? ==> Inv(cfg, r.value)
  {
    if steps == [] then
      InitialInv(cfg);
      Some(InitialState(cfg))
    else
      var pre := Run(cfg, steps[..|steps| - 1]);
      var a := steps[|steps| - 1];
      if pre.Some? && Enabled(cfg, pre.value, a) then
        NextKeepsInv(cfg, pre.value, a);
        Some(Next(cfg, pre.value, a))
      else None
  }
}
