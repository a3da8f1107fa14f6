/** What holds in every run of the streaming protocol. Each property is proved of any state
    that satisfies the invariant and then stated of the state after any run. */
module ProtocolTheorems {
  import opened Common
  import opened SignalLists
  import opened Protocol
  import opened ProtocolInvariant

  lemma {:induction false} RunSnoc(cfg: Config, steps: seq<Action>, a: Action)
    requires ValidConfig(cfg)
    ensures Run(cfg, steps + [a]).Some? <==> Run(cfg, steps).Some? && Enabled(cfg, Run(cfg, steps).value, a)
    ensures Run(cfg, steps + [a]).Some? ==> Run(cfg, steps + [a]).value == Next(cfg, Run(cfg, steps).value, a)
  {
    var all := steps + [a];
    assert all[..|all| - 1] == steps && all[|all| - 1] == a;
  }

  lemma {:induction false} RunPrefix(cfg: Config, steps: seq<Action>, more: seq<Action>)
    requires ValidConfig(cfg) && Run(cfg, steps + more).Some? && more != []
    ensures var before := steps + more[..|more| - 1];
            && Run(cfg, before).Some?
            && Enabled(cfg, Run(cfg, before).value, more[|more| - 1])
            && Run(cfg, steps + more).value == Next(cfg, Run(cfg, before).value, more[|more| - 1])
  {
    var before := steps + more[..|more| - 1];
    assert before + [more[|more| - 1]] == steps + more;
    RunSnoc(cfg, before, more[|more| - 1]);
  }

  // ---- Replication ----

  /** Applies commands in order; None where one of them does not fit the lists. */
  ghost function Replay(cfg: Config, ls: Lists, cs: seq<Command>): Option<Lists>
    requires ValidConfig(cfg)
    decreases |cs|
  {
    if cs == [] then Some(ls)
    else if Applicable(cfg, ls, cs[0]) then Replay(cfg, Apply(cfg, ls, cs[0]), cs[1..])
    else None
  }

  lemma {:induction false} ReplayPending(cfg: Config, pending: seq<Command>, rt: Rt, h: seq<Lists>, k: nat)
    requires ValidConfig(cfg) && PendingOk(cfg, pending, rt, h) && k <= |pending|
    ensures Replay(cfg, h[rt.listId + k], pending[k..]) == Some(h[|h| - 1])
    decreases |pending| - k
  {
    if k < |pending| {
      assert CommandOk(cfg, pending, rt, h, k);
      assert pending[k..][1..] == pending[k + 1..];
      ReplayPending(cfg, pending, rt, h, k + 1);
    }
  }

  /** s stands in the lists once, at its recorded position, exactly while it is subscribed. */
  ghost predicate ListedOnce(cfg: Config, nrt: Nrt, s: nat)
    requires ValidConfig(cfg) && Sized(cfg, nrt) && s < |cfg|
  {
    forall w, i :: 0 <= w < 4 && 0 <= i < |nrt.lists[w]| ==>
      (nrt.lists[w][i] == s <==> nrt.sessions[s] != {} && w == cfg[s].width && i == nrt.position[s])
  }

  lemma ListedOnceAt(cfg: Config, nrt: Nrt, s: nat)
    requires ValidConfig(cfg) && NrtOk(cfg, nrt) && s < |cfg|
    ensures ListedOnce(cfg, nrt, s)
    ensures nrt.sessions[s] != {} ==> nrt.position[s] < |nrt.lists[cfg[s].width]|
  {
    assert SignalOk(cfg, nrt, s);
    forall w, i | 0 <= w < 4 && 0 <= i < |nrt.lists[w]|
      ensures nrt.lists[w][i] == s <==> nrt.sessions[s] != {} && w == cfg[s].width && i == nrt.position[s]
    {
      assert ClassOk(cfg, w, nrt.lists[w]);
    }
  }

  /** The RT lists plus the commands still in the ring give the NRT lists, and s stands in
      them once, at its recorded position, exactly while some session subscribes to it. */
  ghost predicate Replicated(cfg: Config, st: State, s: nat)
    requires ValidConfig(cfg) && s < |cfg|
  {
    && Replay(cfg, st.rt.lists, st.pending) == Some(st.nrt.lists)
    && Sized(cfg, st.nrt) && ListedOnce(cfg, st.nrt, s)
    && (st.nrt.sessions[s] != {} ==> st.nrt.position[s] < |st.nrt.lists[cfg[s].width]|)
  }

  lemma ReplicatedAt(cfg: Config, st: State, s: nat)
    requires ValidConfig(cfg) && Inv(cfg, st) && s < |cfg|
    ensures Replicated(cfg, st, s)
  {
    assert st.pending[0..] == st.pending;
    ReplayPending(cfg, st.pending, st.rt, st.history, 0);
    ListedOnceAt(cfg, st.nrt, s);
  }

  /** In every reachable state the two sides' lists are replicas up to the ring. */
  lemma {:induction false} Replication(cfg: Config, steps: seq<Action>, s: nat)
    requires ValidConfig(cfg) && Run(cfg, steps).Some? && s < |cfg|
    ensures Replicated(cfg, Run(cfg, steps).value, s)
  {
    ReplicatedAt(cfg, Run(cfg, steps).value, s);
  }

  // ---- Decoding ----

  /** Frame i carries the order that its list id stands for. */
  ghost predicate FrameMatchesId(cfg: Config, st: State, i: nat)
    requires i < |st.log|
  {
    && st.log[i].listId < |st.history| && |st.samples| == |st.log|
    && var order := Flatten(st.history[st.log[i].listId]);
       && (st.log[i].listId == st.nrt.listId ==> order == Flatten(st.nrt.lists))
       && (st.log[i].SignalListPdo? ==> st.log[i].signals == order)
       && (st.log[i].DataPdo? ==>
             ValidMemory(cfg, st.samples[i]) && InRange(cfg, order) && st.log[i].data == Encode(st.samples[i], order))
  }

  lemma FrameMatchesIdAt(cfg: Config, st: State, i: nat)
    requires ValidConfig(cfg) && Inv(cfg, st) && i < |st.log|
    ensures FrameMatchesId(cfg, st, i)
  {
    assert PdoOk(cfg, st.log, st.samples, st.history, i);
  }

  /** Equal list ids mean equal order, in list frames, in data frames and in getSignalList. */
  lemma {:induction false} EqualIdsEqualOrder(cfg: Config, steps: seq<Action>, i: nat)
    requires ValidConfig(cfg) && Run(cfg, steps).Some? && i < |Run(cfg, steps).value.log|
    ensures FrameMatchesId(cfg, Run(cfg, steps).value, i)
  {
    FrameMatchesIdAt(cfg, Run(cfg, steps).value, i);
  }

  /** The session's frame belongs to the list that the session has loaded. */
  ghost predicate FrameFitsList(st: State, x: Session) {
    x.frame.Some? && x.frame.value < |st.log| && st.log[x.frame.value].listId == x.listId
  }

  /** getValue gives what the RT task read from s in the cycle of the session's frame. */
  ghost predicate Decodes(cfg: Config, st: State, x: Session, s: nat) {
    && x.frame.Some? && x.frame.value < |st.samples| && s < |st.samples[x.frame.value]|
    && GetValue(cfg, st.log, x, s) == Some(st.samples[x.frame.value][s])
  }

  lemma DecodesAt(cfg: Config, st: State, sid: SessionId, s: nat)
    requires ValidConfig(cfg) && Inv(cfg, st) && SyncedSession(st, sid)
    requires s in st.sessions[sid].transferred && FrameFitsList(st, st.sessions[sid])
    ensures Decodes(cfg, st, st.sessions[sid], s)
  {
    var x := st.sessions[sid];
    assert SessionOk(cfg, st.nrt, st.log, st.history, sid, x);
    assert PdoOk(cfg, st.log, st.samples, st.history, x.frame.value);
    assert WellFormed(cfg, st.history[x.listId]);
    FlattenListed(cfg, st.history[x.listId]);
    DecodeEncode(cfg, st.samples[x.frame.value], Flatten(st.history[x.listId]), s);
  }

  /** In every run, a session in sync whose frame fits its list decodes every transferred
      signal to the bytes that the RT task sampled. */
  lemma {:induction false} EndToEndDecoding(cfg: Config, steps: seq<Action>, sid: SessionId, s: nat)
    requires ValidConfig(cfg) && Run(cfg, steps).Some? && SyncedSession(Run(cfg, steps).value, sid)
    requires var st := Run(cfg, steps).value;
             s in st.sessions[sid].transferred && FrameFitsList(st, st.sessions[sid])
    ensures Decodes(cfg, Run(cfg, steps).value, Run(cfg, steps).value.sessions[sid], s)
  {
    DecodesAt(cfg, Run(cfg, steps).value, sid, s);
  }

  /** The session has moved on by one frame without losing sync. After a data frame every
      signal of its list decodes to what was sampled for that very frame. */
  ghost predicate Accepted(cfg: Config, st: State, x: Session, y: Session) {
    && y.phase.InSync? && y.cursor == x.cursor + 1 < |st.log|
    && (st.log[y.cursor].SignalListPdo? ==> y.listId == st.log[y.cursor].listId)
    && (st.log[y.cursor].DataPdo? ==>
          && y.seqNo == x.seqNo + 1 && y.frame == Some(y.cursor)
          && forall s :: s in y.transferred ==> Decodes(cfg, st, y, s))
  }

  lemma AcceptedAt(cfg: Config, st: State, sid: SessionId)
    requires ValidConfig(cfg) && Inv(cfg, st) && Enabled(cfg, st, Receive(sid))
    ensures var st' := Next(cfg, st, Receive(sid));
            Accepted(cfg, st', st.sessions[sid], st'.sessions[sid])
  {
    ReceiveAccepts(cfg, st, sid);
    var st' := Next(cfg, st, Receive(sid));
    var y := st'.sessions[sid];
    assert SessionOk(cfg, st'.nrt, st'.log, st'.history, sid, y);
    if st'.log[y.cursor].DataPdo? {
      forall s | s in y.transferred
        ensures Decodes(cfg, st', y, s)
      {
        DecodesAt(cfg, st', sid, s);
      }
    }
  }

  /** rxPdo never loses sync on frames that are intact, skips no frame, and every data frame
      it accepts decodes. */
  lemma {:induction false} AcceptedFrameDecodes(cfg: Config, steps: seq<Action>, sid: SessionId)
    requires ValidConfig(cfg) && Run(cfg, steps).Some? && Run(cfg, steps + [Receive(sid)]).Some?
    ensures var before, st := Run(cfg, steps).value, Run(cfg, steps + [Receive(sid)]).value;
            && SyncedSession(before, sid) && SyncedSession(st, sid)
            && Accepted(cfg, st, before.sessions[sid], st.sessions[sid])
  {
    RunSnoc(cfg, steps, Receive(sid));
    AcceptedAt(cfg, Run(cfg, steps).value, sid);
  }

  // ---- Activation ----

  /** The session subscribes to s and its list id has reached the last change of s. */
  ghost predicate Settled(cfg: Config, st: State, sid: SessionId, s: nat) {
    && sid in st.sessions && s < |cfg| && s < |st.nrt.subscriptionId|
    && s in st.sessions[sid].subscribed
    && st.nrt.subscriptionId[s] <= st.sessions[sid].listId
  }

  /** s is active, transferred, and its position lies inside the frame. */
  ghost predicate Readable(cfg: Config, x: Session, s: nat) {
    && s in x.active && s in x.transferred && s < |cfg| && s < |x.positions|
    && x.positions[s] + cfg[s].memSize <= x.pdoSize
  }

  lemma {:induction false} TotalSizePrefix(cfg: Config, l: seq<nat>, i: nat)
    requires InRange(cfg, l) && i < |l|
    ensures TotalSize(cfg, l[..i]) + cfg[l[i]].memSize <= TotalSize(cfg, l)
  {
    if i < |l| - 1 {
      assert l[..|l| - 1][..i] == l[..i];
      TotalSizePrefix(cfg, l[..|l| - 1], i);
    }
  }

  lemma SettledReadable(cfg: Config, st: State, sid: SessionId, s: nat)
    requires ValidConfig(cfg) && Inv(cfg, st) && Settled(cfg, st, sid, s) && SyncedSession(st, sid)
    ensures Readable(cfg, st.sessions[sid], s)
  {
    var x := st.sessions[sid];
    assert SessionOk(cfg, st.nrt, st.log, st.history, sid, x);
    assert SpanOk(cfg, st.nrt, st.history, s);
    assert sid in st.nrt.sessions[s];
    assert WellFormed(cfg, st.history[x.listId]);
    FlattenListed(cfg, st.history[x.listId]);
    var l := Flatten(st.history[x.listId]);
    assert Listed(cfg, st.history[x.listId], s);
    var i :| 0 <= i < |l| && l[i] == s;
    PositionOf(cfg, l, i);
    TotalSizePrefix(cfg, l, i);
  }

  /** Commands of other sessions, or on other signals, do not move the last change of s. */
  lemma SettledOnPublish(cfg: Config, st: State, a: Action, sid: SessionId, s: nat)
    requires ValidConfig(cfg) && Inv(cfg, st) && Enabled(cfg, st, a) && a != Unsubscribe(sid, s)
    requires (a.Subscribe? || a.Unsubscribe?) && Settled(cfg, st, sid, s)
    ensures Settled(cfg, Next(cfg, st, a), sid, s)
  {
    assert SessionOk(cfg, st.nrt, st.log, st.history, sid, st.sessions[sid]);
    assert sid in st.nrt.sessions[s];
    if a.Subscribe? {
      SettledOnSubscribe(cfg, st, a.sid, a.signal, sid, s);
    } else {
      SettledOnUnsubscribe(cfg, st, a.sid, a.signal, sid, s);
    }
  }

  lemma SettledOnSubscribe(cfg: Config, st: State, t: SessionId, u: nat, sid: SessionId, s: nat)
    requires ValidConfig(cfg) && Inv(cfg, st) && Enabled(cfg, st, Subscribe(t, u))
    requires Settled(cfg, st, sid, s) && sid in st.nrt.sessions[s]
    ensures Settled(cfg, Next(cfg, st, Subscribe(t, u)), sid, s)
  {
    InsertOutcome(cfg, st, t, u);
  }

  lemma SettledOnUnsubscribe(cfg: Config, st: State, t: SessionId, u: nat, sid: SessionId, s: nat)
    requires ValidConfig(cfg) && Inv(cfg, st) && Enabled(cfg, st, Unsubscribe(t, u)) && (t != sid || u != s)
    requires Settled(cfg, st, sid, s) && sid in st.nrt.sessions[s]
    ensures Settled(cfg, Next(cfg, st, Unsubscribe(t, u)), sid, s)
  {
    RemoveOutcome(cfg, st, t, u);
    if u == s {
      assert sid in st.nrt.sessions[s] - {t};
    }
  }

  /** A session's list id never decreases. */
  lemma NextFrameIsNoOlder(cfg: Config, st: State, sid: SessionId)
    requires ValidConfig(cfg) && Inv(cfg, st) && Enabled(cfg, st, Receive(sid))
    ensures var x := st.sessions[sid]; x.listId <= st.log[x.cursor + 1].listId
  {
    var x := st.sessions[sid];
    assert SessionOk(cfg, st.nrt, st.log, st.history, sid, x);
    assert PdoOk(cfg, st.log, st.samples, st.history, x.cursor + 1);
  }

  lemma SettledOnReceive(cfg: Config, st: State, o: SessionId, sid: SessionId, s: nat)
    requires ValidConfig(cfg) && Inv(cfg, st) && Enabled(cfg, st, Receive(o)) && Settled(cfg, st, sid, s)
    ensures Settled(cfg, Next(cfg, st, Receive(o)), sid, s)
  {
    NextFrameIsNoOlder(cfg, st, o);
  }

  /** Nor does it while init is at work. */
  lemma SettledOnInit(cfg: Config, st: State, a: Action, sid: SessionId, s: nat)
    requires ValidConfig(cfg) && Inv(cfg, st) && Enabled(cfg, st, a) && Settled(cfg, st, sid, s)
    requires a.Scan? || a.FetchList?
    ensures Settled(cfg, Next(cfg, st, a), sid, s)
  {
    assert SessionOk(cfg, st.nrt, st.log, st.history, sid, st.sessions[sid]);
  }

  lemma SettledKeeps(cfg: Config, st: State, a: Action, sid: SessionId, s: nat)
    requires ValidConfig(cfg) && Inv(cfg, st) && Enabled(cfg, st, a) && a != Unsubscribe(sid, s)
    requires Settled(cfg, st, sid, s)
    ensures Settled(cfg, Next(cfg, st, a), sid, s)
  {
    if a.Subscribe? || a.Unsubscribe? {
      SettledOnPublish(cfg, st, a, sid, s);
    } else if a.Receive? {
      SettledOnReceive(cfg, st, a.sid, sid, s);
    } else if a.Scan? || a.FetchList? {
      SettledOnInit(cfg, st, a, sid, s);
    }
  }

  lemma {:induction false} SettledForever(cfg: Config, steps: seq<Action>, more: seq<Action>, sid: SessionId, s: nat)
    requires ValidConfig(cfg) && Run(cfg, steps).Some? && Settled(cfg, Run(cfg, steps).value, sid, s)
    requires Run(cfg, steps + more).Some? && Unsubscribe(sid, s) !in more
    ensures Settled(cfg, Run(cfg, steps + more).value, sid, s)
  {
    if more == [] {
      assert steps + more == steps;
    } else {
      RunPrefix(cfg, steps, more);
      SettledForever(cfg, steps, more[..|more| - 1], sid, s);
      SettledKeeps(cfg, Run(cfg, steps + more[..|more| - 1]).value, more[|more| - 1], sid, s);
    }
  }

  /** Once a session's list id has reached the last change of a signal it subscribes to, the
      signal is active and every list the session loads while it stays subscribed contains
      the signal, re-synchronisation included. */
  lemma {:induction false} ActivationStable(cfg: Config, steps: seq<Action>, more: seq<Action>, sid: SessionId, s: nat)
    requires ValidConfig(cfg) && Run(cfg, steps).Some? && Settled(cfg, Run(cfg, steps).value, sid, s)
    requires Run(cfg, steps + more).Some? && Unsubscribe(sid, s) !in more
    ensures var st := Run(cfg, steps + more).value;
            sid in st.sessions && (SyncedSession(st, sid) ==> Readable(cfg, st.sessions[sid], s))
  {
    SettledForever(cfg, steps, more, sid, s);
    var st := Run(cfg, steps + more).value;
    if SyncedSession(st, sid) {
      SettledReadable(cfg, st, sid, s);
    }
  }

  /** s becomes active in this step, by a list that the session loads. */
  ghost predicate Activates(cfg: Config, st: State, a: Action, sid: SessionId, s: nat)
    requires ValidConfig(cfg) && Inv(cfg, st)
  {
    && (a == Receive(sid) || a == Scan(sid)) && Enabled(cfg, st, a)
    && s !in st.sessions[sid].active && s in Next(cfg, st, a).sessions[sid].active
  }

  /** The guard of loadSignalList is what makes an activation settle. */
  lemma LoadSettles(cfg: Config, st: State, a: Action, sid: SessionId, s: nat)
    requires ValidConfig(cfg) && Inv(cfg, st) && Activates(cfg, st, a, sid, s)
    ensures Settled(cfg, Next(cfg, st, a), sid, s)
  {
  }

  /** Once a list that a session loads has activated a signal, the signal can be read in every
      later state in which the session is in sync, until it unsubscribes. */
  lemma {:induction false} ActivatedStaysReadable(
    cfg: Config, steps: seq<Action>, a: Action, more: seq<Action>, sid: SessionId, s: nat)
    requires ValidConfig(cfg) && Run(cfg, steps).Some? && Activates(cfg, Run(cfg, steps).value, a, sid, s)
    requires Run(cfg, steps + [a] + more).Some? && Unsubscribe(sid, s) !in more
    ensures var st := Run(cfg, steps + [a] + more).value;
            sid in st.sessions && (SyncedSession(st, sid) ==> Readable(cfg, st.sessions[sid], s))
  {
    RunSnoc(cfg, steps, a);
    LoadSettles(cfg, Run(cfg, steps).value, a, sid, s);
    ActivationStable(cfg, steps + [a], more, sid, s);
  }

  lemma GuardDecidesListing(cfg: Config, st: State, s: nat, from: nat)
    requires ValidConfig(cfg) && Inv(cfg, st) && s < |cfg| && from < |st.history|
    requires st.nrt.sessions[s] != {} && Listed(cfg, st.history[from], s)
    ensures (forall id :: from <= id < |st.history| ==> Listed(cfg, st.history[id], s))
            <==> st.nrt.subscriptionId[s] <= from
  {
    assert SpanOk(cfg, st.nrt, st.history, s);
    var last := st.nrt.subscriptionId[s];
    if from < last {
      assert !Listed(cfg, st.history[last - 1], s);
    }
  }

  /** subscribe would activate s at once, without the guard of loadSignalList. */
  ghost predicate ActivatesEarly(cfg: Config, st: State, sid: SessionId, s: nat)
    requires ValidConfig(cfg) && Sized(cfg, st.nrt)
  {
    && SyncedSession(st, sid) && s < |cfg|
    && s !in st.sessions[sid].subscribed && s in st.sessions[sid].transferred
    && TaskInsert(cfg, st.nrt, s, sid).command.None?
  }

  /** Every list from the session's own to the newest contains s. */
  ghost predicate ListedFromHere(cfg: Config, st: State, sid: SessionId, s: nat)
    requires ValidConfig(cfg) && sid in st.sessions
  {
    forall id :: st.sessions[sid].listId <= id < |st.history| ==> Listed(cfg, st.history[id], s)
  }

  lemma EarlyActivationAt(cfg: Config, st: State, sid: SessionId, s: nat)
    requires ValidConfig(cfg) && Inv(cfg, st) && ActivatesEarly(cfg, st, sid, s)
    ensures ListedFromHere(cfg, st, sid, s) <==> st.nrt.subscriptionId[s] <= st.sessions[sid].listId
  {
    var x := st.sessions[sid];
    assert SessionOk(cfg, st.nrt, st.log, st.history, sid, x);
    assert WellFormed(cfg, st.history[x.listId]);
    FlattenListed(cfg, st.history[x.listId]);
    GuardDecidesListing(cfg, st, s, x.listId);
  }

  /** Where subscribe activates a signal at once, every list that the session may still
      load contains the signal if and only if the guard of loadSignalList, which subscribe
      leaves out, holds as well. */
  lemma {:induction false} EarlyActivation(cfg: Config, steps: seq<Action>, sid: SessionId, s: nat)
    requires ValidConfig(cfg) && Run(cfg, steps).Some? && ActivatesEarly(cfg, Run(cfg, steps).value, sid, s)
    ensures var st := Run(cfg, steps).value;
            ListedFromHere(cfg, st, sid, s) <==> st.nrt.subscriptionId[s] <= st.sessions[sid].listId
  {
    EarlyActivationAt(cfg, Run(cfg, steps).value, sid, s);
  }

  // ---- Synchronisation ----

  /** init has caught a data frame older than the newest command. */
  ghost predicate Stranded(st: State, sid: SessionId) {
    && sid in st.sessions
    && var x := st.sessions[sid];
       && (x.phase.FetchingList? || x.phase.Scanning?)
       && x.cursor < |st.log| && st.log[x.cursor].DataPdo?
       && st.log[x.cursor].listId < st.nrt.listId
       && (x.phase.Scanning? ==> st.log[x.cursor].listId < x.listId)
  }

  lemma StrandedKeeps(cfg: Config, st: State, a: Action, sid: SessionId)
    requires ValidConfig(cfg) && Inv(cfg, st) && Enabled(cfg, st, a) && Stranded(st, sid)
    ensures Stranded(Next(cfg, st, a), sid)
  {
    if a.Subscribe? {
      InsertOutcome(cfg, st, a.sid, a.signal);
    } else if a.Unsubscribe? {
      RemoveOutcome(cfg, st, a.sid, a.signal);
    }
  }

  lemma {:induction false} StrandedForever(cfg: Config, steps: seq<Action>, more: seq<Action>, sid: SessionId)
    requires ValidConfig(cfg) && Run(cfg, steps).Some? && Stranded(Run(cfg, steps).value, sid)
    requires Run(cfg, steps + more).Some?
    ensures Stranded(Run(cfg, steps + more).value, sid)
  {
    if more == [] {
      assert steps + more == steps;
    } else {
      RunPrefix(cfg, steps, more);
      StrandedForever(cfg, steps, more[..|more| - 1], sid);
      StrandedKeeps(cfg, Run(cfg, steps + more[..|more| - 1]).value, more[|more| - 1], sid);
    }
  }

  ghost predicate CanSync(cfg: Config, steps: seq<Action>, sid: SessionId)
    requires ValidConfig(cfg)
  {
    exists more: seq<Action> :: Run(cfg, steps + more).Some? && SyncedSession(Run(cfg, steps + more).value, sid)
  }

  lemma {:induction false} StrandedCannotSync(cfg: Config, steps: seq<Action>, sid: SessionId)
    requires ValidConfig(cfg) && Run(cfg, steps).Some? && Stranded(Run(cfg, steps).value, sid)
    ensures !CanSync(cfg, steps, sid)
  {
    forall more: seq<Action> | Run(cfg, steps + more).Some?
      ensures !SyncedSession(Run(cfg, steps + more).value, sid)
    {
      StrandedForever(cfg, steps, more, sid);
    }
  }

  /** init has caught a data frame of the newest list. */
  ghost predicate OnFreshFrame(st: State, sid: SessionId) {
    && sid in st.sessions && st.sessions[sid].phase.FetchingList?
    && st.sessions[sid].cursor < |st.log|
    && st.log[st.sessions[sid].cursor].DataPdo?
    && st.log[st.sessions[sid].cursor].listId == st.nrt.listId
  }

  lemma FreshFrameSyncs(cfg: Config, st: State, sid: SessionId)
    requires ValidConfig(cfg) && Inv(cfg, st) && OnFreshFrame(st, sid)
    ensures Enabled(cfg, st, FetchList(sid))
    ensures var st1 := Next(cfg, st, FetchList(sid));
            Inv(cfg, st1) ==> Enabled(cfg, st1, Scan(sid)) && SyncedSession(Next(cfg, st1, Scan(sid)), sid)
  {
  }

  lemma {:induction false} FreshCanSync(cfg: Config, steps: seq<Action>, sid: SessionId)
    requires ValidConfig(cfg) && Run(cfg, steps).Some? && OnFreshFrame(Run(cfg, steps).value, sid)
    ensures CanSync(cfg, steps, sid)
  {
    FreshFrameSyncs(cfg, Run(cfg, steps).value, sid);
    RunSnoc(cfg, steps, FetchList(sid));
    RunSnoc(cfg, steps + [FetchList(sid)], Scan(sid));
    assert steps + [FetchList(sid)] + [Scan(sid)] == steps + [FetchList(sid), Scan(sid)];
  }

  lemma CatchUpOutcome(cfg: Config, st: State, sid: SessionId)
    requires ValidConfig(cfg) && Inv(cfg, st) && Enabled(cfg, st, CatchUp(sid))
    requires st.log != [] && st.log[|st.log| - 1].DataPdo?
    ensures var st' := Next(cfg, st, CatchUp(sid));
            if TailId(st.log) == st.nrt.listId then OnFreshFrame(st', sid) else Stranded(st', sid)
  {
    assert PdoOk(cfg, st.log, st.samples, st.history, |st.log| - 1);
  }

  /** init does not move past a data frame once it stands on one. So a session that catches
      up on a data frame can ever get into sync if and only if that frame already belongs
      to the newest list. */
  lemma {:induction false} CatchUpOnDataFrame(cfg: Config, steps: seq<Action>, sid: SessionId)
    requires ValidConfig(cfg) && Run(cfg, steps).Some? && Run(cfg, steps + [CatchUp(sid)]).Some?
    requires var log := Run(cfg, steps).value.log;
             log != [] && log[|log| - 1].DataPdo?
    ensures CanSync(cfg, steps + [CatchUp(sid)], sid)
            <==> TailId(Run(cfg, steps).value.log) == Run(cfg, steps).value.nrt.listId
  {
    RunSnoc(cfg, steps, CatchUp(sid));
    CaughtUp(cfg, Run(cfg, steps).value, steps + [CatchUp(sid)], sid);
  }

  lemma {:induction false} CaughtUp(cfg: Config, st: State, steps: seq<Action>, sid: SessionId)
    requires ValidConfig(cfg) && Inv(cfg, st) && Enabled(cfg, st, CatchUp(sid))
    requires st.log != [] && st.log[|st.log| - 1].DataPdo?
    requires Run(cfg, steps) == Some(Next(cfg, st, CatchUp(sid)))
    ensures CanSync(cfg, steps, sid) <==> TailId(st.log) == st.nrt.listId
  {
    CatchUpOutcome(cfg, st, sid);
    if TailId(st.log) == st.nrt.listId {
      FreshCanSync(cfg, steps, sid);
    } else {
      StrandedCannotSync(cfg, steps, sid);
    }
  }
}
