/** A session's view of one task: the list it has loaded and the frame it reads. */
module SessionTasks {
  import opened Common
  import opened SignalLists
  import opened Protocol
  import opened ProtocolInvariant
  import opened ProtocolTheorems

  /** rxPdo returns false for NoFrame and true otherwise. */
  datatype RxOutcome = Frame | NoFrame | Lost

  /** rxPdo on a log that does not grow meanwhile, as the repetition of its loop body. */
  ghost function RxPdo(cfg: Config, subscriptionId: seq<nat>, x: Session, log: seq<Pdo>): (Session, RxOutcome)
    requires |subscriptionId| == |cfg|
    decreases |log| - x.cursor
  {
    if x.cursor + 1 >= |log| then (x, NoFrame)
    else
      var y := ReceiveOne(cfg, subscriptionId, x, log[x.cursor + 1]);
      if y.phase.CatchingUp? then (y, Lost)
      else if log[y.cursor].DataPdo? then (y, Frame)
      else RxPdo(cfg, subscriptionId, y, log)
  }

  // ---- What rxPdo promises on any log, intact or not ----

  /** All frames behind place from, up to k, are lists of signals that exist. */
  ghost predicate OnlyLists(cfg: Config, log: seq<Pdo>, from: nat, k: nat) {
    forall i :: from < i < k && i < |log| ==> log[i].SignalListPdo? && InRange(cfg, log[i].signals)
  }

  /** The id of the last list among frames i up to k, or else the given one. */
  function IdAt(log: seq<Pdo>, i: nat, k: nat, id: nat): nat
    requires i <= k <= |log|
    decreases k - i
  {
    if i == k then id else IdAt(log, i + 1, k, if log[i].SignalListPdo? then log[i].listId else id)
  }

  /** The first data frame behind the session's is k, and it is the one to come next: its number
      is the next and its id that of the last list passed over, or of the session's. */
  ghost predicate Expected(cfg: Config, x: Session, log: seq<Pdo>, k: nat) {
    && x.cursor < k < |log| && OnlyLists(cfg, log, x.cursor, k) && log[k].DataPdo?
    && log[k].seqNo == x.seqNo + 1 && log[k].listId == IdAt(log, x.cursor + 1, k, x.listId)
  }

  /** The first frame that is not a list of signals that exist is k, and it is not the one to come
      next. */
  ghost predicate Unexpected(cfg: Config, x: Session, log: seq<Pdo>, k: nat) {
    && x.cursor < k < |log| && OnlyLists(cfg, log, x.cursor, k)
    && match log[k]
       case SignalListPdo(_, l) => !InRange(cfg, l)
       case DataPdo(id, seqNo, _) => seqNo != x.seqNo + 1 || id != IdAt(log, x.cursor + 1, k, x.listId)
  }

  /** s is in one of the lists passed over, whose id is not older than its subscription. */
  ghost predicate Transferred(subscriptionId: seq<nat>, log: seq<Pdo>, from: nat, k: nat, s: nat) {
    exists i :: from < i < k && i < |log| && log[i].SignalListPdo?
                && s in log[i].signals && s < |subscriptionId| && subscriptionId[s] <= log[i].listId
  }

  /** The session y has passed over the lists between x and k: it has loaded the last of them. */
  ghost predicate PassedOver(cfg: Config, subscriptionId: seq<nat>, x: Session, y: Session, log: seq<Pdo>, k: nat) {
    && x.cursor < k <= |log| && y.subscribed == x.subscribed
    && y.listId == IdAt(log, x.cursor + 1, k, x.listId)
    && (if k == x.cursor + 1
        then y.positions == x.positions && y.pdoSize == x.pdoSize && y.transferred == x.transferred
        else log[k - 1].SignalListPdo? && Loaded(cfg, y, log[k - 1].signals))
    && forall s: nat :: s in y.active <==>
         s in x.active || (s in x.subscribed && Transferred(subscriptionId, log, x.cursor, k, s))
  }

  /** What a call of rxPdo on the session x comes to, by the log alone. */
  ghost predicate Received(cfg: Config, subscriptionId: seq<nat>, x: Session, y: Session, log: seq<Pdo>, more: bool) {
    if exists k: nat :: Expected(cfg, x, log, k)
    then && more && y.phase.InSync? && Expected(cfg, x, log, y.cursor)
         && PassedOver(cfg, subscriptionId, x, y, log, y.cursor)
         && y.seqNo == x.seqNo + 1 && y.frame == Some(y.cursor)
    else
      && y.seqNo == x.seqNo && y.frame == x.frame
      && if exists k: nat :: Unexpected(cfg, x, log, k)
         then && more && y.phase.CatchingUp? && Unexpected(cfg, x, log, y.cursor)
              && PassedOver(cfg, subscriptionId, x, y, log, y.cursor)
         else && !more && y.phase.InSync?
              && if x.cursor + 1 >= |log| then y == x
                 else y.cursor == |log| - 1 && PassedOver(cfg, subscriptionId, x, y, log, |log|)
  }

  /** The outcome with the place where the loop has ended. */
  ghost predicate Ended(cfg: Config, subscriptionId: seq<nat>, x: Session, y: Session, log: seq<Pdo>, o: RxOutcome) {
    match o
    case Frame =>
      && y.phase.InSync? && Expected(cfg, x, log, y.cursor) && PassedOver(cfg, subscriptionId, x, y, log, y.cursor)
      && y.seqNo == x.seqNo + 1 && y.frame == Some(y.cursor)
    case Lost =>
      && y.phase.CatchingUp? && Unexpected(cfg, x, log, y.cursor)
      && PassedOver(cfg, subscriptionId, x, y, log, y.cursor)
      && y.seqNo == x.seqNo && y.frame == x.frame
    case NoFrame =>
      && y.phase.InSync? && OnlyLists(cfg, log, x.cursor, |log|) && y.seqNo == x.seqNo && y.frame == x.frame
      && if x.cursor + 1 >= |log| then y == x
         else y.cursor == |log| - 1 && PassedOver(cfg, subscriptionId, x, y, log, |log|)
  }

  predicate IsGoodList(cfg: Config, p: Pdo) {
    p.SignalListPdo? && forall i :: 0 <= i < |p.signals| ==> p.signals[i] < |cfg|
  }

  /** There is one first frame that is not a list of signals that exist. */
  lemma FirstIsUnique(cfg: Config, log: seq<Pdo>, from: nat, k: nat, l: nat)
    requires from < k < |log| && OnlyLists(cfg, log, from, k) && !IsGoodList(cfg, log[k])
    requires from < l < |log| && OnlyLists(cfg, log, from, l) && !IsGoodList(cfg, log[l])
    ensures k == l
  {
  }

  lemma NotOnlyLists(cfg: Config, log: seq<Pdo>, from: nat, k: nat)
    requires from < k < |log| && !IsGoodList(cfg, log[k])
    ensures !OnlyLists(cfg, log, from, |log|)
  {
  }

  lemma EndedIsReceived(cfg: Config, subscriptionId: seq<nat>, x: Session, y: Session, log: seq<Pdo>, o: RxOutcome)
    requires Ended(cfg, subscriptionId, x, y, log, o)
    ensures Received(cfg, subscriptionId, x, y, log, !o.NoFrame?)
  {
    forall k: nat | Expected(cfg, x, log, k)
      ensures o.Frame?
    {
      NotOnlyLists(cfg, log, x.cursor, k);
      if o.Lost? {
        FirstIsUnique(cfg, log, x.cursor, k, y.cursor);
      }
    }
    forall k: nat | Unexpected(cfg, x, log, k)
      ensures !o.NoFrame?
    {
      NotOnlyLists(cfg, log, x.cursor, k);
    }
  }

  /** One list more in front. */
  lemma IdAtFirst(log: seq<Pdo>, i: nat, k: nat, id: nat)
    requires i < k <= |log| && log[i].SignalListPdo?
    ensures IdAt(log, i, k, id) == IdAt(log, i + 1, k, log[i].listId)
  {
  }

  lemma OnlyListsFirst(cfg: Config, log: seq<Pdo>, from: nat, k: nat)
    requires from + 1 < |log| && log[from + 1].SignalListPdo? && InRange(cfg, log[from + 1].signals)
    requires OnlyLists(cfg, log, from + 1, k)
    ensures OnlyLists(cfg, log, from, k)
  {
  }

  lemma PassedFirst(cfg: Config, subscriptionId: seq<nat>, x: Session, y: Session, z: Session, log: seq<Pdo>, k: nat)
    requires |subscriptionId| == |cfg| && x.cursor + 1 < |log|
    requires var p := log[x.cursor + 1];
             && p.SignalListPdo? && InRange(cfg, p.signals)
             && y == Load(cfg, subscriptionId, x.(cursor := x.cursor + 1), p.signals, p.listId)
    requires PassedOver(cfg, subscriptionId, y, z, log, k)
    ensures PassedOver(cfg, subscriptionId, x, z, log, k)
  {
    var p := log[y.cursor];
    IdAtFirst(log, y.cursor, k, x.listId);
    forall s: nat
      ensures s in z.active <==>
                s in x.active || (s in x.subscribed && Transferred(subscriptionId, log, x.cursor, k, s))
    {
      var now := s in p.signals && s < |subscriptionId| && subscriptionId[s] <= p.listId;
      assert now ==> Transferred(subscriptionId, log, x.cursor, k, s);
      assert Transferred(subscriptionId, log, x.cursor, k, s)
             <==> now || Transferred(subscriptionId, log, y.cursor, k, s);
    }
  }

  lemma EndedFirst(cfg: Config, subscriptionId: seq<nat>, x: Session, y: Session, z: Session, log: seq<Pdo>,
                   o: RxOutcome)
    requires |subscriptionId| == |cfg| && x.cursor + 1 < |log|
    requires var p := log[x.cursor + 1];
             && p.SignalListPdo? && InRange(cfg, p.signals)
             && y == Load(cfg, subscriptionId, x.(cursor := x.cursor + 1), p.signals, p.listId)
    requires Ended(cfg, subscriptionId, y, z, log, o)
    ensures Ended(cfg, subscriptionId, x, z, log, o)
  {
    var k := if o.NoFrame? then |log| else z.cursor;
    OnlyListsFirst(cfg, log, x.cursor, k);
    IdAtFirst(log, y.cursor, k, x.listId);
    if o.NoFrame? && y.cursor + 1 >= |log| {
      assert PassedOver(cfg, subscriptionId, y, z, log, k);
    }
    PassedFirst(cfg, subscriptionId, x, y, z, log, k);
  }

  /** On any log, the repetition of the loop body ends at the frame that the log alone tells. */
  lemma {:induction false} RxPdoExact(cfg: Config, subscriptionId: seq<nat>, x: Session, log: seq<Pdo>)
    requires |subscriptionId| == |cfg| && x.phase.InSync?
    ensures var r := RxPdo(cfg, subscriptionId, x, log); Ended(cfg, subscriptionId, x, r.0, log, r.1)
    decreases |log| - x.cursor
  {
    if x.cursor + 1 < |log| {
      var p := log[x.cursor + 1];
      if p.SignalListPdo? && InRange(cfg, p.signals) {
        var y := Load(cfg, subscriptionId, x.(cursor := x.cursor + 1), p.signals, p.listId);
        assert y == ReceiveOne(cfg, subscriptionId, x, p);
        RxPdoExact(cfg, subscriptionId, y, log);
        var r := RxPdo(cfg, subscriptionId, y, log);
        EndedFirst(cfg, subscriptionId, x, y, r.0, log, r.1);
      }
    }
  }

  /** The signals that loadSignalList reports as newly transferred. */
  function Fresh(cfg: Config, subscriptionId: seq<nat>, subscribed: set<nat>, l: seq<nat>, id: nat): set<nat>
    requires |subscriptionId| == |cfg|
  {
    set s | s in l && s in subscribed && s < |cfg| && subscriptionId[s] <= id
  }

  lemma FreshStep(cfg: Config, subscriptionId: seq<nat>, subscribed: set<nat>, l: seq<nat>, id: nat, i: nat)
    requires |subscriptionId| == |cfg| && i < |l| && l[i] < |cfg|
    ensures Fresh(cfg, subscriptionId, subscribed, l[..i + 1], id)
         == Fresh(cfg, subscriptionId, subscribed, l[..i], id)
            + if l[i] in subscribed && subscriptionId[l[i]] <= id then {l[i]} else {}
  {
    assert l[..i + 1] == l[..i] + [l[i]];
  }

  /** What loadSignalList has worked out after i signals. */
  ghost predicate Loading(cfg: Config, l: seq<nat>, i: nat,
                          positions: seq<nat>, size: nat, transferred: set<nat>)
    requires InRange(cfg, l) && i <= |l|
  {
    && positions == Positions(cfg, l[..i])
    && size == TotalSize(cfg, l[..i])
    && transferred == (set s | s in l[..i])
  }

  lemma LoadingStep(cfg: Config, l: seq<nat>, i: nat,
                    positions: seq<nat>, size: nat, transferred: set<nat>)
    requires InRange(cfg, l) && i < |l| && Loading(cfg, l, i, positions, size, transferred)
    ensures |positions| == |cfg|
    ensures Loading(cfg, l, i + 1, positions[l[i] := size], size + cfg[l[i]].memSize, transferred + {l[i]})
  {
    var more := l[..i + 1];
    assert more[..|more| - 1] == l[..i];
    assert more == l[..i] + [l[i]];
  }

  class SessionTaskData {
    const cfg: Config
    var phase: SessionPhase
    var pdo: nat
    var seqNo: nat
    var signalListId: nat
    var signalPosition: seq<nat>
    var pdoSize: nat
    var transferredSet: set<nat>
    var subscribedSet: set<nat>
    var activeSet: set<nat>
    var signalBuffer: Option<nat>

    ghost function View(): Session
      reads this
    {
      Session(phase, pdo, seqNo, signalListId, signalPosition, pdoSize, transferredSet, subscribedSet, activeSet,
              signalBuffer)
    }

    method LoadSignalList(sp: seq<nat>, id: nat, subscriptionId: seq<nat>)
      requires InRange(cfg, sp) && |subscriptionId| == |cfg|
      modifies this`signalPosition, this`transferredSet, this`signalListId, this`pdoSize, this`activeSet
      ensures View() == Load(cfg, subscriptionId, old(View()), sp, id)
    {
      signalPosition := seq(|cfg|, _ => NOT_TRANSFERRED);
      transferredSet := {};
      signalListId := id;
      pdoSize := 0;
      ghost var active := activeSet;
      assert Loading(cfg, sp, 0, signalPosition, pdoSize, transferredSet);
      for i := 0 to |sp|
        invariant signalListId == id
        invariant Loading(cfg, sp, i, signalPosition, pdoSize, transferredSet)
        invariant activeSet == active + Fresh(cfg, subscriptionId, subscribedSet, sp[..i], id)
      {
        LoadingStep(cfg, sp, i, signalPosition, pdoSize, transferredSet);
        FreshStep(cfg, subscriptionId, subscribedSet, sp, id, i);
        signalPosition := signalPosition[sp[i] := pdoSize];
        pdoSize := pdoSize + cfg[sp[i]].memSize;
        transferredSet := transferredSet + {sp[i]};
        if sp[i] in subscribedSet && subscriptionId[sp[i]] <= signalListId {
          activeSet := activeSet + {sp[i]};
        }
      }
      assert sp[..|sp|] == sp;
    }

    /** Returns true where the source returns true; after Lost the session has to run init. */
    method ReceivePdo(log: seq<Pdo>, subscriptionId: seq<nat>) returns (more: bool)
      requires phase.InSync? && |subscriptionId| == |cfg|
      modifies this
      ensures View() == RxPdo(cfg, subscriptionId, old(View()), log).0
      ensures more <==> !RxPdo(cfg, subscriptionId, old(View()), log).1.NoFrame?
      ensures Received(cfg, subscriptionId, old(View()), View(), log, more)
    {
      ghost var x, result := View(), RxPdo(cfg, subscriptionId, View(), log);
      more := FollowLog(log, subscriptionId);
      RxPdoExact(cfg, subscriptionId, x, log);
      EndedIsReceived(cfg, subscriptionId, x, result.0, log, result.1);
    }

    /** The loop over the frames. */
    method FollowLog(log: seq<Pdo>, subscriptionId: seq<nat>) returns (more: bool)
      requires phase.InSync? && |subscriptionId| == |cfg|
      modifies this
      ensures View() == RxPdo(cfg, subscriptionId, old(View()), log).0
      ensures more <==> !RxPdo(cfg, subscriptionId, old(View()), log).1.NoFrame?
    {
      ghost var result := RxPdo(cfg, subscriptionId, View(), log);
      while pdo + 1 < |log|
        invariant phase.InSync?
        invariant RxPdo(cfg, subscriptionId, View(), log) == result
      {
        ghost var x := View();
        pdo := pdo + 1;
        match log[pdo] {
          case SignalListPdo(id, l) =>
            var inRange := forall i :: 0 <= i < |l| ==> l[i] < |cfg|;
            if !inRange {
              phase := CatchingUp;
              return true;
            }
            LoadSignalList(l, id, subscriptionId);
            assert View() == ReceiveOne(cfg, subscriptionId, x, log[pdo]);
          case DataPdo(id, n, _) =>
            if id != signalListId || n != seqNo + 1 {
              phase := CatchingUp;
              return true;
            }
            seqNo := n;
            signalBuffer := Some(pdo);
            return true;
        }
      }
      more := false;
    }

    /** The bytes that getValue's pointer leads to, read for the size of the signal. */
    method ReadValue(log: seq<Pdo>, s: nat) returns (value: Option<seq<Byte>>)
      requires s < |cfg| && |signalPosition| == |cfg|
      ensures value == GetValue(cfg, log, View(), s)
    {
      value := None;
      if signalBuffer.Some? && signalBuffer.value < |log| && log[signalBuffer.value].DataPdo? {
        var data := log[signalBuffer.value].data;
        var o := signalPosition[s];
        if o + cfg[s].memSize <= |data| {
          value := Some(data[o..o + cfg[s].memSize]);
        }
      }
    }
  }

  // ---- rxPdo as steps of the protocol ----

  /** What a call of rxPdo on a session in sync comes to. */
  ghost predicate RxResult(cfg: Config, before: State, after: State, sid: SessionId) {
    && SyncedSession(before, sid) && SyncedSession(after, sid) && |before.nrt.subscriptionId| == |cfg|
    && after.log == before.log
    && var r := RxPdo(cfg, before.nrt.subscriptionId, before.sessions[sid], before.log);
       && after.sessions[sid] == r.0
       && match r.1
          case Frame => r.0.frame == Some(r.0.cursor) && r.0.cursor < |after.log| && after.log[r.0.cursor].DataPdo?
          case NoFrame => r.0.cursor + 1 == |after.log|
          case Lost => false
  }

  lemma RxResultStep(cfg: Config, st: State, sid: SessionId, after: State)
    requires ValidConfig(cfg) && Inv(cfg, st) && Enabled(cfg, st, Receive(sid))
    requires var st1 := Next(cfg, st, Receive(sid));
             if st1.log[st1.sessions[sid].cursor].DataPdo? then after == st1 else RxResult(cfg, st1, after, sid)
    ensures RxResult(cfg, st, after, sid)
  {
    ReceiveAccepts(cfg, st, sid);
    RxResultFrom(cfg, st, Next(cfg, st, Receive(sid)), after, sid);
  }

  lemma RxResultFrom(cfg: Config, st: State, st1: State, after: State, sid: SessionId)
    requires |st.nrt.subscriptionId| == |cfg| && SyncedSession(st, sid) && SyncedSession(st1, sid)
    requires st1.log == st.log && st1.nrt == st.nrt && st.sessions[sid].cursor + 1 < |st.log|
    requires var x := st.sessions[sid];
             st1.sessions[sid] == ReceiveOne(cfg, st.nrt.subscriptionId, x, st.log[x.cursor + 1])
    requires if st1.log[st1.sessions[sid].cursor].DataPdo? then after == st1 else RxResult(cfg, st1, after, sid)
    ensures RxResult(cfg, st, after, sid)
  {
    RxPdoOnce(cfg, st.nrt.subscriptionId, st.sessions[sid], st.log);
  }

  lemma RxPdoOnce(cfg: Config, subscriptionId: seq<nat>, x: Session, log: seq<Pdo>)
    requires |subscriptionId| == |cfg| && x.cursor + 1 < |log|
    ensures var y := ReceiveOne(cfg, subscriptionId, x, log[x.cursor + 1]);
            RxPdo(cfg, subscriptionId, x, log)
            == if y.phase.CatchingUp? then (y, Lost)
               else if log[y.cursor].DataPdo? then (y, Frame) else RxPdo(cfg, subscriptionId, y, log)
  {
  }

  lemma RxResultEnd(cfg: Config, st: State, sid: SessionId)
    requires ValidConfig(cfg) && Inv(cfg, st) && SyncedSession(st, sid) && st.sessions[sid].cursor + 1 >= |st.log|
    ensures RxResult(cfg, st, st, sid)
  {
    assert SessionOk(cfg, st.nrt, st.log, st.history, sid, st.sessions[sid]);
  }

  lemma {:induction false} OneReceive(cfg: Config, steps: seq<Action>, sid: SessionId, st: State) returns (st': State)
    requires ValidConfig(cfg) && Run(cfg, steps) == Some(st) && SyncedSession(st, sid)
    requires st.sessions[sid].cursor + 1 < |st.log|
    ensures Run(cfg, steps + [Receive(sid)]) == Some(st')
    ensures SyncedSession(st', sid) && st'.log == st.log && st'.sessions[sid].cursor == st.sessions[sid].cursor + 1
    ensures if st'.log[st'.sessions[sid].cursor].DataPdo? then RxResult(cfg, st, st', sid)
            else forall after :: RxResult(cfg, st', after, sid) ==> RxResult(cfg, st, after, sid)
  {
    RunSnoc(cfg, steps, Receive(sid));
    st' := Next(cfg, st, Receive(sid));
    AcceptedAt(cfg, st, sid);
    if st'.log[st'.sessions[sid].cursor].DataPdo? {
      RxResultStep(cfg, st, sid, st');
    } else {
      forall after | RxResult(cfg, st', after, sid)
        ensures RxResult(cfg, st, after, sid)
      {
        RxResultStep(cfg, st, sid, after);
      }
    }
  }

  lemma Prepend(steps: seq<Action>, a: Action, rest: seq<Action>)
    ensures steps + [] == steps
    ensures steps + [a] + rest == steps + ([a] + rest)
    ensures (forall b :: b in rest ==> b == a) ==> forall b :: b in [a] + rest ==> b == a
  {
  }

  /** A call of rxPdo is a number of Receive steps. It never leaves through the out-of-sync
      exit; where it returns a frame, the session stands on that frame. */
  lemma {:induction false} RxPdoIsReceives(cfg: Config, steps: seq<Action>, sid: SessionId, st: State)
    returns (more: seq<Action>, after: State)
    requires ValidConfig(cfg) && Run(cfg, steps) == Some(st) && SyncedSession(st, sid)
    ensures (forall a :: a in more ==> a == Receive(sid)) && Run(cfg, steps + more) == Some(after)
    ensures RxResult(cfg, st, after, sid)
    decreases |st.log| - st.sessions[sid].cursor
  {
    if st.sessions[sid].cursor + 1 >= |st.log| {
      more, after := [], st;
      Prepend(steps, Receive(sid), []);
      RxResultEnd(cfg, st, sid);
    } else {
      var st' := OneReceive(cfg, steps, sid, st);
      more, after := [Receive(sid)], st';
      if st'.log[st'.sessions[sid].cursor].SignalListPdo? {
        var rest;
        rest, after := RxPdoIsReceives(cfg, steps + [Receive(sid)], sid, st');
        Prepend(steps, Receive(sid), rest);
        more := [Receive(sid)] + rest;
      }
    }
  }
}
