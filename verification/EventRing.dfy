/** The ring of recent events and the sessions that read from it. */
module EventRing {
  import opened Common

  datatype EventData = EventData(event: nat, index: nat, state: bool, time: nat)

  /** Slot i holds the newest event whose number is i modulo the size of the ring. */
  ghost predicate SlotsOk(slots: seq<Option<EventData>>, log: seq<EventData>) {
    && (forall n :: 0 <= n < |log| && |log| - |slots| <= n ==> slots[n % |slots|] == Some(log[n]))
    && (forall i :: |log| <= i < |slots| ==> slots[i] == None)
  }

  /** Number of the oldest event of the last w. */
  function Oldest(total: nat, w: nat): nat {
    if total < w then 0 else total - w
  }

  function NonNull(es: seq<Option<EventData>>): seq<EventData> {
    if es == [] then []
    else (if es[0].Some? then [es[0].value] else []) + NonNull(es[1..])
  }

  lemma {:induction false} NonNullOf(es: seq<Option<EventData>>, log: seq<EventData>)
    requires |es| == |log| && forall i :: 0 <= i < |es| ==> es[i] == Some(log[i])
    ensures NonNull(es) == log
  {
    if es != [] {
      NonNullOf(es[1..], log[1..]);
    }
  }

  lemma {:induction false} NonNullNone(es: seq<Option<EventData>>)
    requires forall i :: 0 <= i < |es| ==> es[i] == None
    ensures NonNull(es) == []
  {
    if es != [] {
      NonNullNone(es[1..]);
    }
  }

  lemma {:induction false} NonNullConcat(a: seq<Option<EventData>>, b: seq<Option<EventData>>)
    ensures NonNull(a + b) == NonNull(a) + NonNull(b)
  {
    if a == [] {
      assert a + b == b;
    } else {
      var first := if a[0].Some? then [a[0].value] else [];
      assert (a + b)[1..] == a[1..] + b;
      assert NonNull(a + b) == first + NonNull(a[1..] + b);
      NonNullConcat(a[1..], b);
      Reassociate(first, NonNull(a[1..]), NonNull(b));
    }
  }

  // ---- Places in the ring ----

  /** The place after that of number x. */
  lemma NextPlace(x: nat, n: nat)
    requires n >= 1
    ensures (x + 1) % n == if x % n + 1 == n then 0 else x % n + 1
  {
    var q, r := x / n, x % n;
    assert x == q * n + r;
    if r + 1 == n {
      PlaceIs(q + 1, 0, n, x + 1);
    } else {
      PlaceIs(q, r + 1, n, x + 1);
    }
  }

  lemma Mono(a: nat, b: nat, n: nat)
    requires a <= b
    ensures a * n <= b * n
  {
  }

  lemma PlaceIs(q: nat, r: nat, n: nat, x: nat)
    requires r < n && x == q * n + r
    ensures x % n == r
  {
    var q', r' := x / n, x % n;
    assert x == q' * n + r' && (q' + 1) * n == q' * n + n && (q + 1) * n == q * n + n;
    if q' < q {
      Mono(q' + 1, q, n);
    } else if q' > q {
      Mono(q + 1, q', n);
    }
  }

  /** Numbers that are less than a ring apart have different places. */
  lemma PlacesDiffer(x: nat, y: nat, n: nat)
    requires x < y < x + n
    ensures x % n != y % n
  {
    var q, r, d := x / n, x % n, y - x;
    assert x == q * n + r && (q + 1) * n == q * n + n;
    if r + d < n {
      PlaceIs(q, r + d, n, y);
    } else {
      PlaceIs(q + 1, r + d - n, n, y);
    }
  }

  /** Storing an event replaces the one a whole ring ago. */
  lemma StoreKeeps(slots: seq<Option<EventData>>, log: seq<EventData>, e: EventData)
    requires |slots| >= 1 && SlotsOk(slots, log)
    ensures SlotsOk(slots[|log| % |slots| := Some(e)], log + [e])
  {
    var n, k := |slots|, |log|;
    forall m | 0 <= m < k + 1 && k + 1 - n <= m
      ensures slots[k % n := Some(e)][m % n] == Some((log + [e])[m])
    {
      if m < k {
        PlacesDiffer(m, k, n);
      }
    }
    if k < n {
      PlaceIs(0, k, n, k);
    }
  }

  // ---- Runs ----

  /** The ring and one session. log has all events ever raised; the session receives from
      number start on, and has received some. */
  datatype State = State(
    slots: seq<Option<EventData>>,
    eventPtr: nat,
    eventId: Option<nat>,
    log: seq<EventData>,
    start: nat,
    received: seq<EventData>)

  function Advance(place: nat, size: nat): nat {
    if place + 1 == size then 0 else place + 1
  }

  function Raise(st: State, e: EventData): State
    requires st.eventPtr < |st.slots|
  {
    st.(slots := st.slots[st.eventPtr := Some(e)], eventPtr := Advance(st.eventPtr, |st.slots|), log := st.log + [e])
  }

  /** getNextEvent: the first call only finds the session its place. */
  function Poll(st: State): (State, Option<EventData>)
    requires st.eventPtr < |st.slots|
  {
    var id := if st.eventId.None? || st.eventId.value >= |st.slots| then st.eventPtr else st.eventId.value;
    var start := if st.eventId.None? then |st.log| else st.start;
    if id == st.eventPtr then (st.(eventId := Some(id), start := start), None)
    else
      var e := st.slots[id];
      (st.(eventId := Some(Advance(id, |st.slots|)),
           received := if e.Some? then st.received + [e.value] else st.received), e)
  }

  function Position(st: State): nat {
    st.start + |st.received|
  }

  /** The session has received every event since it started, once and in order, and is less
      than a ring behind. */
  ghost predicate Inv(st: State) {
    && |st.slots| >= 1 && st.eventPtr == |st.log| % |st.slots| && SlotsOk(st.slots, st.log)
    && (st.eventId.Some? ==>
          && Position(st) <= |st.log| < Position(st) + |st.slots|
          && st.eventId.value == Position(st) % |st.slots|
          && st.received == st.log[st.start..Position(st)])
    && (st.eventId.None? ==> st.received == [])
  }

  /** One more event would not put the session a whole ring behind. */
  predicate Keeps(st: State) {
    st.eventId.Some? ==> |st.log| + 1 < Position(st) + |st.slots|
  }

  lemma RaiseKeeps(st: State, e: EventData)
    requires Inv(st) && Keeps(st)
    ensures Inv(Raise(st, e))
  {
    StoreKeeps(st.slots, st.log, e);
    NextPlace(|st.log|, |st.slots|);
  }

  /** A call delivers the next event if there is one, and only then. */
  lemma PollDelivers(st: State)
    requires Inv(st)
    ensures Inv(Poll(st).0) && Poll(st).0.log == st.log
    ensures st.eventId.None? ==> Poll(st).1 == None
    ensures st.eventId.Some? ==> Poll(st).1 == if Position(st) == |st.log| then None else Some(st.log[Position(st)])
  {
    var n := |st.slots|;
    if st.eventId.Some? {
      var p := Position(st);
      if p < |st.log| {
        PlacesDiffer(p, |st.log|, n);
        NextPlace(p, n);
        assert st.slots[p % n] == Some(st.log[p]);
        assert st.log[st.start..p + 1] == st.log[st.start..p] + [st.log[p]];
      }
    }
  }

  datatype Action = DoRaise(event: EventData) | DoPoll

  /** The state after the given actions; None once the session is a whole ring behind. */
  ghost function Run(st: State, actions: seq<Action>): (r: Option<State>)
    requires Inv(st)
    ensures r.Some? ==> Inv(r.value)
    decreases |actions|
  {
    if actions == [] then Some(st)
    else
      var pre := Run(st, actions[..|actions| - 1]);
      if pre.None? then None
      else
        match actions[|actions| - 1]
        case DoRaise(e) =>
          if !Keeps(pre.value) then None
          else
            RaiseKeeps(pre.value, e);
            Some(Raise(pre.value, e))
        case DoPoll =>
          PollDelivers(pre.value);
          Some(Poll(pre.value).0)
  }

  /** A new ring and a session that has not asked yet. */
  function NewRing(size: nat): (st: State)
    requires size >= 1
    ensures Inv(st)
  {
    State(seq(size, _ => None), 0, None, [], 0, [])
  }

  /** The events raised by some actions, in order. */
  function Raised(actions: seq<Action>): seq<EventData> {
    if actions == [] then []
    else Raised(actions[..|actions| - 1])
         + match actions[|actions| - 1]
           case DoRaise(e) => [e]
           case DoPoll => []
  }

  lemma {:induction false} LogIsRaised(st: State, actions: seq<Action>)
    requires Inv(st) && Run(st, actions).Some?
    ensures Run(st, actions).value.log == st.log + Raised(actions)
    decreases |actions|
  {
    if actions != [] {
      LogIsRaised(st, actions[..|actions| - 1]);
    }
  }

  /** How many events were raised before the first call. */
  function RaisedBefore(actions: seq<Action>): nat {
    if DoPoll !in actions then |Raised(actions)| else RaisedBefore(actions[..|actions| - 1])
  }

  /** How many calls came when there was an event that had not been delivered; the first call only
      marks where to begin. */
  function Delivered(actions: seq<Action>): nat {
    if DoPoll !in actions then 0
    else
      var before := actions[..|actions| - 1];
      var now := actions[|actions| - 1] == DoPoll && DoPoll in before
                 && RaisedBefore(before) + Delivered(before) < |Raised(before)|;
      Delivered(before) + if now then 1 else 0
  }

  lemma {:induction false} StartedAt(size: nat, actions: seq<Action>)
    requires size >= 1 && Run(NewRing(size), actions).Some?
    ensures var r := Run(NewRing(size), actions).value;
            && (r.eventId.Some? <==> DoPoll in actions)
            && (DoPoll in actions ==> r.start == RaisedBefore(actions) && |r.received| == Delivered(actions))
    decreases |actions|
  {
    if actions != [] {
      var before, a := actions[..|actions| - 1], actions[|actions| - 1];
      var pre := Run(NewRing(size), before).value;
      StartedAt(size, before);
      LogIsRaised(NewRing(size), before);
      assert pre.log == Raised(before);
      assert actions == before + [a];
      if a == DoPoll {
        PollDelivers(pre);
        PollCounts(pre);
      }
    }
  }

  /** One call more: where the session starts, and how much it has received. */
  lemma PollCounts(st: State)
    requires Inv(st)
    ensures Poll(st).0.start == if st.eventId.None? then |st.log| else st.start
    ensures |Poll(st).0.received| == |st.received|
                                     + if st.eventId.Some? && Position(st) < |st.log| then 1 else 0
  {
    PollDelivers(st);
    if st.eventId.Some? && Position(st) < |st.log| {
      PlacesDiffer(Position(st), |st.log|, |st.slots|);
    }
  }

  /** From a new ring on, a session has received exactly the events raised from its first call on,
      once and in order, one for each call at which there was one left. */
  lemma {:induction false} ReceivedInOrder(size: nat, actions: seq<Action>)
    requires size >= 1 && Run(NewRing(size), actions).Some?
    ensures var from, n := RaisedBefore(actions), Delivered(actions);
            && from + n <= |Raised(actions)|
            && Run(NewRing(size), actions).value.received == Raised(actions)[from..from + n]
  {
    LogIsRaised(NewRing(size), actions);
    assert [] + Raised(actions) == Raised(actions);
    StartedAt(size, actions);
  }

  // ---- Sessions that fall behind ----

  /** The ring is in order, and the session is at the place of its next event, however far
      behind. */
  ghost predicate Lagging(st: State) {
    && |st.slots| >= 1 && st.eventPtr == |st.log| % |st.slots| && SlotsOk(st.slots, st.log)
    && st.eventId == Some(Position(st) % |st.slots|) && Position(st) <= |st.log|
  }

  /** Numbers have the same place if and only if they are whole rings apart. */
  lemma SamePlace(x: nat, lag: nat, n: nat)
    requires n >= 1
    ensures (x + lag) % n == x % n <==> lag % n == 0
  {
    var k, r := lag / n, lag % n;
    assert lag == k * n + r;
    RingsApart(x + r, k, n);
    if r != 0 {
      PlacesDiffer(x, x + r, n);
    }
  }

  lemma RingsApart(x: nat, k: nat, n: nat)
    requires n >= 1
    ensures (x + k * n) % n == x % n
  {
    var q, r := x / n, x % n;
    assert (q + k) * n == q * n + k * n;
    PlaceIs(q + k, r, n, x + k * n);
  }

  /** The newest number in the place of x, of those below x + lag. */
  lemma NewestInPlace(x: nat, lag: nat, n: nat) returns (y: nat)
    requires n >= 1 && lag >= 1
    ensures x <= y < x + lag <= y + n && y % n == x % n && (y == x <==> lag <= n)
  {
    var k := (lag - 1) / n;
    assert (lag - 1) == k * n + (lag - 1) % n;
    y := x + k * n;
    RingsApart(x, k, n);
    if lag > n {
      if k == 0 {
        assert false;
      }
      Mono(1, k, n);
    } else {
      PlaceIs(0, lag - 1, n, lag - 1);
    }
  }

  lemma PollFinds(st: State, y: nat)
    requires Lagging(st) && y < |st.log| <= y + |st.slots| && y % |st.slots| == Position(st) % |st.slots|
    requires st.eventId.value != st.eventPtr
    ensures Poll(st).1 == Some(st.log[y])
  {
    assert st.slots[y % |st.slots|] == Some(st.log[y]);
  }

  lemma RingIsWhole(n: nat)
    requires n >= 1
    ensures n % n == 0
  {
  }

  /** What a call gives to a session that is any number of events behind: nothing if these are
      whole rings, and otherwise event number y, the newest in the place of the next one, which
      is the next one if and only if the session is less than a ring behind. */
  lemma LaggingPoll(st: State) returns (y: nat)
    requires Lagging(st)
    ensures var p, n, lag := Position(st), |st.slots|, |st.log| - Position(st);
            if lag % n == 0 then Poll(st).1 == None
            else && y < |st.log| <= y + n && y % n == p % n && Poll(st).1 == Some(st.log[y])
                 && (y == p <==> lag < n)
  {
    var p, n, lag := Position(st), |st.slots|, |st.log| - Position(st);
    SamePlace(p, lag, n);
    RingIsWhole(n);
    y := 0;
    if lag % n != 0 {
      y := NewestInPlace(p, lag, n);
      PollFinds(st, y);
    }
  }

  /** After one more event, the next call delivers the event that the session waits for if and
      only if the session keeps up; otherwise it delivers nothing at all. */
  lemma DeliveredIff(st: State, e: EventData)
    requires Inv(st) && st.eventId.Some?
    ensures Poll(Raise(st, e)).1 == (if Keeps(st) then Some((st.log + [e])[Position(st)]) else None)
  {
    var n, lag := |st.slots|, |st.log| + 1 - Position(st);
    StoreKeeps(st.slots, st.log, e);
    NextPlace(|st.log|, n);
    var y := LaggingPoll(Raise(st, e));
    if lag < n {
      PlaceIs(0, lag, n, lag);
    } else {
      PlaceIs(1, 0, n, lag);
    }
  }

  // ---- History ----

  /** getEventHistory for a session at the place id. */
  function History(slots: seq<Option<EventData>>, eventPtr: nat, id: nat): seq<Option<EventData>>
    requires eventPtr < |slots| && id <= |slots|
  {
    var it := if slots[eventPtr].Some? then eventPtr else 0;
    (if it >= eventPtr then slots[it..] else []) + slots[..id]
  }

  /** While the ring has room, it holds the log from the start. */
  lemma HistoryEarly(slots: seq<Option<EventData>>, log: seq<EventData>, id: nat)
    requires id <= |log| < |slots| && SlotsOk(slots, log)
    ensures NonNull(History(slots, |log|, id)) == log[..id]
  {
    var k := |log|;
    assert slots[k] == None;
    forall i | 0 <= i < id
      ensures slots[..id][i] == Some(log[i])
    {
      PlaceIs(0, i, |slots|, i);
    }
    NonNullOf(slots[..id], log[..id]);
    if k == 0 {
      NonNullNone(slots);
      assert slots[0..] + slots[..0] == slots;
    } else {
      assert [] + slots[..id] == slots[..id];
    }
  }

  /** The places of the last n numbers, when k have been given out. */
  lemma RecentPlace(k: nat, n: nat, i: nat)
    requires 1 <= n <= k && i < n
    ensures var w := k % n;
            (k - n + i) % n == if w + i < n then w + i else w + i - n
  {
    var q, w := k / n, k % n;
    assert k == q * n + w && (q - 1) * n == q * n - n;
    if w + i < n {
      PlaceIs(q - 1, w + i, n, k - n + i);
    } else {
      PlaceIs(q, w + i - n, n, k - n + i);
    }
  }

  /** Once the ring is full, the places from the pointer on have the oldest events, and those
      before it the newest. */
  lemma RingHolds(slots: seq<Option<EventData>>, log: seq<EventData>, from: nat, to: nat)
    requires 1 <= |slots| <= |log| && SlotsOk(slots, log) && from <= to <= |slots|
    requires var w := |log| % |slots|; to <= w || w <= from
    ensures var w, first := |log| % |slots|, |log| - |slots|;
            var shift := if to <= w then |slots| - w else 0 - w;
            && 0 <= first + from + shift <= first + to + shift <= |log|
            && NonNull(slots[from..to]) == log[first + from + shift..first + to + shift]
  {
    var n, w, first := |slots|, |log| % |slots|, |log| - |slots|;
    var shift := if to <= w then n - w else 0 - w;
    var es, events := slots[from..to], log[first + from + shift..first + to + shift];
    forall i | 0 <= i < to - from
      ensures es[i] == Some(events[i])
    {
      RingHoldsAt(slots, log, from + i);
    }
    NonNullOf(es, events);
  }

  lemma RingHoldsAt(slots: seq<Option<EventData>>, log: seq<EventData>, j: nat)
    requires j < |slots| <= |log| && SlotsOk(slots, log)
    ensures var w, first := |log| % |slots|, |log| - |slots|;
            slots[j] == Some(log[if j < w then |log| - w + j else first + j - w])
  {
    var n, w := |slots|, |log| % |slots|;
    var i := if j < w then n - w + j else j - w;
    RecentPlace(|log|, n, i);
    assert slots[(|log| - n + i) % n] == Some(log[|log| - n + i]);
  }

  lemma HistoryLate(slots: seq<Option<EventData>>, log: seq<EventData>, id: nat)
    requires 1 <= |slots| <= |log| && id <= |slots| && SlotsOk(slots, log)
    ensures var w, first := |log| % |slots|, |log| - |slots|;
            NonNull(History(slots, w, id))
            == log[first..|log| - w] + (if id <= w then log[|log| - w..|log| - w + id]
                                        else log[|log| - w..] + log[first..first + id - w])
  {
    var w := |log| % |slots|;
    RingHoldsAt(slots, log, w);
    assert History(slots, w, id) == slots[w..] + slots[..id];
    assert slots[w..] == slots[w..|slots|];
    RingHolds(slots, log, w, |slots|);
    NonNullConcat(slots[w..], slots[..id]);
    NewestAndOldest(slots, log, id);
  }

  /** The places up to id: the newest events, and beyond the pointer the oldest. */
  lemma NewestAndOldest(slots: seq<Option<EventData>>, log: seq<EventData>, id: nat)
    requires 1 <= |slots| <= |log| && id <= |slots| && SlotsOk(slots, log)
    ensures var w, first := |log| % |slots|, |log| - |slots|;
            NonNull(slots[..id]) == if id <= w then log[|log| - w..|log| - w + id]
                                    else log[|log| - w..] + log[first..first + id - w]
  {
    var w := |log| % |slots|;
    if id <= w {
      RingHolds(slots, log, 0, id);
      assert slots[..id] == slots[0..id];
    } else {
      RingHolds(slots, log, 0, w);
      RingHolds(slots, log, w, id);
      NonNullConcat(slots[0..w], slots[w..id]);
      assert slots[..id] == slots[0..w] + slots[w..id];
      assert log[|log| - w..|log|] == log[|log| - w..];
    }
  }

  lemma Joined(log: seq<EventData>, i: nat, j: nat, k: nat)
    requires i <= j <= k <= |log|
    ensures log[i..j] + log[j..k] == log[i..k] && log[i..j] + log[j..] == log[i..]
  {
  }

  /** A session gets the last events, as many as the ring has room for, up to those that it has not
      received; but when the ring has started over since, it gets all of them, and the oldest
      twice. */
  lemma HistoryIsRecent(st: State)
    requires Inv(st) && st.eventId.Some?
    ensures st.eventPtr < |st.slots| && st.eventId.value < |st.slots|
    ensures var oldest, ahead := Oldest(|st.log|, |st.slots|), st.eventId.value - st.eventPtr;
            && oldest <= |st.log| && oldest + ahead <= |st.log| && (ahead <= 0 ==> oldest <= Position(st))
            && NonNull(History(st.slots, st.eventPtr, st.eventId.value))
               == if ahead <= 0 then st.log[oldest..Position(st)] else st.log[oldest..] + st.log[oldest..oldest + ahead]
  {
    var n, k, id := |st.slots|, |st.log|, st.eventId.value;
    if k < n {
      PlaceIs(0, k, n, k);
      PlaceIs(0, Position(st), n, Position(st));
      HistoryEarly(st.slots, st.log, id);
    } else {
      HistoryFull(st.slots, st.log, id);
      PositionInRing(Position(st), k, n);
    }
  }

  lemma HistoryFull(slots: seq<Option<EventData>>, log: seq<EventData>, id: nat)
    requires 1 <= |slots| <= |log| && id <= |slots| && SlotsOk(slots, log)
    ensures var w, first := |log| % |slots|, |log| - |slots|;
            NonNull(History(slots, w, id))
            == if id <= w then log[first..|log| - w + id] else log[first..] + log[first..first + id - w]
  {
    var w, first := |log| % |slots|, |log| - |slots|;
    HistoryLate(slots, log, id);
    if id <= w {
      Joined(log, first, |log| - w, |log| - w + id);
    } else {
      Joined(log, first, |log| - w, |log|);
      Reassociate(log[first..|log| - w], log[|log| - w..], log[first..first + id - w]);
    }
  }

  /** How far a session that is less than a ring behind has come. */
  lemma PositionInRing(p: nat, k: nat, n: nat)
    requires p <= k < p + n
    ensures p % n <= k % n ==> p == k - k % n + p % n
    ensures p % n > k % n ==> p == k - n - k % n + p % n
  {
    var q, w := k / n, k % n;
    assert k == q * n + w;
    if k - p <= w {
      PlaceIs(q, w - (k - p), n, p);
    } else {
      assert (q - 1) * n == q * n - n;
      if q == 0 {
        assert false;
      }
      PlaceIs(q - 1, n + w - (k - p), n, p);
    }
  }

  // ---- The list and its readers as objects ----

  class Session {
    var eventId: Option<nat>
    ghost var start: nat
    ghost var received: seq<EventData>

    constructor ()
      ensures eventId == None && received == []
    {
      eventId, start, received := None, 0, [];
    }
  }

  class EventList {
    var slots: seq<Option<EventData>>
    var eventPtr: nat
    ghost var log: seq<EventData>

    ghost function View(session: Session): State
      reads this, session
    {
      State(slots, eventPtr, session.eventId, log, session.start, session.received)
    }

    constructor (history: nat)
      requires history >= 1
      ensures |slots| == history && eventPtr == 0 && log == [] && SlotsOk(slots, log)
    {
      slots, eventPtr, log := seq(history, _ => None), 0, [];
    }

    method NewEvent(e: EventData, session: Session)
      requires Inv(View(session))
      modifies this
      ensures View(session) == Raise(old(View(session)), e)
      ensures Keeps(old(View(session))) ==> Inv(View(session))
    {
      if Keeps(View(session)) {
        RaiseKeeps(View(session), e);
      }
      slots := slots[eventPtr := Some(e)];
      eventPtr := eventPtr + 1;
      if eventPtr == |slots| {
        eventPtr := 0;
      }
      log := log + [e];
    }

    method GetNextEvent(session: Session) returns (e: Option<EventData>)
      requires Inv(View(session))
      modifies session
      ensures (View(session), e) == Poll(old(View(session))) && Inv(View(session))
    {
      PollDelivers(View(session));
      if session.eventId.None? || session.eventId.value >= |slots| {
        session.eventId, session.start := Some(eventPtr), |log|;
      }
      if session.eventId.value == eventPtr {
        return None;
      }
      e := slots[session.eventId.value];
      session.received := session.received + [e.value];
      session.eventId := Some(session.eventId.value + 1);
      if session.eventId.value == |slots| {
        session.eventId := Some(0);
      }
    }
  }
}
