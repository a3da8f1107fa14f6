/** What a client gets for what it asks: the reduction, blocksize and size of a subscription are
    those of its request, whatever else goes on. */
module SchedulerPromises {
  import opened Common
  import opened Scheduler
  import opened SchedulerInvariant
  import opened SchedulerTheorems

  /** What a channel holds before its first value. */
  function Zeros(size: nat): Value {
    seq(size, _ => 0)
  }

  /** Event channels look at every PDO, others at every d-th. */
  function SetAsked(key: Key, d: nat, b: nat): SetKey {
    SetKey(key.group, if b == 0 then 1 else d, b)
  }

  ghost predicate AsAsked(m: Manager, key: Key, d: nat, b: nat) {
    key in m.subscriptions && SetOf(m, key) == SetAsked(key, d, b) && m.subscriptions[key].triggerStart == d
  }

  /** A channel that is not active yet, as it was asked for. */
  ghost predicate Waiting(m: Manager, key: Key, d: nat, b: nat, size: nat) {
    && AsAsked(m, key, d, b) && !IsActive(m, key)
    && m.subscriptions[key].trigger == 0 && (b == 0 ==> m.subscriptions[key].data == [Zeros(size)])
  }

  lemma SubscribedWaits(m: Manager, key: Key, d: nat, b: nat, size: nat)
    requires Tidy(m)
    ensures var m' := Subscribe(m, key, d, b, size);
            Waiting(m', key, d, b, size) && m'.history == m.history && m'.printed == m.printed
  {
    SubscribeDetaches(m, key, d, b, size);
    var m' := Subscribe(m, key, d, b, size);
    assert b == 0 ==> m'.subscriptions[key].data == [Zeros(size)];
    assert forall k :: k in m'.sets ==> key !in m'.sets[k].members;
  }

  // ---- Only what was asked for is printed ----

  /** The elements of key from PDO number since on are in blocks of its own set. */
  ghost predicate PrintsOnly(m: Manager, since: nat, key: Key, k: SetKey) {
    forall l, n :: since <= n && PrintedAt(m, key, l, n) ==> l == k
  }

  lemma ReceivedAsAsked(channels: nat, m: Manager, p: Pdo, key: Key, d: nat, b: nat)
    requires Inv(channels, m) && AllReady(m, p) && AsAsked(m, key, d, b)
    ensures AsAsked(Receive(m, p), key, d, b)
  {
    assert key in Receive(m, p).subscriptions;
  }

  lemma PrintedForMembers(channels: nat, m: Manager, p: Pdo, key: Key, k: SetKey)
    requires Inv(channels, m) && AllReady(m, p) && key in m.subscriptions
    requires PrintedAt(Receive(m, p), key, k, |m.history|)
    ensures k == SetOf(m, key)
  {
    PrintedNow(channels, m, p, k);
    assert SetOk(k, m.sets[k], m);
    assert key in Queue(k.blocksize, m.sets[k], m.subscriptions, p);
  }

  lemma AskedOnReceive(channels: nat, m: Manager, p: Pdo, since: nat, key: Key, d: nat, b: nat)
    requires Inv(channels, m) && |p.values| == channels && AllReady(m, p) && AsAsked(m, key, d, b)
    requires PrintsOnly(m, since, key, SetAsked(key, d, b))
    ensures AsAsked(Receive(m, p), key, d, b) && PrintsOnly(Receive(m, p), since, key, SetAsked(key, d, b))
  {
    ReceivedAsAsked(channels, m, p, key, d, b);
    forall l, n | since <= n && PrintedAt(Receive(m, p), key, l, n)
      ensures l == SetAsked(key, d, b)
    {
      if n == |m.history| {
        PrintedForMembers(channels, m, p, key, l);
      } else {
        PrintedEarlier(m, p, l, n);
        assert PrintedAt(m, key, l, n);
      }
    }
  }

  /** The subscription of key is as it was, or has been reset, and is active if it was. */
  ghost predicate LeftAlone(m: Manager, m': Manager, key: Key) {
    && key in m.subscriptions && key in m'.subscriptions && m'.history == m.history && m'.printed == m.printed
    && (m'.subscriptions[key] == m.subscriptions[key]
        || (IsActive(m, key) && m'.subscriptions[key] == Reset(m.subscriptions[key])))
    && (IsActive(m', key) <==> IsActive(m, key))
  }

  lemma DetachedAlone(m: Manager, m': Manager, other: Key, key: Key)
    requires Detached(m, m', other) && SameBut(m.subscriptions, m'.subscriptions, other) && key != other
    requires key in m.subscriptions
    ensures LeftAlone(m, m', key)
  {
  }

  lemma SyncAlone(m: Manager, key: Key)
    requires key in m.subscriptions
    ensures LeftAlone(m, Sync(m), key)
  {
  }

  lemma ActivateAlone(m: Manager, other: Key, key: Key)
    requires key in m.subscriptions && other in m.subscriptions && other != key
    ensures LeftAlone(m, Activate(m, other), key)
  {
  }

  lemma SubscriptionSpared(channels: nat, m: Manager, a: Action, key: Key)
    requires Inv(channels, m) && Possible(channels, m, a) && Spares(a, key) && key in m.subscriptions
    requires !a.DoReceive? && a != DoActivate(key)
    ensures LeftAlone(m, Next(channels, m, a), key)
  {
    SetsTidy(m);
    match a
    case DoSubscribe(other, d, b, size) =>
      SubscribeDetaches(m, other, d, b, size);
      DetachedAlone(m, Next(channels, m, a), other, key);
    case DoUnsubscribe(other) =>
      if other in m.subscriptions {
        UnsubscribeDetaches(m, other);
        DetachedAlone(m, Next(channels, m, a), other, key);
      }
    case DoActivate(other) => ActivateAlone(m, other, key);
    case DoSync => SyncAlone(m, key);
  }

  lemma AskedNext(channels: nat, m: Manager, a: Action, since: nat, key: Key, d: nat, b: nat)
    requires Inv(channels, m) && Possible(channels, m, a) && Spares(a, key) && AsAsked(m, key, d, b)
    requires PrintsOnly(m, since, key, SetAsked(key, d, b))
    ensures var m' := Next(channels, m, a);
            AsAsked(m', key, d, b) && PrintsOnly(m', since, key, SetAsked(key, d, b))
  {
    if a.DoReceive? {
      InvReady(channels, m, a.pdo);
      AskedOnReceive(channels, m, a.pdo, since, key, d, b);
    } else {
      if a != DoActivate(key) {
        SubscriptionSpared(channels, m, a, key);
      }
      var m' := Next(channels, m, a);
      forall l, n | since <= n && PrintedAt(m', key, l, n)
        ensures l == SetAsked(key, d, b)
      {
        assert PrintedAt(m, key, l, n);
      }
    }
  }

  lemma {:induction false} AskedRun(channels: nat, m: Manager, actions: seq<Action>, key: Key, d: nat, b: nat)
    requires Inv(channels, m) && AsAsked(m, key, d, b)
    requires RunFrom(channels, m, actions).Some? && Spared(actions, key)
    ensures var m' := RunFrom(channels, m, actions).value;
            AsAsked(m', key, d, b) && PrintsOnly(m', |m.history|, key, SetAsked(key, d, b))
    decreases |actions|
  {
    if actions == [] {
      forall l, n | |m.history| <= n && PrintedAt(m, key, l, n)
        ensures false
      {
        PrintedInThePast(m.printed, m.history, l, n);
      }
    } else {
      var before := actions[..|actions| - 1];
      RunLast(channels, m, actions);
      AskedRun(channels, m, before, key, d, b);
      AskedNext(channels, RunFrom(channels, m, before).value, actions[|actions| - 1], |m.history|, key, d, b);
    }
  }

  // ---- Runs in parts ----

  lemma {:induction false} RunParts(channels: nat, m: Manager, a: seq<Action>, b: seq<Action>)
    requires Inv(channels, m) && RunFrom(channels, m, a + b).Some?
    ensures RunFrom(channels, m, a).Some?
    ensures RunFrom(channels, RunFrom(channels, m, a).value, b) == RunFrom(channels, m, a + b)
    decreases |b|
  {
    if b == [] {
      assert a + b == a;
    } else {
      assert (a + b)[..|a + b| - 1] == a + b[..|b| - 1];
      RunParts(channels, m, a, b[..|b| - 1]);
    }
  }

  lemma {:induction false} RunOne(channels: nat, m: Manager, a: Action)
    requires Inv(channels, m) && RunFrom(channels, m, [a]).Some?
    ensures Possible(channels, m, a) && RunFrom(channels, m, [a]).value == Next(channels, m, a)
  {
    assert [a][..0] == [];
    assert RunFrom(channels, m, []) == Some(m);
  }

  // ---- Blocks ----

  /** A block for a channel asked for with reduction d and blocksize b: b samples with their times,
      from PDOs d apart, of which the last is n. With a reduction of zero, the counter wraps
      around. */
  ghost predicate BlockAsAsked(h: seq<Pdo>, tag: Tag, key: Key, d: nat, b: nat, n: nat)
    requires b > 0 && key in tag.elements
  {
    var samples := tag.elements[key];
    && |samples| == |tag.time| == |tag.stamps| == b && tag.stamps[b - 1] == n
    && (forall i :: 0 <= i < b ==>
          && tag.stamps[i] < |h| && key.channel < |h[tag.stamps[i]].values|
          && samples[i] == h[tag.stamps[i]].values[key.channel] && tag.time[i] == h[tag.stamps[i]].time)
    && forall i, j :: 0 <= i && j == i + 1 && j < b ==>
         tag.stamps[j] == tag.stamps[i] + if d == 0 then 0x1_0000_0000_0000_0000 else d
  }

  /** In every run, once a channel has been asked for with reduction d and blocksize b > 0 and is
      left alone, all its elements are blocks as asked for. */
  lemma BlocksAsAsked(channels: nat, before: seq<Action>, key: Key, d: nat, b: nat, size: nat, more: seq<Action>)
    requires b > 0 && Spared(more, key)
    requires Run(channels, before + [DoSubscribe(key, d, b, size)] + more).Some?
    ensures Run(channels, before).Some?
    ensures var m := Run(channels, before + [DoSubscribe(key, d, b, size)] + more).value;
            forall k, n :: |Run(channels, before).value.history| <= n && PrintedAt(m, key, k, n) ==>
              k == SetKey(key.group, d, b) && BlockAsAsked(m.history, m.printed[(k, n)], key, d, b, n)
  {
    var m := Run(channels, before + [DoSubscribe(key, d, b, size)] + more).value;
    var m1 := Subscribed(channels, before, key, d, b, size, more);
    AskedRun(channels, m1, more, key, d, b);
    forall k, n | |m1.history| <= n && PrintedAt(m, key, k, n)
      ensures k == SetKey(key.group, d, b) && BlockAsAsked(m.history, m.printed[(k, n)], key, d, b, n)
    {
      TagAsAsked(m.history, m.printed[(k, n)], key, d, b, n);
    }
  }

  lemma TagAsAsked(h: seq<Pdo>, tag: Tag, key: Key, d: nat, b: nat, n: nat)
    requires b > 0 && key in tag.elements && TagOk(SetAsked(key, d, b), n, tag, h)
    ensures BlockAsAsked(h, tag, key, d, b, n)
  {
    assert TakenAt(tag.stamps, key.channel, tag.elements[key], h);
  }

  /** The manager after the request. */
  lemma Subscribed(channels: nat, before: seq<Action>, key: Key, d: nat, b: nat, size: nat, more: seq<Action>)
    returns (m1: Manager)
    requires Run(channels, before + [DoSubscribe(key, d, b, size)] + more).Some?
    ensures Run(channels, before).Some? && m1.history == Run(channels, before).value.history
    ensures Inv(channels, m1) && Waiting(m1, key, d, b, size)
    ensures RunFrom(channels, m1, more) == Run(channels, before + [DoSubscribe(key, d, b, size)] + more)
  {
    var a := DoSubscribe(key, d, b, size);
    NewManagerOk(channels);
    RunParts(channels, NEW_MANAGER, before + [a], more);
    RunParts(channels, NEW_MANAGER, before, [a]);
    var m0 := Run(channels, before).value;
    RunOne(channels, m0, a);
    m1 := Next(channels, m0, a);
    SetsTidy(m0);
    SubscribedWaits(m0, key, d, b, size);
  }

  // ---- Event channels ----

  lemma WaitingNext(channels: nat, m: Manager, a: Action, key: Key, d: nat, b: nat, size: nat)
    requires Inv(channels, m) && Possible(channels, m, a) && Spares(a, key) && a != DoActivate(key)
    requires Waiting(m, key, d, b, size)
    ensures Waiting(Next(channels, m, a), key, d, b, size)
  {
    if a.DoReceive? {
      InvReady(channels, m, a.pdo);
      WaitingReceives(channels, m, a.pdo, key, d, b, size);
    } else {
      SubscriptionSpared(channels, m, a, key);
    }
  }

  lemma WaitingReceives(channels: nat, m: Manager, p: Pdo, key: Key, d: nat, b: nat, size: nat)
    requires Inv(channels, m) && AllReady(m, p) && Waiting(m, key, d, b, size)
    ensures Waiting(Receive(m, p), key, d, b, size)
  {
    ReceiveSubscription(channels, m, p, key);
    MembersStay(m, p, SetOf(m, key));
  }

  lemma MembersStay(m: Manager, p: Pdo, k: SetKey)
    requires AllReady(m, p)
    ensures k in Receive(m, p).sets <==> k in m.sets
    ensures k in m.sets ==> Receive(m, p).sets[k].members == m.sets[k].members
  {
  }

  lemma {:induction false} WaitingRun(channels: nat, m: Manager, actions: seq<Action>, key: Key, d: nat, b: nat,
                                      size: nat)
    requires Inv(channels, m) && Waiting(m, key, d, b, size)
    requires RunFrom(channels, m, actions).Some? && Spared(actions, key) && DoActivate(key) !in actions
    ensures Waiting(RunFrom(channels, m, actions).value, key, d, b, size)
    decreases |actions|
  {
    if actions != [] {
      var before := actions[..|actions| - 1];
      RunLast(channels, m, actions);
      WaitingRun(channels, m, before, key, d, b, size);
      WaitingNext(channels, RunFrom(channels, m, before).value, actions[|actions| - 1], key, d, b, size);
    }
  }

  /** A channel that has just become active, as it was asked for. */
  lemma Activated(channels: nat, m: Manager, key: Key, d: nat, b: nat, size: nat)
    requires Inv(channels, m) && Waiting(m, key, d, b, size)
    ensures var m' := Next(channels, m, DoActivate(key));
            && IsActive(m', key) && AsAsked(m', key, d, b) && m'.history == m.history
            && m'.subscriptions == m.subscriptions
  {
    ActivateActivates(m, key);
  }

  /** PDO number since + j brings an element, which is its value, exactly if the rule for reductions,
      starting from zeros, emits at j. */
  ghost predicate EventAt(m: Manager, since: nat, key: Key, d: nat, size: nat, vs: seq<Value>, j: nat)
    requires j < |vs|
  {
    var k := SetKey(key.group, 1, 0);
    && (PrintedAt(m, key, k, since + j) <==> LastEmission(Zeros(size), 0, d, vs[..j + 1]) == j)
    && (PrintedAt(m, key, k, since + j) ==> m.printed[(k, since + j)].elements[key] == [vs[j]])
  }

  /** The elements since then are at least max(1, d) PDOs apart, and the value held is the input
      once that has been constant for max(1, d) PDOs. */
  ghost predicate EventsFrom(m: Manager, since: nat, key: Key, d: nat, size: nat) {
    && since <= |m.history| && key in m.subscriptions
    && var vs, w := Column(m.history[since..], key.channel), if d == 0 then 1 else d;
       && (forall j :: 0 <= j < |vs| ==> EventAt(m, since, key, d, size, vs, j))
       && Apart(m, key, SetKey(key.group, 1, 0), since, w)
       && (since + w <= |m.history| ==>
             forall v :: ConstantFor(m, key.channel, w, v) ==> m.subscriptions[key].data == [v])
  }

  /** In every run, once an event channel of size bytes has been asked for with reduction d and has
      become active, and is left alone, it brings the elements that the rule for reductions gives. */
  lemma EventsAsAsked(channels: nat, before: seq<Action>, key: Key, d: nat, size: nat, mid: seq<Action>,
                      more: seq<Action>, m0: Manager, m1: Manager, m2: Manager)
    requires Run(channels, before) == Some(m0) && Inv(channels, m0)
    requires RunFrom(channels, m0, [DoSubscribe(key, d, 0, size)] + mid) == Some(m1) && Inv(channels, m1)
    requires RunFrom(channels, m1, [DoActivate(key)] + more) == Some(m2)
    requires Spared(mid, key) && DoActivate(key) !in mid && Spared(more, key)
    ensures EventsFrom(m2, |m1.history|, key, d, size)
  {
    var a := DoSubscribe(key, d, 0, size);
    RunParts(channels, m0, [a], mid);
    RunOne(channels, m0, a);
    SetsTidy(m0);
    SubscribedWaits(m0, key, d, 0, size);
    WaitingRun(channels, Next(channels, m0, a), mid, key, d, 0, size);
    EventsFromActivation(channels, m1, key, d, size, more);
  }

  lemma EventsFromActivation(channels: nat, m: Manager, key: Key, d: nat, size: nat, more: seq<Action>)
    requires Inv(channels, m) && Waiting(m, key, d, 0, size) && Spared(more, key)
    requires RunFrom(channels, m, [DoActivate(key)] + more).Some?
    ensures EventsFrom(RunFrom(channels, m, [DoActivate(key)] + more).value, |m.history|, key, d, size)
  {
    RunParts(channels, m, [DoActivate(key)], more);
    RunOne(channels, m, DoActivate(key));
    Activated(channels, m, key, d, 0, size);
    var m1 := Next(channels, m, DoActivate(key));
    EventRun(channels, m1, more, key);
    EventsFollow(channels, m1.subscriptions[key], |m.history|, RunFrom(channels, m1, more).value, key, d, size);
  }

  /** What follows an event channel with reduction d that holds zeros. */
  lemma EventsFollow(channels: nat, s: Subscription, since: nat, m: Manager, key: Key, d: nat, size: nat)
    requires Inv(channels, m) && |s.data| == 1 && s.data == [Zeros(size)] && s.trigger == 0 && s.triggerStart == d
    requires SetKeyOf(key, s) == SetKey(key.group, 1, 0) && Follows(s, since, m, key)
    ensures EventsFrom(m, since, key, d, size)
  {
    var vs := Seen(m, since, key);
    forall j | 0 <= j < |vs|
      ensures EventAt(m, since, key, d, size, vs, j)
    {
      EventFollows(m, s, since, key, d, size, vs, j);
    }
    FollowsApart(s, since, m, key);
    forall v | ConstantFor(m, key.channel, Slots(d), v) && since + Slots(d) <= |m.history|
      ensures m.subscriptions[key].data == [v]
    {
      FollowsSettles(s, since, m, key, v);
    }
  }

  lemma EventFollows(m: Manager, s: Subscription, since: nat, key: Key, d: nat, size: nat, vs: seq<Value>, j: nat)
    requires PrintedOk(m.printed, m.history) && |s.data| == 1 && s.blocksize == 0
    requires s.data == [Zeros(size)] && s.trigger == 0 && s.triggerStart == d
    requires SetKeyOf(key, s) == SetKey(key.group, 1, 0) && Follows(s, since, m, key)
    requires vs == Seen(m, since, key) && j < |vs|
    ensures EventAt(m, since, key, d, size, vs, j)
  {
    EmitsIff(s, vs, j);
    assert PrintedAt(m, key, SetKeyOf(key, s), since + j) <==> Emits(s, vs, j);
    if PrintedAt(m, key, SetKeyOf(key, s), since + j) {
      ElementIsValue(m, key, SetKeyOf(key, s), since + j);
    }
  }

  lemma ElementIsValue(m: Manager, key: Key, k: SetKey, n: nat)
    requires PrintedOk(m.printed, m.history) && PrintedAt(m, key, k, n) && k.blocksize == 0
    ensures n < |m.history| && m.printed[(k, n)].elements[key] == [ValueIn(m.history[n], key.channel)]
  {
    var tag := m.printed[(k, n)];
    assert TagOk(k, n, tag, m.history) && TakenAt(tag.stamps, key.channel, tag.elements[key], m.history);
  }

  // ---- When blocks come ----

  /** n times p */
  function Times(n: nat, p: nat): nat {
    if n == 0 then 0 else Times(n - 1, p) + p
  }

  lemma {:induction false} TimesIs(n: nat, p: nat)
    ensures Times(n, p) == n * p
  {
    if n > 0 {
      TimesIs(n - 1, p);
      Multiplied(n - 1, p);
    }
  }

  lemma Multiplied(a: nat, p: nat)
    ensures (a + 1) * p == a * p + p
  {
  }

  /** How many PDOs until the counter lets one through. */
  function Wait(counter: nat, d: nat): (w: nat)
    ensures w >= 1
  {
    if counter == 0 then Period(d) else counter
  }

  lemma WaitTicks(counter: nat, d: nat)
    requires counter < Period(d)
    ensures Tick(counter, d) == 0 <==> Wait(counter, d) == 1
    ensures Tick(counter, d) != 0 ==> Wait(Tick(counter, d), d) == Wait(counter, d) - 1
  {
  }

  /** How many PDOs until a block is printed that has t of b entries. */
  function DueAt(counter: nat, d: nat, b: nat, t: nat): (due: nat)
    ensures due >= 1
  {
    Wait(counter, d) + Times(if t < b then b - 1 - t else 0, Period(d))
  }

  /** One PDO less is due, unless this is the one that prints. */
  lemma DueTicks(c: nat, d: nat, b: nat, t: nat)
    requires c < Period(d) && t < b
    ensures var c' := Tick(c, d);
            && (DueAt(c, d, b, t) == 1 <==> c' == 0 && t + 1 == b)
            && DueAt(c', d, b, if c' != 0 then t else if t + 1 == b then 0 else t + 1)
               == if DueAt(c, d, b, t) == 1 then Times(b, Period(d)) else DueAt(c, d, b, t) - 1
  {
    WaitTicks(c, d);
  }

  /** How many PDOs until the block of key is printed. */
  ghost function Due(m: Manager, key: Key): (due: nat)
    requires IsActive(m, key)
    ensures due >= 1
  {
    SetDueIn(m, SetOf(m, key))
  }

  /** From one block to the next. */
  function BlockPeriod(k: SetKey): nat {
    Times(k.blocksize, Period(k.decimation))
  }

  /** Blocks come after as many PDOs as are due, and then every b * d PDOs. */
  lemma DueReceive(channels: nat, m: Manager, p: Pdo, key: Key)
    requires Inv(channels, m) && |p.values| == channels && AllReady(m, p)
    requires IsActive(m, key) && m.subscriptions[key].blocksize > 0
    ensures IsActive(Receive(m, p), key) && SetOf(Receive(m, p), key) == SetOf(m, key)
    ensures (SetOf(m, key), |m.history|) in Receive(m, p).printed <==> Due(m, key) == 1
    ensures Due(Receive(m, p), key)
         == if Due(m, key) == 1 then BlockPeriod(SetOf(m, key)) else Due(m, key) - 1
  {
    var k := SetOf(m, key);
    assert SetOk(k, m.sets[k], m);
    InStepReceive(channels, m, p, key);
    ReceiveSubscription(channels, m, p, key);
    PrintedNow(channels, m, p, k);
    SetDue(m, p, k, key);
  }

  /** The same in terms of the set. */
  ghost function SetDueIn(m: Manager, k: SetKey): (due: nat)
    requires k in m.sets
    ensures due >= 1
  {
    var gd := (k.group, k.decimation);
    DueAt(if gd in m.counters then m.counters[gd] else 0, k.decimation, k.blocksize, m.sets[k].timePtr)
  }

  lemma SetDue(m: Manager, p: Pdo, k: SetKey, key: Key)
    requires AllReady(m, p) && k in m.sets && (k.group, k.decimation) in m.counters
    requires k.blocksize > 0 && key in m.sets[k].members && m.sets[k].timePtr < k.blocksize
    requires m.counters[(k.group, k.decimation)] < Period(k.decimation)
    ensures k in Receive(m, p).sets
    ensures Fires(m, k) && Queue(k.blocksize, m.sets[k], m.subscriptions, p) != {} <==> SetDueIn(m, k) == 1
    ensures SetDueIn(Receive(m, p), k) == if SetDueIn(m, k) == 1 then BlockPeriod(k) else SetDueIn(m, k) - 1
  {
    SetReceives(m, p, k, key);
    DueTicks(m.counters[(k.group, k.decimation)], k.decimation, k.blocksize, m.sets[k].timePtr);
  }

  lemma SetReceives(m: Manager, p: Pdo, k: SetKey, key: Key)
    requires AllReady(m, p) && k in m.sets && (k.group, k.decimation) in m.counters
    requires k.blocksize > 0 && key in m.sets[k].members
    ensures var m', gd, t := Receive(m, p), (k.group, k.decimation), m.sets[k].timePtr;
            && k in m'.sets && gd in m'.counters && m'.counters[gd] == Tick(m.counters[gd], k.decimation)
            && (Fires(m, k) <==> m'.counters[gd] == 0)
            && (Queue(k.blocksize, m.sets[k], m.subscriptions, p) != {} <==> t + 1 == k.blocksize)
            && m'.sets[k].timePtr == if m'.counters[gd] != 0 then t else if t + 1 == k.blocksize then 0 else t + 1
  {
    SetTaken(k.blocksize, m.sets[k], m.subscriptions, p, |m.history|, key);
  }

  lemma SetTaken(b: nat, g: SubscriptionSet, subs: map<Key, Subscription>, p: Pdo, n: nat, key: Key)
    requires Ready(b, g, subs, p.values) && b > 0 && key in g.members
    ensures Queue(b, g, subs, p) != {} <==> g.timePtr + 1 == b
    ensures SampledSet(b, g, subs, p, n).timePtr == if g.timePtr + 1 == b then 0 else g.timePtr + 1
  {
  }

  /** Only PDOs and sync matter to when a block comes. */
  lemma DueSpared(channels: nat, m: Manager, a: Action, key: Key)
    requires Inv(channels, m) && Possible(channels, m, a) && Spares(a, key) && IsActive(m, key)
    requires !a.DoReceive? && !a.DoSync?
    ensures var m' := Next(channels, m, a);
            IsActive(m', key) && SetOf(m', key) == SetOf(m, key) && Due(m', key) == Due(m, key)
            && m'.history == m.history && m'.printed == m.printed
  {
    SetsTidy(m);
    PrintedKeeps(channels, m, a);
    match a
    case DoSubscribe(other, d, b, size) =>
      SubscribeDetaches(m, other, d, b, size);
      DetachedDue(m, Next(channels, m, a), other, key);
    case DoUnsubscribe(other) =>
      if other in m.subscriptions {
        UnsubscribeDetaches(m, other);
        DetachedDue(m, Next(channels, m, a), other, key);
      }
    case DoActivate(other) => ActivateDue(channels, m, other, key);
  }

  lemma DetachedDue(m: Manager, m': Manager, other: Key, key: Key)
    requires Detached(m, m', other) && SameBut(m.subscriptions, m'.subscriptions, other) && key != other
    requires IsActive(m, key)
    ensures IsActive(m', key) && SetOf(m', key) == SetOf(m, key) && Due(m', key) == Due(m, key)
  {
    assert key in m.subscriptions;
    assert SetOf(m, key) in m'.sets;
  }

  lemma ActivateDue(channels: nat, m: Manager, other: Key, key: Key)
    requires Inv(channels, m) && other in m.subscriptions && IsActive(m, key)
    ensures var m' := Activate(m, other);
            IsActive(m', key) && SetOf(m', key) == SetOf(m, key) && Due(m', key) == Due(m, key)
  {
    var k := SetOf(m, key);
    assert SetOk(k, m.sets[k], m);
  }

  /** A channel that starts a new set and a new counter waits for a whole block. */
  lemma FirstDue(m: Manager, key: Key)
    requires key in m.subscriptions && m.subscriptions[key].blocksize > 0
    requires var k := SetOf(m, key); k !in m.sets && (k.group, k.decimation) !in m.counters
    ensures var k := SetOf(m, key);
            IsActive(Activate(m, key), key) && Due(Activate(m, key), key) == BlockPeriod(k)
  {
    var k := SetOf(m, key);
    ActivateActivates(m, key);
  }

  /** What is due j PDOs on, if first was due to begin with: it counts down to 1, and then from the
      period. */
  function DueLater(first: nat, period: nat, j: nat): nat {
    if j == 0 then first
    else
      var due := DueLater(first, period, j - 1);
      if due == 1 then period else if due == 0 then 0 else due - 1
  }

  lemma DueNext(first: nat, period: nat, j: nat, due: nat, due': nat)
    requires due == DueLater(first, period, j) && due >= 1 && due' == if due == 1 then period else due - 1
    ensures due' == DueLater(first, period, j + 1)
  {
  }

  /** It comes to 1 where the first is due, and then once in each period. */
  lemma {:induction false} DueIff(first: nat, period: nat, j: nat)
    requires period > 0 && first > 0
    ensures DueLater(first, period, j) == if j < first then first - j else period - (j - first) % period
    ensures DueLater(first, period, j) == 1 <==> j + 1 >= first && (j + 1 - first) % period == 0
  {
    if j > 0 {
      DueIff(first, period, j - 1);
    }
    if j >= first {
      NextRemainder(j - first, period);
    }
    if j > first {
      NextRemainder(j - 1 - first, period);
    }
  }

  lemma NextRemainder(x: nat, p: nat)
    requires p > 0
    ensures (x + 1) % p == if x % p + 1 == p then 0 else x % p + 1
  {
    var q, r := x / p, x % p;
    assert x == q * p + r;
    if r + 1 == p {
      Multiplied(q, p);
      RemainderIs(q + 1, 0, p, x + 1);
    } else {
      RemainderIs(q, r + 1, p, x + 1);
    }
  }

  lemma RemainderIs(q: nat, r: nat, p: nat, x: nat)
    requires r < p && x == q * p + r
    ensures x % p == r
  {
    var q', r' := x / p, x % p;
    assert x == q' * p + r';
    Multiplied(q', p);
    Multiplied(q, p);
    if q' < q {
      Products(q' + 1, q, p);
    } else if q' > q {
      Products(q + 1, q', p);
    }
  }

  lemma Products(a: nat, b: nat, p: nat)
    requires a <= b
    ensures a * p <= b * p
  {
  }

  /** The blocks of k since PDO number since are those that were due. */
  ghost predicate PrintedOnTime(m: Manager, since: nat, k: SetKey, first: nat, period: nat) {
    forall n :: since <= n < |m.history| ==> ((k, n) in m.printed <==> DueLater(first, period, n - since) == 1)
  }

  /** key is in the set k, and the blocks of k come when they are due. */
  ghost predicate Timely(m: Manager, key: Key, k: SetKey, since: nat, first: nat, period: nat) {
    && IsActive(m, key) && SetOf(m, key) == k && since <= |m.history|
    && Due(m, key) == DueLater(first, period, |m.history| - since) && PrintedOnTime(m, since, k, first, period)
  }

  /** In every run that leaves a channel in a block set alone and does not synchronise, its blocks
      come exactly when they are due: the first after Due(m, key) PDOs, and then one every b * d
      PDOs. */
  lemma {:induction false} BlocksOnTime(channels: nat, m: Manager, actions: seq<Action>, key: Key)
    requires Inv(channels, m) && IsActive(m, key) && m.subscriptions[key].blocksize > 0
    requires RunFrom(channels, m, actions).Some? && Spared(actions, key) && DoSync !in actions
    ensures Timely(RunFrom(channels, m, actions).value, key, SetOf(m, key), |m.history|, Due(m, key),
                   BlockPeriod(SetOf(m, key)))
    decreases |actions|
  {
    if actions != [] {
      var before, a := actions[..|actions| - 1], actions[|actions| - 1];
      RunLast(channels, m, actions);
      BlocksOnTime(channels, m, before, key);
      TimelyNext(channels, RunFrom(channels, m, before).value, a, key, SetOf(m, key), |m.history|, Due(m, key));
    }
  }

  lemma TimelyNext(channels: nat, m: Manager, a: Action, key: Key, k: SetKey, since: nat, first: nat)
    requires Inv(channels, m) && Possible(channels, m, a) && Spares(a, key) && a != DoSync && k.blocksize > 0
    requires Timely(m, key, k, since, first, BlockPeriod(k))
    ensures Timely(Next(channels, m, a), key, k, since, first, BlockPeriod(k))
  {
    if a.DoReceive? {
      InvReady(channels, m, a.pdo);
      TimelyReceive(channels, m, a.pdo, key, k, since, first, BlockPeriod(k));
    } else {
      DueSpared(channels, m, a, key);
      TimelyCarries(m, Next(channels, m, a), key, k, since, first, BlockPeriod(k));
    }
  }

  lemma TimelyCarries(m: Manager, m': Manager, key: Key, k: SetKey, since: nat, first: nat, period: nat)
    requires Timely(m, key, k, since, first, period) && IsActive(m', key) && SetOf(m', key) == k
    requires Due(m', key) == Due(m, key) && m'.history == m.history && m'.printed == m.printed
    ensures Timely(m', key, k, since, first, period)
  {
    assert PrintedOnTime(m', since, k, first, period);
  }

  lemma TimelyReceive(channels: nat, m: Manager, p: Pdo, key: Key, k: SetKey, since: nat, first: nat, period: nat)
    requires Inv(channels, m) && |p.values| == channels && AllReady(m, p) && k.blocksize > 0
    requires period == BlockPeriod(k) && Timely(m, key, k, since, first, period)
    ensures Timely(Receive(m, p), key, k, since, first, period)
  {
    DueReceive(channels, m, p, key);
    EarlierStay(m, p, k);
    TimelyStep(m, Receive(m, p), key, k, since, first, period);
  }

  /** Blocks printed earlier are as they were. */
  ghost predicate SameEarlier(m: Manager, m': Manager, k: SetKey) {
    && |m'.history| == |m.history| + 1
    && forall n: nat :: n < |m.history| ==> ((k, n) in m'.printed <==> (k, n) in m.printed)
  }

  lemma EarlierStay(m: Manager, p: Pdo, k: SetKey)
    requires AllReady(m, p)
    ensures SameEarlier(m, Receive(m, p), k)
  {
    forall n: nat | n < |m.history|
      ensures (k, n) in Receive(m, p).printed <==> (k, n) in m.printed
    {
      PrintedEarlier(m, p, k, n);
    }
  }

  lemma TimelyStep(m: Manager, m': Manager, key: Key, k: SetKey, since: nat, first: nat, period: nat)
    requires Timely(m, key, k, since, first, period) && IsActive(m', key) && SetOf(m', key) == k
    requires Due(m', key) == if Due(m, key) == 1 then period else Due(m, key) - 1
    requires SameEarlier(m, m', k) && ((k, |m.history|) in m'.printed <==> Due(m, key) == 1)
    ensures Timely(m', key, k, since, first, period)
  {
    DueNext(first, period, |m.history| - since, Due(m, key), Due(m', key));
    forall n | since <= n < |m'.history|
      ensures (k, n) in m'.printed <==> DueLater(first, period, n - since) == 1
    {
      if n < |m.history| {
        assert (k, n) in m.printed <==> DueLater(first, period, n - since) == 1;
      }
    }
  }
}
