/** What a client can rely on: who is in a printed block, and how event channels are
    throttled. */
module SchedulerTheorems {
  import opened Common
  import opened Scheduler
  import opened SchedulerInvariant

  // ---- Runs in which a subscription is left alone ----

  predicate Spares(a: Action, key: Key) {
    match a
    case DoSubscribe(other, _, _, _) => other != key
    case DoUnsubscribe(other) => other != key
    case DoClear => false
    case _ => true
  }

  ghost predicate Spared(actions: seq<Action>, key: Key) {
    forall i :: 0 <= i < |actions| ==> Spares(actions[i], key)
  }

  lemma {:induction false} RunLast(channels: nat, m: Manager, actions: seq<Action>)
    requires Inv(channels, m) && RunFrom(channels, m, actions).Some? && actions != []
    ensures var pre := RunFrom(channels, m, actions[..|actions| - 1]);
            && pre.Some? && Inv(channels, pre.value)
            && Possible(channels, pre.value, actions[|actions| - 1])
            && RunFrom(channels, m, actions).value == Next(channels, pre.value, actions[|actions| - 1])
  {
  }

  // ---- Joining a block ----

  function SetOf(m: Manager, key: Key): (k: SetKey)
    requires key in m.subscriptions
  {
    SetKeyOf(key, m.subscriptions[key])
  }

  /** key has a sample for every entry of its set's time vector so far. */
  ghost predicate InStep(m: Manager, key: Key) {
    IsActive(m, key) && m.subscriptions[key].nblocks == |m.sets[SetOf(m, key)].stamps|
  }

  lemma PrintedInThePast(printed: map<(SetKey, nat), Tag>, history: seq<Pdo>, k: SetKey, n: nat)
    requires PrintedOk(printed, history) && (k, n) in printed
    ensures n < |history|
  {
    assert TagOk(k, n, printed[(k, n)], history);
  }

  /** What a PDO prints for a set: something whenever the set takes it and the queue is not
      empty. */
  lemma PrintedNow(channels: nat, m: Manager, p: Pdo, k: SetKey)
    requires Inv(channels, m) && AllReady(m, p)
    ensures (k, |m.history|) in Receive(m, p).printed <==>
              k in m.sets && Fires(m, k) && Queue(k.blocksize, m.sets[k], m.subscriptions, p) != {}
    ensures (k, |m.history|) in Receive(m, p).printed ==>
              Receive(m, p).printed[(k, |m.history|)]
              == PrintedTag(k.blocksize, m.sets[k], m.subscriptions, p, |m.history|)
  {
    if (k, |m.history|) in m.printed {
      PrintedInThePast(m.printed, m.history, k, |m.history|);
    }
  }

  lemma SampledInStep(b: nat, g: SubscriptionSet, subs: map<Key, Subscription>, p: Pdo, n: nat, key: Key)
    requires Ready(b, g, subs, p.values) && key in g.members && subs[key].blocksize == b > 0
    requires g.timePtr == |g.stamps|
    ensures subs[key].nblocks == |g.stamps| || Queue(b, g, subs, p) != {} ==>
              SampledMember(b, g, subs, p, n, key).nblocks == |SampledSet(b, g, subs, p, n).stamps|
  {
  }

  /** In a block set, a member in step stays in step, and every member is in step once the
      block has been printed. */
  lemma InStepReceive(channels: nat, m: Manager, p: Pdo, key: Key)
    requires Inv(channels, m) && |p.values| == channels && AllReady(m, p) && IsActive(m, key)
    requires m.subscriptions[key].blocksize > 0
    ensures InStep(m, key) || (SetOf(m, key), |m.history|) in Receive(m, p).printed ==>
              InStep(Receive(m, p), key)
    ensures SetOf(Receive(m, p), key) == SetOf(m, key)
  {
    var k := SetOf(m, key);
    PrintedNow(channels, m, p, k);
    ReceiveSubscription(channels, m, p, key);
    assert SetOk(k, m.sets[k], m);
    if Fires(m, k) {
      SampledInStep(k.blocksize, m.sets[k], m.subscriptions, p, |m.history|, key);
    }
  }

  /** A printed block has an element for exactly those members that were in step. */
  lemma PrintedMembers(channels: nat, m: Manager, p: Pdo, k: SetKey, key: Key)
    requires Inv(channels, m) && |p.values| == channels && AllReady(m, p)
    requires (k, |m.history|) in Receive(m, p).printed && k.blocksize > 0
    ensures key in Receive(m, p).printed[(k, |m.history|)].elements
            <==> InStep(m, key) && SetOf(m, key) == k
  {
    PrintedNow(channels, m, p, k);
    FullMembers(channels, m, p, k, key);
  }

  lemma FullMembers(channels: nat, m: Manager, p: Pdo, k: SetKey, key: Key)
    requires Inv(channels, m) && k in m.sets && Ready(k.blocksize, m.sets[k], m.subscriptions, p.values)
    requires k.blocksize > 0 && Queue(k.blocksize, m.sets[k], m.subscriptions, p) != {}
    ensures key in PrintedTag(k.blocksize, m.sets[k], m.subscriptions, p, |m.history|).elements
            <==> InStep(m, key) && SetOf(m, key) == k
  {
    var g := m.sets[k];
    assert SetOk(k, g, m);
    TagMembers(k.blocksize, g, m.subscriptions, p, |m.history|, key);
    if key in g.members {
      assert MemberOk(g, m.subscriptions[key], key.channel, m.history);
    }
  }

  lemma TagMembers(b: nat, g: SubscriptionSet, subs: map<Key, Subscription>, p: Pdo, n: nat, key: Key)
    requires Ready(b, g, subs, p.values) && b > 0 && Queue(b, g, subs, p) != {}
    requires key in g.members ==> subs[key].blocksize == b
    ensures g.timePtr + 1 == b
    ensures key in PrintedTag(b, g, subs, p, n).elements <==> key in g.members && subs[key].nblocks + 1 >= b
  {
  }

  /** A member in step stays in step while it is left alone, whoever joins or leaves. */
  lemma InStepNext(channels: nat, m: Manager, a: Action, key: Key)
    requires Inv(channels, m) && Possible(channels, m, a) && Spares(a, key)
    requires InStep(m, key) && m.subscriptions[key].blocksize > 0
    ensures InStep(Next(channels, m, a), key) && SetOf(Next(channels, m, a), key) == SetOf(m, key)
  {
    match a
    case DoReceive(p) =>
      InvReady(channels, m, p);
      InStepReceive(channels, m, p, key);
    case DoSubscribe(other, d, b, size) =>
      SetsTidy(m);
      SubscribeDetaches(m, other, d, b, size);
      DetachedInStep(m, Next(channels, m, a), other, key);
    case DoUnsubscribe(other) =>
      if other in m.subscriptions {
        SetsTidy(m);
        UnsubscribeDetaches(m, other);
        DetachedInStep(m, Next(channels, m, a), other, key);
      }
    case DoActivate(other) => ActivateInStep(m, other, key);
    case DoSync => SyncInStep(m, key);
  }

  lemma ActivateInStep(m: Manager, other: Key, key: Key)
    requires other in m.subscriptions && InStep(m, key)
    ensures InStep(Activate(m, other), key) && SetOf(Activate(m, other), key) == SetOf(m, key)
  {
  }

  lemma SyncInStep(m: Manager, key: Key)
    requires IsActive(m, key)
    ensures InStep(Sync(m), key) && SetOf(Sync(m), key) == SetOf(m, key)
  {
  }

  lemma DetachedInStep(m: Manager, m': Manager, other: Key, key: Key)
    requires Detached(m, m', other) && SameBut(m.subscriptions, m'.subscriptions, other) && key != other
    requires InStep(m, key)
    ensures InStep(m', key) && SetOf(m', key) == SetOf(m, key)
  {
    assert key in m.subscriptions;
  }

  /** Every block printed for k since PDO number since has an element for key. */
  ghost predicate ElementsSince(m: Manager, since: nat, k: SetKey, key: Key) {
    forall n :: since <= n && (k, n) in m.printed ==> key in m.printed[(k, n)].elements
  }

  lemma PrintedKeeps(channels: nat, m: Manager, a: Action)
    requires Inv(channels, m) && Possible(channels, m, a) && !a.DoReceive?
    ensures Next(channels, m, a).printed == m.printed && Next(channels, m, a).history == m.history
  {
    SetsTidy(m);
    match a
    case DoSubscribe(key, d, b, size) => SubscribeDetaches(m, key, d, b, size);
    case DoUnsubscribe(key) =>
      if key in m.subscriptions {
        UnsubscribeDetaches(m, key);
      }
    case _ =>
  }

  lemma PrintedEarlier(m: Manager, p: Pdo, k: SetKey, n: nat)
    requires AllReady(m, p) && n != |m.history|
    ensures (k, n) in Receive(m, p).printed <==> (k, n) in m.printed
    ensures (k, n) in m.printed ==> Receive(m, p).printed[(k, n)] == m.printed[(k, n)]
  {
  }

  lemma ElementsReceive(channels: nat, m: Manager, p: Pdo, since: nat, k: SetKey, key: Key)
    requires Inv(channels, m) && |p.values| == channels && AllReady(m, p) && k.blocksize > 0
    requires ElementsSince(m, since, k, key) && InStep(m, key) && SetOf(m, key) == k
    ensures ElementsSince(Receive(m, p), since, k, key)
  {
    forall n | since <= n && (k, n) in Receive(m, p).printed
      ensures key in Receive(m, p).printed[(k, n)].elements
    {
      if n == |m.history| {
        PrintedMembers(channels, m, p, k, key);
      } else {
        PrintedEarlier(m, p, k, n);
      }
    }
  }

  lemma ElementsNext(channels: nat, m: Manager, a: Action, since: nat, k: SetKey, key: Key)
    requires Inv(channels, m) && Possible(channels, m, a) && since <= |m.history| && k.blocksize > 0
    requires ElementsSince(m, since, k, key) && InStep(m, key) && SetOf(m, key) == k
    ensures ElementsSince(Next(channels, m, a), since, k, key) && |m.history| <= |Next(channels, m, a).history|
  {
    if a.DoReceive? {
      InvReady(channels, m, a.pdo);
      ElementsReceive(channels, m, a.pdo, since, k, key);
    } else {
      PrintedKeeps(channels, m, a);
    }
  }

  /** A client that is in step stays so in every run that leaves it alone: every block printed
      for its set from now on has its element. */
  lemma {:induction false} InStepForever(channels: nat, m: Manager, actions: seq<Action>, key: Key)
    requires Inv(channels, m) && InStep(m, key) && m.subscriptions[key].blocksize > 0
    requires RunFrom(channels, m, actions).Some? && Spared(actions, key)
    ensures var m' := RunFrom(channels, m, actions).value;
            && InStep(m', key) && SetOf(m', key) == SetOf(m, key) && |m.history| <= |m'.history|
            && ElementsSince(m', |m.history|, SetOf(m, key), key)
    decreases |actions|
  {
    if actions == [] {
      forall n | |m.history| <= n && (SetOf(m, key), n) in m.printed
        ensures false
      {
        PrintedInThePast(m.printed, m.history, SetOf(m, key), n);
      }
    } else {
      var before, a := actions[..|actions| - 1], actions[|actions| - 1];
      RunLast(channels, m, actions);
      InStepForever(channels, m, before, key);
      var pre := RunFrom(channels, m, before).value;
      InStepNext(channels, pre, a, key);
      ElementsNext(channels, pre, a, |m.history|, SetOf(m, key), key);
    }
  }

  // ---- Event channels ----

  /** An event channel looks at a value; it is emitted unless the channel holds back. */
  function EventStep(s: Subscription, v: Value): Subscription
    requires |s.data| == 1
  {
    if HoldsBack(s, v) then s.(trigger := Countdown(s.trigger))
    else s.(trigger := s.triggerStart, data := [v])
  }

  ghost function Feed(s: Subscription, vs: seq<Value>): (s': Subscription)
    requires |s.data| == 1
    ensures |s'.data| == 1
  {
    if vs == [] then s else EventStep(Feed(s, vs[..|vs| - 1]), vs[|vs| - 1])
  }

  /** Value j of vs is emitted. */
  ghost predicate Emits(s: Subscription, vs: seq<Value>, j: nat)
    requires |s.data| == 1 && j < |vs|
  {
    !HoldsBack(Feed(s, vs[..j]), vs[j])
  }

  /** The rule without counters: with reduction t, and wait PDOs still to hold back at first,
      the index of the last emission of vs. */
  ghost function LastEmission(held: Value, wait: nat, t: nat, vs: seq<Value>): (last: int)
    ensures -1 <= last < |vs|
  {
    if vs == [] then -1
    else
      var n := |vs| - 1;
      var last := LastEmission(held, wait, t, vs[..n]);
      if last == -1 && n + 1 >= wait && vs[n] != held then n
      else if last >= 0 && n - last >= t && vs[n] != vs[last] then n
      else last
  }

  ghost function Remaining(wait: nat, t: nat, last: int, n: nat): nat {
    if last == -1 then if n < wait then wait - n else 0
    else if n - 1 - last < t then t - (n - 1 - last) else 0
  }

  /** The counting channel follows the rule. */
  lemma {:induction false} FeedFollowsRule(s: Subscription, vs: seq<Value>)
    requires |s.data| == 1 && s.blocksize == 0
    ensures var last := LastEmission(s.data[0], s.trigger, s.triggerStart, vs);
            && Feed(s, vs).data[0] == (if last == -1 then s.data[0] else vs[last])
            && Feed(s, vs) == s.(data := Feed(s, vs).data, trigger := Feed(s, vs).trigger)
            && Feed(s, vs).trigger == Remaining(s.trigger, s.triggerStart, last, |vs|)
    decreases |vs|
  {
    if vs != [] {
      FeedFollowsRule(s, vs[..|vs| - 1]);
    }
  }

  /** A value is emitted exactly if it differs from the one held and enough PDOs have passed
      since the last emission. */
  lemma EmitsIff(s: Subscription, vs: seq<Value>, j: nat)
    requires |s.data| == 1 && s.blocksize == 0 && j < |vs|
    ensures var last := LastEmission(s.data[0], s.trigger, s.triggerStart, vs[..j]);
            Emits(s, vs, j) <==>
              if last == -1 then j + 1 >= s.trigger && vs[j] != s.data[0]
              else j - last >= s.triggerStart && vs[j] != vs[last]
    ensures Emits(s, vs, j) <==> LastEmission(s.data[0], s.trigger, s.triggerStart, vs[..j + 1]) == j
  {
    FeedFollowsRule(s, vs[..j]);
    assert vs[..j + 1][..j] == vs[..j];
  }

  /** The last emission before j is not before an emission i. */
  lemma {:induction false} LastIsLast(held: Value, wait: nat, t: nat, vs: seq<Value>, i: nat, j: nat)
    requires i < j <= |vs| && LastEmission(held, wait, t, vs[..i + 1]) == i
    ensures LastEmission(held, wait, t, vs[..j]) >= i
    decreases j
  {
    if j > i + 1 {
      LastIsLast(held, wait, t, vs, i, j - 1);
      assert vs[..j][..j - 1] == vs[..j - 1];
    }
  }

  /** Two emissions are at least max(1, T) PDOs apart. */
  lemma Throttled(s: Subscription, vs: seq<Value>, i: nat, j: nat)
    requires |s.data| == 1 && s.blocksize == 0 && i < j < |vs| && Emits(s, vs, i) && Emits(s, vs, j)
    ensures j - i >= Slots(s.triggerStart)
  {
    EmitsIff(s, vs, i);
    EmitsIff(s, vs, j);
    LastIsLast(s.data[0], s.trigger, s.triggerStart, vs, i, j);
  }

  /** An emitted value differs from the one held before, and is the one held then. */
  lemma EmissionIsNews(s: Subscription, vs: seq<Value>, j: nat)
    requires |s.data| == 1 && s.blocksize == 0 && j < |vs|
    ensures Emits(s, vs, j) ==> vs[j] != Feed(s, vs[..j]).data[0] && Feed(s, vs[..j + 1]).data[0] == vs[j]
    ensures !Emits(s, vs, j) ==> Feed(s, vs[..j + 1]).data[0] == Feed(s, vs[..j]).data[0]
  {
    FeedFollowsRule(s, vs[..j]);
    assert vs[..j + 1][..j] == vs[..j];
  }

  /** Once the input has been constant for max(1, T) PDOs, it is the value held. */
  lemma Settles(s: Subscription, vs: seq<Value>, v: Value)
    requires |s.data| == 1 && s.blocksize == 0 && s.trigger <= s.triggerStart
    requires Slots(s.triggerStart) <= |vs|
    requires forall i :: |vs| - Slots(s.triggerStart) <= i < |vs| ==> vs[i] == v
    ensures Feed(s, vs).data[0] == v
  {
    var n := |vs| - 1;
    FeedFollowsRule(s, vs);
    var last := LastEmission(s.data[0], s.trigger, s.triggerStart, vs[..n]);
    assert last >= 0 ==> vs[..n][last] == vs[last];
  }

  // ---- Event channels in the manager ----

  /** The value of a channel in a PDO. */
  function ValueIn(p: Pdo, channel: nat): Value {
    if channel < |p.values| then p.values[channel] else []
  }

  function Column(history: seq<Pdo>, channel: nat): (vs: seq<Value>) {
    seq(|history|, i requires 0 <= i < |history| => ValueIn(history[i], channel))
  }

  ghost predicate IsEvent(m: Manager, key: Key) {
    IsActive(m, key) && m.subscriptions[key].blocksize == 0
  }

  /** PDO number n brought an element for key. */
  ghost predicate PrintedAt(m: Manager, key: Key, k: SetKey, n: nat) {
    (k, n) in m.printed && key in m.printed[(k, n)].elements
  }

  lemma EventShape(channels: nat, m: Manager, key: Key)
    requires Inv(channels, m) && IsEvent(m, key)
    ensures Fires(m, SetOf(m, key))
    ensures var s := m.subscriptions[key];
            |s.data| == 1 && s.nblocks == 0 && s.taken == [] && s.trigger <= s.triggerStart
  {
    var k := SetOf(m, key);
    assert RateOk(m.subscriptions[key]);
    assert SetOk(k, m.sets[k], m) && MemberOk(m.sets[k], m.subscriptions[key], key.channel, m.history);
  }

  lemma EventSample(g: SubscriptionSet, subs: map<Key, Subscription>, p: Pdo, n: nat, key: Key)
    requires Ready(0, g, subs, p.values) && key in g.members
    requires |subs[key].data| == 1 && subs[key].nblocks == 0 && subs[key].taken == [] && subs[key].blocksize == 0
    ensures SampledMember(0, g, subs, p, n, key) == EventStep(subs[key], ValueIn(p, key.channel))
    ensures key in PrintedTag(0, g, subs, p, n).elements <==> !HoldsBack(subs[key], ValueIn(p, key.channel))
    ensures !HoldsBack(subs[key], ValueIn(p, key.channel)) ==> key in Queue(0, g, subs, p)
  {
  }

  lemma EventReceive(channels: nat, m: Manager, p: Pdo, key: Key)
    requires Inv(channels, m) && |p.values| == channels && AllReady(m, p) && IsEvent(m, key)
    requires |m.subscriptions[key].data| == 1
    ensures var m', s := Receive(m, p), m.subscriptions[key];
            && IsEvent(m', key) && SetOf(m', key) == SetOf(m, key)
            && m'.subscriptions[key] == EventStep(s, ValueIn(p, key.channel))
  {
    EventShape(channels, m, key);
    EventSample(m.sets[SetOf(m, key)], m.subscriptions, p, |m.history|, key);
    ReceiveSubscription(channels, m, p, key);
  }

  lemma EventPrints(channels: nat, m: Manager, p: Pdo, key: Key)
    requires Inv(channels, m) && |p.values| == channels && AllReady(m, p) && IsEvent(m, key)
    requires |m.subscriptions[key].data| == 1
    ensures PrintedAt(Receive(m, p), key, SetOf(m, key), |m.history|)
            <==> !HoldsBack(m.subscriptions[key], ValueIn(p, key.channel))
  {
    EventShape(channels, m, key);
    PrintedNow(channels, m, p, SetOf(m, key));
    EventSample(m.sets[SetOf(m, key)], m.subscriptions, p, |m.history|, key);
  }

  lemma DetachedEvent(m: Manager, m': Manager, other: Key, key: Key)
    requires Detached(m, m', other) && SameBut(m.subscriptions, m'.subscriptions, other) && key != other
    requires IsEvent(m, key)
    ensures IsEvent(m', key) && m'.subscriptions[key] == m.subscriptions[key]
  {
    assert key in m.subscriptions;
  }

  lemma ActivateEvent(m: Manager, other: Key, key: Key)
    requires other in m.subscriptions && IsEvent(m, key)
    ensures IsEvent(Activate(m, other), key) && Activate(m, other).subscriptions == m.subscriptions
  {
  }

  lemma SyncEvent(m: Manager, key: Key)
    requires IsEvent(m, key) && m.subscriptions[key].nblocks == 0 && m.subscriptions[key].taken == []
    ensures IsEvent(Sync(m), key) && Sync(m).subscriptions[key] == m.subscriptions[key]
  {
  }

  /** Only PDOs matter to an event channel that is left alone. */
  lemma EventSpared(channels: nat, m: Manager, a: Action, key: Key)
    requires Inv(channels, m) && Possible(channels, m, a) && Spares(a, key) && !a.DoReceive? && IsEvent(m, key)
    ensures IsEvent(Next(channels, m, a), key) && Next(channels, m, a).subscriptions[key] == m.subscriptions[key]
  {
    match a
    case DoSubscribe(other, d, b, size) =>
      SetsTidy(m);
      SubscribeDetaches(m, other, d, b, size);
      DetachedEvent(m, Next(channels, m, a), other, key);
    case DoUnsubscribe(other) =>
      if other in m.subscriptions {
        SetsTidy(m);
        UnsubscribeDetaches(m, other);
        DetachedEvent(m, Next(channels, m, a), other, key);
      }
    case DoActivate(other) => ActivateEvent(m, other, key);
    case DoSync =>
      EventShape(channels, m, key);
      SyncEvent(m, key);
  }

  /** What the event channel key has seen since PDO number since. */
  ghost function Seen(m: Manager, since: nat, key: Key): seq<Value>
    requires since <= |m.history|
  {
    Column(m.history[since..], key.channel)
  }

  /** m' comes about from s on the values seen since then, and has printed what s emits. */
  ghost predicate Follows(s: Subscription, since: nat, m': Manager, key: Key)
    requires |s.data| == 1
  {
    && IsEvent(m', key) && since <= |m'.history|
    && SetOf(m', key) == SetKeyOf(key, s)
    && m'.subscriptions[key] == Feed(s, Seen(m', since, key))
    && forall j :: 0 <= j < |m'.history| - since ==>
         (PrintedAt(m', key, SetKeyOf(key, s), since + j) <==> Emits(s, Seen(m', since, key), j))
  }

  lemma SeenSnoc(h: seq<Pdo>, since: nat, p: Pdo, channel: nat)
    requires since <= |h|
    ensures Column((h + [p])[since..], channel) == Column(h[since..], channel) + [ValueIn(p, channel)]
  {
  }

  lemma {:induction false} EmitsPrefix(s: Subscription, vs: seq<Value>, v: Value, j: nat)
    requires |s.data| == 1 && j <= |vs|
    ensures j < |vs| ==> (Emits(s, vs + [v], j) <==> Emits(s, vs, j))
    ensures j == |vs| ==> (Emits(s, vs + [v], j) <==> !HoldsBack(Feed(s, vs), v))
    ensures Feed(s, vs + [v]) == EventStep(Feed(s, vs), v)
  {
    assert (vs + [v])[..j] == vs[..j];
    assert (vs + [v])[..|vs|] == vs == vs[..|vs|];
  }

  lemma FollowsPrinted(channels: nat, s: Subscription, since: nat, m: Manager, p: Pdo, key: Key, j: nat)
    requires |s.data| == 1 && Inv(channels, m) && |p.values| == channels && AllReady(m, p)
    requires Follows(s, since, m, key) && j <= |m.history| - since
    ensures PrintedAt(Receive(m, p), key, SetKeyOf(key, s), since + j)
            <==> Emits(s, Seen(m, since, key) + [ValueIn(p, key.channel)], j)
  {
    EmitsPrefix(s, Seen(m, since, key), ValueIn(p, key.channel), j);
    if since + j < |m.history| {
      PrintedEarlier(m, p, SetKeyOf(key, s), since + j);
    } else {
      EventPrints(channels, m, p, key);
    }
  }

  lemma FollowsReceive(channels: nat, s: Subscription, since: nat, m: Manager, p: Pdo, key: Key)
    requires |s.data| == 1 && Inv(channels, m) && |p.values| == channels && AllReady(m, p)
    requires Follows(s, since, m, key)
    ensures Follows(s, since, Receive(m, p), key)
  {
    var vs, m' := Seen(m, since, key), Receive(m, p);
    SeenSnoc(m.history, since, p, key.channel);
    forall j | 0 <= j < |m'.history| - since
      ensures PrintedAt(m', key, SetKeyOf(key, s), since + j) <==> Emits(s, Seen(m', since, key), j)
    {
      FollowsPrinted(channels, s, since, m, p, key, j);
    }
    EventReceive(channels, m, p, key);
    EmitsPrefix(s, vs, ValueIn(p, key.channel), |vs|);
  }

  lemma FollowsCarries(s: Subscription, since: nat, m: Manager, m': Manager, key: Key)
    requires |s.data| == 1 && Follows(s, since, m, key) && IsEvent(m', key)
    requires m'.history == m.history && m'.printed == m.printed && m'.subscriptions[key] == m.subscriptions[key]
    ensures Follows(s, since, m', key)
  {
    forall j | 0 <= j < |m'.history| - since
      ensures PrintedAt(m', key, SetKeyOf(key, s), since + j) <==> Emits(s, Seen(m', since, key), j)
    {
      assert PrintedAt(m, key, SetKeyOf(key, s), since + j) <==> Emits(s, Seen(m, since, key), j);
    }
  }

  lemma FollowsNext(channels: nat, s: Subscription, since: nat, m: Manager, a: Action, key: Key)
    requires |s.data| == 1 && Inv(channels, m) && Possible(channels, m, a) && Spares(a, key)
    requires Follows(s, since, m, key)
    ensures Follows(s, since, Next(channels, m, a), key)
  {
    if a.DoReceive? {
      InvReady(channels, m, a.pdo);
      FollowsReceive(channels, s, since, m, a.pdo, key);
    } else {
      EventSpared(channels, m, a, key);
      PrintedKeeps(channels, m, a);
      FollowsCarries(s, since, m, Next(channels, m, a), key);
    }
  }

  /** In every run that leaves an event channel alone, whatever else is subscribed,
      unsubscribed or synchronised, PDO since + j prints the channel exactly if the channel by
      itself emits on value j. */
  lemma {:induction false} EventRun(channels: nat, m: Manager, actions: seq<Action>, key: Key)
    requires Inv(channels, m) && IsEvent(m, key) && |m.subscriptions[key].data| == 1
    requires RunFrom(channels, m, actions).Some? && Spared(actions, key)
    ensures Follows(m.subscriptions[key], |m.history|, RunFrom(channels, m, actions).value, key)
    decreases |actions|
  {
    if actions != [] {
      var before := actions[..|actions| - 1];
      RunLast(channels, m, actions);
      EventRun(channels, m, before, key);
      FollowsNext(channels, m.subscriptions[key], |m.history|, RunFrom(channels, m, before).value,
                  actions[|actions| - 1], key);
    }
  }

  ghost predicate Apart(m: Manager, key: Key, k: SetKey, since: nat, w: nat) {
    forall i, j :: since <= i < j < |m.history| && PrintedAt(m, key, k, i) && PrintedAt(m, key, k, j) ==>
      j - i >= w
  }

  ghost predicate ConstantFor(m: Manager, channel: nat, w: nat, v: Value) {
    w <= |m.history| && forall i :: |m.history| - w <= i < |m.history| ==> ValueIn(m.history[i], channel) == v
  }

  lemma FollowsApart(s: Subscription, since: nat, m: Manager, key: Key)
    requires |s.data| == 1 && s.blocksize == 0 && Follows(s, since, m, key)
    ensures Apart(m, key, SetKeyOf(key, s), since, Slots(s.triggerStart))
  {
    var k, w, vs := SetKeyOf(key, s), Slots(s.triggerStart), Seen(m, since, key);
    forall i, j | since <= i < j < |m.history| && PrintedAt(m, key, k, i) && PrintedAt(m, key, k, j)
      ensures j - i >= w
    {
      assert PrintedAt(m, key, k, since + (i - since)) && PrintedAt(m, key, k, since + (j - since));
      Throttled(s, vs, i - since, j - since);
    }
  }

  lemma FollowsSettles(s: Subscription, since: nat, m: Manager, key: Key, v: Value)
    requires |s.data| == 1 && s.blocksize == 0 && s.trigger <= s.triggerStart && Follows(s, since, m, key)
    requires ConstantFor(m, key.channel, Slots(s.triggerStart), v) && since + Slots(s.triggerStart) <= |m.history|
    ensures m.subscriptions[key].data == [v]
  {
    Settles(s, Seen(m, since, key), v);
  }

  /** The promise to the client: with reduction T, elements of an event channel are at least
      max(1, T) PDOs apart, and the value held is the input once that has been constant for
      max(1, T) PDOs. */
  lemma EventThrottling(channels: nat, m: Manager, actions: seq<Action>, key: Key, v: Value)
    requires Inv(channels, m) && IsEvent(m, key)
    requires RunFrom(channels, m, actions).Some? && Spared(actions, key)
    ensures var m', w := RunFrom(channels, m, actions).value, Slots(m.subscriptions[key].triggerStart);
            && Apart(m', key, SetOf(m, key), |m.history|, w)
            && (ConstantFor(m', key.channel, w, v) && |m.history| + w <= |m'.history| ==>
                  key in m'.subscriptions && m'.subscriptions[key].data == [v])
  {
    EventShape(channels, m, key);
    EventRun(channels, m, actions, key);
    var m', s := RunFrom(channels, m, actions).value, m.subscriptions[key];
    FollowsApart(s, |m.history|, m', key);
    if ConstantFor(m', key.channel, Slots(s.triggerStart), v) && |m.history| + Slots(s.triggerStart) <= |m'.history| {
      FollowsSettles(s, |m.history|, m', key, v);
    }
  }
}
