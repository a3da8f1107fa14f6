/** Every operation of the subscription scheduler keeps the invariant, so that every block it
    ever prints is aligned. */
module SchedulerInvariant {
  import opened Common
  import opened Scheduler

  // ---- Counting ----

  /** The phase of a decimation counter: how long ago it last let a PDO through. */
  ghost predicate Phase(counter: nat, d: nat, since: nat) {
    since < d && counter == if since == 0 then 0 else d - since
  }

  lemma TickPhase(counter: nat, decimation: nat, since: nat)
    requires Phase(counter, Period(decimation), since)
    ensures var next := Tick(counter, decimation);
            if next == 0 then since + 1 == Period(decimation) else Phase(next, Period(decimation), since + 1)
  {
  }

  lemma SpacedSnoc(stamps: seq<nat>, d: nat, n: nat)
    requires Spaced(stamps, d) && (stamps != [] ==> n == stamps[|stamps| - 1] + d)
    ensures Spaced(stamps + [n], d)
  {
  }

  lemma TimedSnoc(stamps: seq<nat>, time: seq<nat>, h: seq<Pdo>, p: Pdo)
    requires TimedAt(stamps, time, h) && |stamps| < |time|
    ensures TimedAt(stamps + [|h|], time[|stamps| := p.time], h + [p])
  {
  }

  lemma TakenSnoc(stamps: seq<nat>, channel: nat, samples: seq<Value>, h: seq<Pdo>, p: Pdo)
    requires TakenAt(stamps, channel, samples, h) && channel < |p.values|
    ensures TakenAt(stamps + [|h|], channel, samples + [p.values[channel]], h + [p])
  {
  }

  lemma TakenKeeps(stamps: seq<nat>, channel: nat, samples: seq<Value>, h: seq<Pdo>, p: Pdo)
    requires TakenAt(stamps, channel, samples, h)
    ensures TakenAt(stamps, channel, samples, h + [p])
  {
  }

  // ---- A set whose counter does not let the PDO through ----

  lemma SkippedStamps(k: SetKey, g: SubscriptionSet, counter: nat, h: seq<Pdo>, p: Pdo)
    requires StampsOk(k, g, counter, h) && Tick(counter, k.decimation) != 0
    ensures StampsOk(k, g, Tick(counter, k.decimation), h + [p])
  {
    if g.stamps != [] {
      TickPhase(counter, k.decimation, |h| - 1 - g.stamps[|g.stamps| - 1]);
    }
  }

  lemma MemberKeepsOnHistory(g: SubscriptionSet, s: Subscription, channel: nat, h: seq<Pdo>, p: Pdo)
    requires MemberOk(g, s, channel, h)
    ensures MemberOk(g, s, channel, h + [p])
  {
    TakenKeeps(s.taken, channel, Samples(s), h, p);
  }

  // ---- A set that takes the PDO ----

  lemma CapturedStamps(k: SetKey, g: SubscriptionSet, counter: nat, h: seq<Pdo>, p: Pdo)
    requires StampsOk(k, g, counter, h) && Tick(counter, k.decimation) == 0
    requires k.blocksize > 0 && g.timePtr == |g.stamps| < |g.time|
    ensures StampsOk(k, Capture(k.blocksize, g, p.time, |h|), 0, h + [p])
  {
    if g.stamps != [] {
      TickPhase(counter, k.decimation, |h| - 1 - g.stamps[|g.stamps| - 1]);
    }
    SpacedSnoc(g.stamps, Period(k.decimation), |h|);
    TimedSnoc(g.stamps, g.time, h, p);
  }

  /** A member of a block set takes the value along with the time. */
  lemma CapturedMember(b: nat, g: SubscriptionSet, s: Subscription, channel: nat, h: seq<Pdo>, p: Pdo)
    requires b > 0 && s.blocksize == b && MemberOk(g, s, channel, h) && channel < |p.values|
    requires g.timePtr == |g.stamps| < |g.time| == b
    ensures s.nblocks < |s.data|
    ensures MemberOk(Capture(b, g, p.time, |h|), NewValue(s, p.values[channel], |h|), channel, h + [p])
  {
    var c, t := Capture(b, g, p.time, |h|), NewValue(s, p.values[channel], |h|);
    TakenSnoc(s.taken, channel, Samples(s), h, p);
    assert t.taken == c.stamps[|c.stamps| - t.nblocks..];
    assert Samples(t) == Samples(s) + [p.values[channel]];
  }

  ghost predicate SetReady(channels: nat, k: SetKey, m: Manager, p: Pdo) {
    && k in m.sets && SetOk(k, m.sets[k], m) && |p.values| == channels
    && forall key :: key in m.sets[k].members ==> key.channel < channels
  }

  lemma ReadyAt(channels: nat, k: SetKey, m: Manager, p: Pdo)
    requires SetReady(channels, k, m, p)
    ensures Ready(k.blocksize, m.sets[k], m.subscriptions, p.values)
  {
    forall key | key in m.sets[k].members
      ensures key in m.subscriptions && m.subscriptions[key].nblocks < |m.subscriptions[key].data|
              && key.channel < |p.values|
    {
      assert MemberOk(m.sets[k], m.subscriptions[key], key.channel, m.history);
    }
  }

  /** A member that has as many samples as the block has stamps has a sample for every entry
      of the time vector. */
  lemma FullMember(g: SubscriptionSet, s: Subscription, channel: nat, h: seq<Pdo>)
    requires MemberOk(g, s, channel, h) && s.nblocks == |g.stamps|
    ensures TakenAt(g.stamps, channel, Samples(s), h)
  {
    assert s.taken == g.stamps;
  }

  lemma BlockElementOk(k: SetKey, g: SubscriptionSet, s: Subscription, channel: nat, h: seq<Pdo>, p: Pdo)
    requires k.blocksize == s.blocksize > 0 && MemberOk(g, s, channel, h) && channel < |p.values|
    requires g.timePtr == |g.stamps| < |g.time| == k.blocksize == |g.stamps| + 1
    ensures s.nblocks < |s.data|
    ensures var t := NewValue(s, p.values[channel], |h|);
            PrintsElement(t) ==>
              && t.nblocks <= |t.data|
              && TakenAt(Capture(k.blocksize, g, p.time, |h|).stamps, channel, Samples(t), h + [p])
  {
    CapturedMember(k.blocksize, g, s, channel, h, p);
    var t := NewValue(s, p.values[channel], |h|);
    if PrintsElement(t) {
      FullMember(Capture(k.blocksize, g, p.time, |h|), t, channel, h + [p]);
    }
  }

  lemma BlockTagOk(channels: nat, k: SetKey, m: Manager, p: Pdo)
    requires SetReady(channels, k, m, p) && Fires(m, k) && k.blocksize > 0
    requires Ready(k.blocksize, m.sets[k], m.subscriptions, p.values)
    requires Queue(k.blocksize, m.sets[k], m.subscriptions, p) != {}
    ensures TagOk(k, |m.history|, PrintedTag(k.blocksize, m.sets[k], m.subscriptions, p, |m.history|), m.history + [p])
  {
    CapturedStamps(k, m.sets[k], m.counters[(k.group, k.decimation)], m.history, p);
    var tag := PrintedTag(k.blocksize, m.sets[k], m.subscriptions, p, |m.history|);
    forall key | key in tag.elements
      ensures TakenAt(tag.stamps, key.channel, tag.elements[key], m.history + [p])
    {
      BlockElementTaken(channels, k, m, p, key);
    }
  }

  lemma BlockElementTaken(channels: nat, k: SetKey, m: Manager, p: Pdo, key: Key)
    requires SetReady(channels, k, m, p) && Ready(k.blocksize, m.sets[k], m.subscriptions, p.values) && k.blocksize > 0
    requires Queue(k.blocksize, m.sets[k], m.subscriptions, p) != {}
    requires key in PrintedTag(k.blocksize, m.sets[k], m.subscriptions, p, |m.history|).elements
    ensures var tag := PrintedTag(k.blocksize, m.sets[k], m.subscriptions, p, |m.history|);
            TakenAt(tag.stamps, key.channel, tag.elements[key], m.history + [p])
  {
    assert key in m.sets[k].members;
    assert MemberOk(m.sets[k], m.subscriptions[key], key.channel, m.history);
    BlockElementOk(k, m.sets[k], m.subscriptions[key], key.channel, m.history, p);
  }

  lemma EventElementOk(g: SubscriptionSet, s: Subscription, channel: nat, h: seq<Pdo>, p: Pdo)
    requires s.blocksize == 0 && g.stamps == [] && MemberOk(g, s, channel, h) && channel < |p.values|
    ensures s.nblocks < |s.data|
    ensures !HoldsBack(s, p.values[channel]) ==>
              TakenAt([|h|], channel, Samples(NewValue(s, p.values[channel], |h|)), h + [p])
  {
  }

  lemma EventTagOk(channels: nat, k: SetKey, m: Manager, p: Pdo)
    requires SetReady(channels, k, m, p) && k.blocksize == 0
    requires Ready(k.blocksize, m.sets[k], m.subscriptions, p.values)
    ensures TagOk(k, |m.history|, PrintedTag(k.blocksize, m.sets[k], m.subscriptions, p, |m.history|), m.history + [p])
  {
    var g, n, h := m.sets[k], |m.history|, m.history + [p];
    forall key | key in g.members
      ensures key in m.subscriptions && key.channel < |p.values|
      ensures m.subscriptions[key].nblocks < |m.subscriptions[key].data|
      ensures !HoldsBack(m.subscriptions[key], p.values[key.channel]) ==>
                TakenAt([n], key.channel, Samples(NewValue(m.subscriptions[key], p.values[key.channel], n)), h)
    {
      assert MemberOk(g, m.subscriptions[key], key.channel, m.history);
      EventElementOk(g, m.subscriptions[key], key.channel, m.history, p);
    }
  }

  lemma TagKeepsOnHistory(k: SetKey, n: nat, tag: Tag, h: seq<Pdo>, p: Pdo)
    requires TagOk(k, n, tag, h)
    ensures TagOk(k, n, tag, h + [p])
  {
    forall key | key in tag.elements
      ensures TakenAt(tag.stamps, key.channel, tag.elements[key], h + [p])
    {
      TakenKeeps(tag.stamps, key.channel, tag.elements[key], h, p);
    }
  }

  // ---- Receiving a PDO ----

  /** No buffer is overrun: there is room for the time and for every member's sample. */
  lemma InvReady(channels: nat, m: Manager, p: Pdo)
    requires Inv(channels, m) && |p.values| == channels
    ensures AllReady(m, p)
  {
    forall k | k in m.sets
      ensures Ready(k.blocksize, m.sets[k], m.subscriptions, p.values)
    {
      ReadyAt(channels, k, m, p);
    }
  }

  /** A member after a PDO that its set takes, in a block that goes on. */
  lemma SampledMemberOk(k: SetKey, g: SubscriptionSet, subs: map<Key, Subscription>, h: seq<Pdo>, p: Pdo, key: Key)
    requires Ready(k.blocksize, g, subs, p.values) && key in g.members
    requires g.timePtr == |g.stamps| && SetKeyOf(key, subs[key]) == k && MemberOk(g, subs[key], key.channel, h)
    ensures var s := SampledMember(k.blocksize, g, subs, p, |h|, key);
            SetKeyOf(key, s) == k && MemberOk(SampledSet(k.blocksize, g, subs, p, |h|), s, key.channel, h + [p])
  {
    if k.blocksize > 0 {
      CapturedMember(k.blocksize, g, subs[key], key.channel, h, p);
    }
  }

  lemma SampledStampsOk(k: SetKey, g: SubscriptionSet, subs: map<Key, Subscription>, counter: nat, h: seq<Pdo>, p: Pdo)
    requires Ready(k.blocksize, g, subs, p.values) && StampsOk(k, g, counter, h)
    requires g.timePtr == |g.stamps| && Tick(counter, k.decimation) == 0 && g.members != {}
    ensures var c := SampledSet(k.blocksize, g, subs, p, |h|);
            StampsOk(k, c, 0, h + [p]) && c.timePtr == |c.stamps| < |c.time|
  {
    if k.blocksize > 0 {
      CapturedStamps(k, g, counter, h, p);
    }
  }

  lemma ReceiveSet(channels: nat, k: SetKey, m: Manager, p: Pdo)
    requires SetReady(channels, k, m, p) && AllReady(m, p)
    ensures SetOk(k, Receive(m, p).sets[k], Receive(m, p))
  {
    var g, m', counter := m.sets[k], Receive(m, p), m.counters[(k.group, k.decimation)];
    if Fires(m, k) {
      SampledStampsOk(k, g, m.subscriptions, counter, m.history, p);
    } else {
      SkippedStamps(k, g, counter, m.history, p);
    }
    forall key | key in g.members
      ensures key in m'.subscriptions && SetKeyOf(key, m'.subscriptions[key]) == k
      ensures MemberOk(m'.sets[k], m'.subscriptions[key], key.channel, m'.history)
    {
      assert IsActive(m, key);
      if Fires(m, k) {
        SampledMemberOk(k, g, m.subscriptions, m.history, p, key);
      } else {
        MemberKeepsOnHistory(g, m.subscriptions[key], key.channel, m.history, p);
      }
    }
  }

  lemma ReceiveTag(channels: nat, m: Manager, p: Pdo, k: SetKey, n: nat)
    requires Inv(channels, m) && |p.values| == channels && AllReady(m, p)
    requires (k, n) in Receive(m, p).printed
    ensures TagOk(k, n, Receive(m, p).printed[(k, n)], m.history + [p])
  {
    if (k, n) in TagsTaken(m, p, Firing(m)) {
      if k.blocksize > 0 {
        BlockTagOk(channels, k, m, p);
      } else {
        EventTagOk(channels, k, m, p);
      }
    } else {
      TagKeepsOnHistory(k, n, m.printed[(k, n)], m.history, p);
    }
  }

  lemma ReceiveSubscription(channels: nat, m: Manager, p: Pdo, key: Key)
    requires SubscriptionsOk(channels, m) && AllReady(m, p) && key in m.subscriptions
    ensures !IsActive(m, key) ==> Receive(m, p).subscriptions[key] == m.subscriptions[key]
    ensures IsActive(m, key) ==> IsActive(Receive(m, p), key)
    ensures RateOk(Receive(m, p).subscriptions[key])
  {
    if IsActive(m, key) {
      var k := SetKeyOf(key, m.subscriptions[key]);
      assert SetKeyOf(key, Receive(m, p).subscriptions[key]) == k;
      assert key in Receive(m, p).sets[k].members;
    }
  }

  lemma ReceiveSubscriptions(channels: nat, m: Manager, p: Pdo)
    requires SubscriptionsOk(channels, m) && AllReady(m, p)
    ensures SubscriptionsOk(channels, Receive(m, p))
  {
    forall key | key in m.subscriptions
      ensures RateOk(Receive(m, p).subscriptions[key])
      ensures IsActive(Receive(m, p), key) || IdleOk(Receive(m, p).subscriptions[key])
    {
      ReceiveSubscription(channels, m, p, key);
    }
  }

  lemma ReceiveSets(channels: nat, m: Manager, p: Pdo)
    requires Inv(channels, m) && |p.values| == channels && AllReady(m, p)
    ensures SetsOk(Receive(m, p))
  {
    var m' := Receive(m, p);
    forall k | k in m'.sets
      ensures SetOk(k, m'.sets[k], m')
    {
      ReceiveSet(channels, k, m, p);
    }
  }

  lemma ReceiveKeeps(channels: nat, m: Manager, p: Pdo)
    requires Inv(channels, m) && |p.values| == channels
    ensures AllReady(m, p) && Inv(channels, Receive(m, p))
  {
    InvReady(channels, m, p);
    ReceiveSubscriptions(channels, m, p);
    ReceiveSets(channels, m, p);
    var m' := Receive(m, p);
    forall k, n | (k, n) in m'.printed
      ensures TagOk(k, n, m'.printed[(k, n)], m'.history)
    {
      ReceiveTag(channels, m, p, k, n);
    }
    assert HistoryOk(channels, m'.history);
  }

  // ---- The other operations ----

  /** Every member of a set belongs there, and every set has its counter. */
  ghost predicate Tidy(m: Manager) {
    forall k :: k in m.sets ==> Attached(k, m.sets[k], m.subscriptions) && (k.group, k.decimation) in m.counters
  }

  /** m' is m with its sets stripped of key. */
  ghost predicate Detached(m: Manager, m': Manager, key: Key) {
    && m'.history == m.history && m'.printed == m.printed
    && (forall k :: k in m'.sets ==>
          && k in m.sets && m'.sets[k] == m.sets[k].(members := m.sets[k].members - {key})
          && m'.sets[k].members != {} && (k.group, k.decimation) in m'.counters)
    && (forall k :: k in m.sets && k !in m'.sets ==> m.sets[k].members == {key})
    && (forall gd :: gd in m'.counters ==> gd in m.counters && m'.counters[gd] == m.counters[gd])
  }

  lemma RemoveDetaches(m: Manager, key: Key)
    requires Tidy(m) && key in m.subscriptions
    ensures Detached(m, Remove(m, key), key)
  {
    var k, m' := SetKeyOf(key, m.subscriptions[key]), Remove(m, key);
    forall l | l in m.sets && l != k
      ensures m.sets[l].(members := m.sets[l].members - {key}) == m.sets[l]
    {
      assert m.sets[l].members - {key} == m.sets[l].members;
    }
    if k in m.sets && m.sets[k].members - {key} == {} {
      assert m.sets[k].members == {key};
    }
  }

  lemma NobodyDetached(m: Manager, key: Key)
    requires Tidy(m) && key !in m.subscriptions
    ensures Detached(m, m, key)
  {
    forall k | k in m.sets
      ensures m.sets[k].(members := m.sets[k].members - {key}) == m.sets[k]
    {
      assert m.sets[k].members - {key} == m.sets[k].members;
    }
  }

  /** subs' differs from subs at most in key. */
  ghost predicate SameBut(subs: map<Key, Subscription>, subs': map<Key, Subscription>, key: Key) {
    forall other :: other != key ==>
      && (other in subs <==> other in subs')
      && (other in subs ==> subs'[other] == subs[other])
  }

  lemma DetachedSet(k: SetKey, m: Manager, m': Manager, key: Key)
    requires k in m.sets && SetOk(k, m.sets[k], m) && Detached(m, m', key) && k in m'.sets
    requires SameBut(m.subscriptions, m'.subscriptions, key)
    ensures SetOk(k, m'.sets[k], m')
  {
    var g, g' := m.sets[k], m'.sets[k];
    forall other | other in g'.members
      ensures other in m'.subscriptions && SetKeyOf(other, m'.subscriptions[other]) == k
      ensures MemberOk(g', m'.subscriptions[other], other.channel, m'.history)
    {
      assert other in g.members && MemberOk(g, m.subscriptions[other], other.channel, m.history);
    }
    assert StampsOk(k, g, m.counters[(k.group, k.decimation)], m.history);
  }

  lemma DetachedSubscriptions(channels: nat, m: Manager, m': Manager, key: Key)
    requires SubscriptionsOk(channels, m) && Detached(m, m', key)
    requires SameBut(m.subscriptions, m'.subscriptions, key)
    requires key in m'.subscriptions ==>
               key.channel < channels && RateOk(m'.subscriptions[key]) && IdleOk(m'.subscriptions[key])
    ensures SubscriptionsOk(channels, m')
  {
    forall other | other in m'.subscriptions && other != key && !IsActive(m', other)
      ensures IdleOk(m'.subscriptions[other])
    {
      assert !IsActive(m, other);
    }
  }

  lemma DetachedKeeps(channels: nat, m: Manager, m': Manager, key: Key)
    requires Inv(channels, m) && Detached(m, m', key)
    requires SameBut(m.subscriptions, m'.subscriptions, key)
    requires key in m'.subscriptions ==>
               key.channel < channels && RateOk(m'.subscriptions[key]) && IdleOk(m'.subscriptions[key])
    ensures Inv(channels, m')
  {
    DetachedSubscriptions(channels, m, m', key);
    forall k | k in m'.sets
      ensures SetOk(k, m'.sets[k], m')
    {
      DetachedSet(k, m, m', key);
    }
  }

  lemma SetsTidy(m: Manager)
    requires SetsOk(m)
    ensures Tidy(m)
  {
  }

  lemma SubscribeDetaches(m: Manager, key: Key, decimation: nat, blocksize: nat, memSize: nat)
    requires Tidy(m)
    ensures var m' := Subscribe(m, key, decimation, blocksize, memSize);
            Detached(m, m', key) && SameBut(m.subscriptions, m'.subscriptions, key)
  {
    if key in m.subscriptions {
      RemoveDetaches(m, key);
    } else {
      NobodyDetached(m, key);
    }
  }

  lemma SubscribeKeeps(channels: nat, m: Manager, key: Key, decimation: nat, blocksize: nat, memSize: nat)
    requires Inv(channels, m) && key.channel < channels
    ensures Inv(channels, Subscribe(m, key, decimation, blocksize, memSize))
  {
    SetsTidy(m);
    SubscribeDetaches(m, key, decimation, blocksize, memSize);
    DetachedKeeps(channels, m, Subscribe(m, key, decimation, blocksize, memSize), key);
  }

  lemma UnsubscribeDetaches(m: Manager, key: Key)
    requires Tidy(m) && key in m.subscriptions
    ensures var m' := Unsubscribe(m, key);
            Detached(m, m', key) && SameBut(m.subscriptions, m'.subscriptions, key)
  {
    RemoveDetaches(m, key);
  }

  lemma UnsubscribeKeeps(channels: nat, m: Manager, key: Key)
    requires Inv(channels, m)
    ensures Inv(channels, Unsubscribe(m, key))
  {
    if key in m.subscriptions {
      SetsTidy(m);
      UnsubscribeDetaches(m, key);
      DetachedKeeps(channels, m, Unsubscribe(m, key), key);
    }
  }

  /** A subscription joins a block under way without any samples. */
  lemma JoinSet(k: SetKey, g: SubscriptionSet, m: Manager, key: Key)
    requires TimeOk(k, g, m.counters, m.history) && MembersOk(g, m.subscriptions, m.history)
    requires g.members == {} || Attached(k, g, m.subscriptions)
    requires key in m.subscriptions && SetKeyOf(key, m.subscriptions[key]) == k && IdleOk(m.subscriptions[key])
    ensures SetOk(k, g.(members := g.members + {key}), m)
  {
    var g' := g.(members := g.members + {key});
    forall other | other in g'.members
      ensures other in m.subscriptions && SetKeyOf(other, m.subscriptions[other]) == k
      ensures MemberOk(g', m.subscriptions[other], other.channel, m.history)
    {
      assert other in g.members ==> MemberOk(g, m.subscriptions[other], other.channel, m.history);
    }
  }

  lemma ActivateSet(m: Manager, key: Key, l: SetKey)
    requires SetsOk(m) && key in m.subscriptions && IdleOk(m.subscriptions[key]) && l in Activate(m, key).sets
    ensures SetOk(l, Activate(m, key).sets[l], Activate(m, key))
  {
    var m', k := Activate(m, key), SetKeyOf(key, m.subscriptions[key]);
    if l == k {
      var g := if k in m.sets then m.sets[k] else SubscriptionSet(seq(Slots(k.blocksize), _ => 0), 0, {}, []);
      JoinSet(k, g, m', key);
    }
  }

  lemma ActivateKeeps(channels: nat, m: Manager, key: Key)
    requires Inv(channels, m) && key in m.subscriptions
    ensures Inv(channels, Activate(m, key)) && IsActive(Activate(m, key), key)
  {
    ActivateActivates(m, key);
    if IsActive(m, key) {
      ActivateAgain(m, key);
    } else {
      ActivateIdle(channels, m, key);
    }
  }

  lemma ActivateActivates(m: Manager, key: Key)
    requires key in m.subscriptions
    ensures IsActive(Activate(m, key), key)
  {
  }

  lemma ActivateCounters(m: Manager, key: Key)
    requires CountersOk(m.counters) && key in m.subscriptions
    ensures CountersOk(Activate(m, key).counters)
  {
  }

  lemma ActivateIdle(channels: nat, m: Manager, key: Key)
    requires Inv(channels, m) && key in m.subscriptions && IdleOk(m.subscriptions[key])
    ensures Inv(channels, Activate(m, key))
  {
    ActivateSets(m, key);
    ActivateSubscriptions(channels, m, key);
    ActivateCounters(m, key);
  }

  lemma ActivateSets(m: Manager, key: Key)
    requires SetsOk(m) && key in m.subscriptions && IdleOk(m.subscriptions[key])
    ensures SetsOk(Activate(m, key))
  {
    forall l | l in Activate(m, key).sets
      ensures SetOk(l, Activate(m, key).sets[l], Activate(m, key))
    {
      ActivateSet(m, key, l);
    }
  }

  lemma ActivateAgain(m: Manager, key: Key)
    requires SetsOk(m) && IsActive(m, key)
    ensures Activate(m, key) == m
  {
    var k := SetKeyOf(key, m.subscriptions[key]);
    assert SetOk(k, m.sets[k], m);
    assert m.sets[k].members + {key} == m.sets[k].members;
  }

  lemma ActivateSubscriptions(channels: nat, m: Manager, key: Key)
    requires SubscriptionsOk(channels, m) && key in m.subscriptions
    ensures SubscriptionsOk(channels, Activate(m, key))
  {
    forall other | other in m.subscriptions && IsActive(m, other)
      ensures IsActive(Activate(m, key), other)
    {
    }
  }

  lemma SyncSet(m: Manager, k: SetKey)
    requires k in m.sets && SetOk(k, m.sets[k], m)
    ensures SetOk(k, Sync(m).sets[k], Sync(m))
  {
    var m' := Sync(m);
    forall key | key in m.sets[k].members
      ensures key in m'.subscriptions && SetKeyOf(key, m'.subscriptions[key]) == k
      ensures MemberOk(m'.sets[k], m'.subscriptions[key], key.channel, m'.history)
    {
      assert IsActive(m, key) && MemberOk(m.sets[k], m.subscriptions[key], key.channel, m.history);
    }
  }

  lemma SyncKeeps(channels: nat, m: Manager)
    requires Inv(channels, m)
    ensures Inv(channels, Sync(m))
  {
    forall k | k in m.sets
      ensures SetOk(k, Sync(m).sets[k], Sync(m))
    {
      SyncSet(m, k);
    }
    SyncSubscriptions(channels, m);
  }

  lemma SyncSubscriptions(channels: nat, m: Manager)
    requires SubscriptionsOk(channels, m)
    ensures SubscriptionsOk(channels, Sync(m))
  {
    forall key | key in m.subscriptions && IsActive(m, key)
      ensures IsActive(Sync(m), key)
    {
    }
  }

  // ---- Runs ----

  datatype Action =
    | DoSubscribe(key: Key, decimation: nat, blocksize: nat, memSize: nat)
    | DoUnsubscribe(key: Key)
    | DoActivate(key: Key)
    | DoSync
    | DoClear
    | DoReceive(pdo: Pdo)

  predicate Possible(channels: nat, m: Manager, a: Action) {
    match a
    case DoSubscribe(key, _, _, _) => key.channel < channels
    case DoActivate(key) => key in m.subscriptions
    case DoReceive(p) => |p.values| == channels
    case _ => true
  }

  ghost function Next(channels: nat, m: Manager, a: Action): (m': Manager)
    requires Inv(channels, m) && Possible(channels, m, a)
    ensures Inv(channels, m')
  {
    match a
    case DoSubscribe(key, decimation, blocksize, memSize) =>
      SubscribeKeeps(channels, m, key, decimation, blocksize, memSize);
      Subscribe(m, key, decimation, blocksize, memSize)
    case DoUnsubscribe(key) =>
      UnsubscribeKeeps(channels, m, key);
      Unsubscribe(m, key)
    case DoActivate(key) =>
      ActivateKeeps(channels, m, key);
      Activate(m, key)
    case DoSync =>
      SyncKeeps(channels, m);
      Sync(m)
    case DoClear => Clear(m)
    case DoReceive(p) =>
      ReceiveKeeps(channels, m, p);
      Receive(m, p)
  }

  const NEW_MANAGER := Manager(map[], map[], map[], [], map[])

  /** The manager after the given actions, or None where one of them is not possible. */
  ghost function RunFrom(channels: nat, m: Manager, actions: seq<Action>): (r: Option<Manager>)
    requires Inv(channels, m)
    ensures r.Some? ==> Inv(channels, r.value)
    decreases |actions|
  {
    if actions == [] then Some(m)
    else
      var pre := RunFrom(channels, m, actions[..|actions| - 1]);
      var a := actions[|actions| - 1];
      if pre.Some? && Possible(channels, pre.value, a) then Some(Next(channels, pre.value, a)) else None
  }

  lemma NewManagerOk(channels: nat)
    ensures Inv(channels, NEW_MANAGER)
  {
  }

  /** A run from the start. */
  ghost function Run(channels: nat, actions: seq<Action>): Option<Manager> {
    NewManagerOk(channels);
    RunFrom(channels, NEW_MANAGER, actions)
  }

  /** Every block printed in any run is complete and aligned, and no buffer is ever overrun. */
  lemma BlocksAligned(channels: nat, actions: seq<Action>, m: Manager)
    requires Run(channels, actions) == Some(m)
    ensures forall k, n :: (k, n) in m.printed ==> TagOk(k, n, m.printed[(k, n)], m.history)
    ensures forall p: Pdo :: |p.values| == channels ==> AllReady(m, p)
  {
    forall p: Pdo | |p.values| == channels
      ensures AllReady(m, p)
    {
      InvReady(channels, m, p);
    }
  }
}
