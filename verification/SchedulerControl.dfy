/** What the requests of a client do to the stream: who has left or has not joined is not printed,
    sync starts all blocks over, and a channel that joins gets every block that begins after. */
module SchedulerControl {
  import opened Common
  import opened Scheduler
  import opened SchedulerInvariant
  import opened SchedulerTheorems
  import opened SchedulerPromises

  // ---- Silence ----

  /** Nothing is printed for key from PDO number since on. */
  ghost predicate Quiet(m: Manager, since: nat, key: Key) {
    forall k, n :: since <= n ==> !PrintedAt(m, key, k, n)
  }

  lemma InactiveReceive(channels: nat, m: Manager, p: Pdo, key: Key)
    requires Inv(channels, m) && AllReady(m, p) && !IsActive(m, key)
    ensures !IsActive(Receive(m, p), key)
  {
    if key in m.subscriptions {
      ReceiveSubscription(channels, m, p, key);
      MembersStay(m, p, SetOf(m, key));
    }
  }

  lemma DetachedInactive(m: Manager, m': Manager, other: Key, key: Key)
    requires Detached(m, m', other) && SameBut(m.subscriptions, m'.subscriptions, other)
    requires !IsActive(m, key) && key != other
    ensures !IsActive(m', key)
  {
  }

  lemma InactiveSubscribe(m: Manager, other: Key, d: nat, b: nat, size: nat, key: Key)
    requires Tidy(m) && (key != other ==> !IsActive(m, key))
    ensures !IsActive(Subscribe(m, other, d, b, size), key)
  {
    SubscribedWaits(m, other, d, b, size);
    if key != other {
      SubscribeDetaches(m, other, d, b, size);
      DetachedInactive(m, Subscribe(m, other, d, b, size), other, key);
    }
  }

  lemma InactiveUnsubscribe(m: Manager, other: Key, key: Key)
    requires Tidy(m) && (key != other ==> !IsActive(m, key))
    ensures !IsActive(Unsubscribe(m, other), key)
  {
    if other in m.subscriptions && key != other {
      UnsubscribeDetaches(m, other);
      DetachedInactive(m, Unsubscribe(m, other), other, key);
    }
  }

  lemma InactiveActivate(m: Manager, other: Key, key: Key)
    requires other in m.subscriptions && other != key && !IsActive(m, key)
    ensures !IsActive(Activate(m, other), key)
  {
  }

  lemma InactiveSync(m: Manager, key: Key)
    requires !IsActive(m, key)
    ensures !IsActive(Sync(m), key)
  {
  }

  lemma InactiveNext(channels: nat, m: Manager, a: Action, key: Key)
    requires Inv(channels, m) && Possible(channels, m, a)
    requires Spares(a, key) ==> !IsActive(m, key) && a != DoActivate(key)
    ensures !IsActive(Next(channels, m, a), key)
  {
    SetsTidy(m);
    match a
    case DoSubscribe(other, d, b, size) => InactiveSubscribe(m, other, d, b, size, key);
    case DoUnsubscribe(other) => InactiveUnsubscribe(m, other, key);
    case DoReceive(p) =>
      InvReady(channels, m, p);
      InactiveReceive(channels, m, p, key);
    case DoActivate(other) => InactiveActivate(m, other, key);
    case DoSync => InactiveSync(m, key);
    case DoClear =>
  }

  /** Only members of a set are printed with it. */
  lemma PrintedAreActive(channels: nat, m: Manager, p: Pdo, key: Key, k: SetKey)
    requires Inv(channels, m) && AllReady(m, p) && PrintedAt(Receive(m, p), key, k, |m.history|)
    ensures IsActive(m, key) && SetOf(m, key) == k
  {
    PrintedNow(channels, m, p, k);
    assert SetOk(k, m.sets[k], m);
    assert key in Queue(k.blocksize, m.sets[k], m.subscriptions, p);
  }

  lemma QuietNext(channels: nat, m: Manager, a: Action, since: nat, key: Key)
    requires Inv(channels, m) && Possible(channels, m, a) && !IsActive(m, key) && Quiet(m, since, key)
    ensures Quiet(Next(channels, m, a), since, key)
  {
    var m' := Next(channels, m, a);
    if a.DoReceive? {
      InvReady(channels, m, a.pdo);
    } else {
      PrintedKeeps(channels, m, a);
    }
    forall k, n | since <= n
      ensures !PrintedAt(m', key, k, n)
    {
      assert !PrintedAt(m, key, k, n);
      if a.DoReceive? {
        if n != |m.history| {
          PrintedEarlier(m, a.pdo, k, n);
        } else if PrintedAt(m', key, k, n) {
          PrintedAreActive(channels, m, a.pdo, key, k);
        }
      }
    }
  }

  lemma NothingYet(channels: nat, m: Manager, key: Key)
    requires Inv(channels, m)
    ensures Quiet(m, |m.history|, key)
  {
    forall k, n | |m.history| <= n
      ensures !PrintedAt(m, key, k, n)
    {
      if (k, n) in m.printed {
        PrintedInThePast(m.printed, m.history, k, n);
      }
    }
  }

  lemma {:induction false} QuietRun(channels: nat, m: Manager, actions: seq<Action>, key: Key)
    requires Inv(channels, m) && !IsActive(m, key)
    requires RunFrom(channels, m, actions).Some? && DoActivate(key) !in actions
    ensures var m' := RunFrom(channels, m, actions).value; !IsActive(m', key) && Quiet(m', |m.history|, key)
    decreases |actions|
  {
    if actions == [] {
      NothingYet(channels, m, key);
    } else {
      var before, a := actions[..|actions| - 1], actions[|actions| - 1];
      RunLast(channels, m, actions);
      QuietRun(channels, m, before, key);
      var pre := RunFrom(channels, m, before).value;
      InactiveNext(channels, pre, a, key);
      QuietNext(channels, pre, a, |m.history|, key);
    }
  }

  /** In every run, once a channel has been asked for anew or left, or everything has been dropped,
      nothing is printed for it until it becomes active. */
  lemma QuietUntilActive(channels: nat, before: seq<Action>, a: Action, more: seq<Action>, key: Key)
    requires Run(channels, before + [a] + more).Some? && !Spares(a, key) && DoActivate(key) !in more
    ensures Run(channels, before).Some?
    ensures Quiet(Run(channels, before + [a] + more).value, |Run(channels, before).value.history|, key)
  {
    NewManagerOk(channels);
    RunParts(channels, NEW_MANAGER, before + [a], more);
    RunParts(channels, NEW_MANAGER, before, [a]);
    var m0 := Run(channels, before).value;
    RunOne(channels, m0, a);
    InactiveNext(channels, m0, a, key);
    PrintedKeeps(channels, m0, a);
    QuietRun(channels, Next(channels, m0, a), more, key);
  }

  // ---- Counters ----

  /** Every counter is that of some set. */
  ghost predicate CountersUsed(m: Manager) {
    forall gd :: gd in m.counters ==> exists k :: k in m.sets && (k.group, k.decimation) == gd
  }

  lemma RemoveCounters(m: Manager, key: Key)
    requires CountersUsed(m) && key in m.subscriptions
    ensures CountersUsed(Remove(m, key))
  {
    var k, m' := SetOf(m, key), Remove(m, key);
    forall gd | gd in m'.counters
      ensures exists l :: l in m'.sets && (l.group, l.decimation) == gd
    {
      var l :| l in m.sets && (l.group, l.decimation) == gd;
      if l !in m'.sets {
        assert l == k;
      }
    }
  }

  lemma CountersNext(channels: nat, m: Manager, a: Action)
    requires Inv(channels, m) && Possible(channels, m, a) && CountersUsed(m)
    ensures CountersUsed(Next(channels, m, a))
  {
    match a
    case DoSubscribe(key, d, b, size) =>
      if key in m.subscriptions {
        RemoveCounters(m, key);
      }
    case DoUnsubscribe(key) =>
      if key in m.subscriptions {
        RemoveCounters(m, key);
      }
    case DoActivate(key) => ActivateUsed(m, key);
    case DoReceive(p) =>
      InvReady(channels, m, p);
      ReceiveUsed(m, p);
    case _ => SyncUsed(m);
  }

  lemma ActivateUsed(m: Manager, key: Key)
    requires CountersUsed(m) && key in m.subscriptions
    ensures CountersUsed(Activate(m, key))
  {
    var m' := Activate(m, key);
    forall gd | gd in m'.counters
      ensures exists k :: k in m'.sets && (k.group, k.decimation) == gd
    {
      if gd in m.counters {
        var k :| k in m.sets && (k.group, k.decimation) == gd;
        assert k in m'.sets;
      } else {
        assert SetOf(m, key) in m'.sets;
      }
    }
  }

  lemma ReceiveUsed(m: Manager, p: Pdo)
    requires CountersUsed(m) && AllReady(m, p)
    ensures CountersUsed(Receive(m, p))
  {
    assert Receive(m, p).sets.Keys == m.sets.Keys;
    forall gd | gd in Receive(m, p).counters
      ensures exists k :: k in Receive(m, p).sets && (k.group, k.decimation) == gd
    {
      var k :| k in m.sets && (k.group, k.decimation) == gd;
      MembersStay(m, p, k);
    }
  }

  lemma SyncUsed(m: Manager)
    requires CountersUsed(m)
    ensures CountersUsed(Sync(m))
  {
    forall gd | gd in Sync(m).counters
      ensures exists k :: k in Sync(m).sets && (k.group, k.decimation) == gd
    {
      var k :| k in m.sets && (k.group, k.decimation) == gd;
      assert k in Sync(m).sets;
    }
  }

  lemma {:induction false} CountersRun(channels: nat, actions: seq<Action>)
    requires Run(channels, actions).Some?
    ensures CountersUsed(Run(channels, actions).value)
    decreases |actions|
  {
    NewManagerOk(channels);
    if actions != [] {
      var before := actions[..|actions| - 1];
      RunLast(channels, NEW_MANAGER, actions);
      CountersRun(channels, before);
      CountersNext(channels, Run(channels, before).value, actions[|actions| - 1]);
    }
  }

  // ---- Joining ----

  /** The set k has samples of a block under way. */
  ghost predicate UnderWay(m: Manager, k: SetKey) {
    k in m.sets && m.sets[k].stamps != []
  }

  /** No other set of its group has the reduction of k. */
  ghost predicate Alone(m: Manager, k: SetKey) {
    forall l :: l in m.sets ==> (l.group, l.decimation) != (k.group, k.decimation)
  }

  /** key has become active: it takes part from the beginning of a block if and only if none is
      under way in its set, and a whole block of b samples d PDOs apart is due if it is the first
      of its group and reduction. */
  ghost predicate Joined(m: Manager, m': Manager, key: Key) {
    && IsActive(m', key) && m'.subscriptions == m.subscriptions && m'.history == m.history
    && var k := SetOf(m, key);
       && (!IsActive(m, key) ==> (InStep(m', key) <==> !UnderWay(m, k)))
       && (k.blocksize > 0 && Alone(m, k) ==> Due(m', key) == BlockPeriod(k))
  }

  /** In every run, a channel that becomes active joins in this way. */
  lemma JoinIff(channels: nat, actions: seq<Action>, key: Key)
    requires Run(channels, actions + [DoActivate(key)]).Some?
    ensures Run(channels, actions).Some?
    ensures Joined(Run(channels, actions).value, Run(channels, actions + [DoActivate(key)]).value, key)
  {
    NewManagerOk(channels);
    RunParts(channels, NEW_MANAGER, actions, [DoActivate(key)]);
    CountersRun(channels, actions);
    JoinNext(channels, Run(channels, actions).value, key);
  }

  lemma JoinNext(channels: nat, m: Manager, key: Key)
    requires Inv(channels, m) && CountersUsed(m) && RunFrom(channels, m, [DoActivate(key)]).Some?
    ensures Joined(m, RunFrom(channels, m, [DoActivate(key)]).value, key)
  {
    RunOne(channels, m, DoActivate(key));
    ActivateActivates(m, key);
    var k := SetOf(m, key);
    if !IsActive(m, key) {
      JoinedInStep(channels, m, key);
    }
    if k.blocksize > 0 && Alone(m, k) {
      FirstDue(m, key);
    }
  }

  lemma JoinedInStep(channels: nat, m: Manager, key: Key)
    requires Inv(channels, m) && key in m.subscriptions && !IsActive(m, key)
    ensures InStep(Activate(m, key), key) <==> !UnderWay(m, SetOf(m, key))
  {
    ActivateActivates(m, key);
  }

  // ---- Which blocks a channel is in ----

  /** A member is in step after a PDO if and only if it was before or the block has been printed. */
  lemma StepIff(channels: nat, m: Manager, p: Pdo, key: Key)
    requires Inv(channels, m) && |p.values| == channels && AllReady(m, p)
    requires IsActive(m, key) && m.subscriptions[key].blocksize > 0
    ensures InStep(Receive(m, p), key)
            <==> InStep(m, key) || (SetOf(m, key), |m.history|) in Receive(m, p).printed
  {
    InStepReceive(channels, m, p, key);
    if !InStep(m, key) && (SetOf(m, key), |m.history|) !in Receive(m, p).printed {
      PrintedNow(channels, m, p, SetOf(m, key));
      ReceiveSubscription(channels, m, p, key);
      StaysBehind(m, p, SetOf(m, key), key);
    }
  }

  lemma StaysBehind(m: Manager, p: Pdo, k: SetKey, key: Key)
    requires AllReady(m, p) && IsActive(m, key) && SetOf(m, key) == k && k.blocksize > 0
    requires m.subscriptions[key].nblocks != |m.sets[k].stamps|
    requires Fires(m, k) ==> Queue(k.blocksize, m.sets[k], m.subscriptions, p) == {}
    ensures k in Receive(m, p).sets && key in Receive(m, p).subscriptions
    ensures Receive(m, p).subscriptions[key].nblocks != |Receive(m, p).sets[k].stamps|
  {
    if Fires(m, k) {
      SampledBehind(k.blocksize, m.sets[k], m.subscriptions, p, |m.history|, key);
    }
  }

  lemma SampledBehind(b: nat, g: SubscriptionSet, subs: map<Key, Subscription>, p: Pdo, n: nat, key: Key)
    requires Ready(b, g, subs, p.values) && key in g.members && subs[key].blocksize == b > 0
    requires subs[key].nblocks != |g.stamps| && Queue(b, g, subs, p) == {}
    ensures SampledMember(b, g, subs, p, n, key).nblocks != |SampledSet(b, g, subs, p, n).stamps|
  {
  }

  lemma DetachedStep(m: Manager, m': Manager, other: Key, key: Key)
    requires Detached(m, m', other) && SameBut(m.subscriptions, m'.subscriptions, other) && key != other
    requires IsActive(m, key)
    ensures InStep(m', key) <==> InStep(m, key)
  {
    assert key in m.subscriptions;
    assert SetOf(m, key) in m'.sets;
  }

  lemma ActivateStep(channels: nat, m: Manager, other: Key, key: Key)
    requires Inv(channels, m) && other in m.subscriptions && IsActive(m, key)
    ensures InStep(Activate(m, other), key) <==> InStep(m, key)
  {
    ActivateDue(channels, m, other, key);
    if other == key {
      ActivateAgain(m, key);
    }
  }

  lemma StepSpared(channels: nat, m: Manager, a: Action, key: Key)
    requires Inv(channels, m) && Possible(channels, m, a) && Spares(a, key) && IsActive(m, key)
    requires !a.DoReceive? && !a.DoSync?
    ensures InStep(Next(channels, m, a), key) <==> InStep(m, key)
  {
    SetsTidy(m);
    match a
    case DoSubscribe(other, d, b, size) =>
      SubscribeDetaches(m, other, d, b, size);
      DetachedStep(m, Next(channels, m, a), other, key);
    case DoUnsubscribe(other) =>
      if other in m.subscriptions {
        UnsubscribeDetaches(m, other);
        DetachedStep(m, Next(channels, m, a), other, key);
      }
    case DoActivate(other) => ActivateStep(channels, m, other, key);
  }

  /** The elements of key since PDO number since are in the blocks that were due, all of them if key
      has joined, or else all but the first. */
  ghost predicate InBlocksDue(m: Manager, key: Key, k: SetKey, since: nat, first: nat, period: nat, joined: bool) {
    forall n :: since <= n < |m.history| ==>
      (PrintedAt(m, key, k, n) <==> DueLater(first, period, n - since) == 1 && (joined || n >= since + first))
  }

  ghost predicate Arriving(m: Manager, key: Key, k: SetKey, since: nat, first: nat, period: nat, joined: bool) {
    && InBlocksDue(m, key, k, since, first, period, joined)
    && (InStep(m, key) <==> joined || |m.history| >= since + first)
  }

  /** In every run that leaves a channel in a block set alone and does not synchronise, it has an
      element in exactly those PDOs in which a block is due; only in the first of them it has none
      if it joined in the middle of that block. */
  lemma {:induction false} BlocksArrive(channels: nat, m: Manager, actions: seq<Action>, key: Key)
    requires Inv(channels, m) && IsActive(m, key) && m.subscriptions[key].blocksize > 0
    requires RunFrom(channels, m, actions).Some? && Spared(actions, key) && DoSync !in actions
    ensures Arriving(RunFrom(channels, m, actions).value, key, SetOf(m, key), |m.history|, Due(m, key),
                     BlockPeriod(SetOf(m, key)), InStep(m, key))
    decreases |actions|
  {
    if actions != [] {
      var before, a := actions[..|actions| - 1], actions[|actions| - 1];
      RunLast(channels, m, actions);
      BlocksArrive(channels, m, before, key);
      BlocksOnTime(channels, m, before, key);
      PeriodPositive(SetOf(m, key));
      ArrivingNext(channels, RunFrom(channels, m, before).value, a, key, SetOf(m, key), |m.history|, Due(m, key),
                   InStep(m, key));
    }
  }

  lemma PeriodPositive(k: SetKey)
    requires k.blocksize > 0
    ensures BlockPeriod(k) > 0
  {
  }

  lemma ArrivingNext(channels: nat, m: Manager, a: Action, key: Key, k: SetKey, since: nat, first: nat, joined: bool)
    requires Inv(channels, m) && Possible(channels, m, a) && Spares(a, key) && a != DoSync && k.blocksize > 0
    requires Timely(m, key, k, since, first, BlockPeriod(k)) && BlockPeriod(k) > 0 && first > 0
    requires Arriving(m, key, k, since, first, BlockPeriod(k), joined)
    ensures Arriving(Next(channels, m, a), key, k, since, first, BlockPeriod(k), joined)
  {
    if a.DoReceive? {
      InvReady(channels, m, a.pdo);
      DueReceive(channels, m, a.pdo, key);
      StepIff(channels, m, a.pdo, key);
      if (k, |m.history|) in Receive(m, a.pdo).printed {
        PrintedMembers(channels, m, a.pdo, k, key);
      }
      AtEarlier(m, a.pdo, key, k);
      ArrivingStep(m, Receive(m, a.pdo), key, k, since, first, BlockPeriod(k), joined);
    } else {
      DueSpared(channels, m, a, key);
      StepSpared(channels, m, a, key);
      SamePrinted(m, Next(channels, m, a), key, k, since, first, BlockPeriod(k), joined);
    }
  }

  lemma SamePrinted(m: Manager, m': Manager, key: Key, k: SetKey, since: nat, first: nat, period: nat, joined: bool)
    requires Arriving(m, key, k, since, first, period, joined) && (InStep(m', key) <==> InStep(m, key))
    requires m'.history == m.history && m'.printed == m.printed
    ensures Arriving(m', key, k, since, first, period, joined)
  {
    forall n | since <= n < |m'.history|
      ensures PrintedAt(m', key, k, n)
              <==> DueLater(first, period, n - since) == 1 && (joined || n >= since + first)
    {
      assert PrintedAt(m', key, k, n) <==> PrintedAt(m, key, k, n);
    }
  }

  /** What was printed earlier is as it was. */
  ghost predicate SameAt(m: Manager, m': Manager, key: Key, k: SetKey) {
    && |m'.history| == |m.history| + 1
    && forall n: nat :: n < |m.history| ==> (PrintedAt(m', key, k, n) <==> PrintedAt(m, key, k, n))
  }

  lemma AtEarlier(m: Manager, p: Pdo, key: Key, k: SetKey)
    requires AllReady(m, p)
    ensures SameAt(m, Receive(m, p), key, k)
  {
    forall n: nat | n < |m.history|
      ensures PrintedAt(Receive(m, p), key, k, n) <==> PrintedAt(m, key, k, n)
    {
      PrintedEarlier(m, p, k, n);
    }
  }

  lemma ArrivingStep(m: Manager, m': Manager, key: Key, k: SetKey, since: nat, first: nat, period: nat, joined: bool)
    requires Arriving(m, key, k, since, first, period, joined) && SameAt(m, m', key, k)
    requires period > 0 && first > 0 && since <= |m.history|
    requires var due := DueLater(first, period, |m.history| - since) == 1;
             && (PrintedAt(m', key, k, |m.history|) <==> due && InStep(m, key))
             && (InStep(m', key) <==> InStep(m, key) || due)
    ensures Arriving(m', key, k, since, first, period, joined)
  {
    DueIff(first, period, |m.history| - since);
    forall n | since <= n < |m'.history|
      ensures PrintedAt(m', key, k, n)
              <==> DueLater(first, period, n - since) == 1 && (joined || n >= since + first)
    {
      if n < |m.history| {
        assert PrintedAt(m', key, k, n) <==> PrintedAt(m, key, k, n);
      }
    }
  }

  // ---- Starting over ----

  ghost predicate AllSince(stamps: seq<nat>, since: nat) {
    forall i :: 0 <= i < |stamps| ==> stamps[i] >= since
  }

  /** Samples under way, and those printed since then, stem from PDOs since then. */
  ghost predicate FreshSince(m: Manager, since: nat) {
    && since <= |m.history|
    && (forall k :: k in m.sets ==> AllSince(m.sets[k].stamps, since))
    && forall k, n :: since <= n && (k, n) in m.printed ==> AllSince(m.printed[(k, n)].stamps, since)
  }

  lemma DetachedFresh(m: Manager, m': Manager, other: Key, since: nat)
    requires Detached(m, m', other) && FreshSince(m, since)
    ensures FreshSince(m', since)
  {
  }

  lemma FreshReceive(channels: nat, m: Manager, p: Pdo, since: nat)
    requires Inv(channels, m) && AllReady(m, p) && FreshSince(m, since)
    ensures FreshSince(Receive(m, p), since)
  {
    var m' := Receive(m, p);
    forall k | k in m'.sets
      ensures AllSince(m'.sets[k].stamps, since)
    {
      FreshSet(m, p, k, since);
    }
    forall k, n | since <= n && (k, n) in m'.printed
      ensures AllSince(m'.printed[(k, n)].stamps, since)
    {
      if n == |m.history| {
        PrintedNow(channels, m, p, k);
        FreshTag(k.blocksize, m.sets[k], m.subscriptions, p, n, since);
      } else {
        PrintedEarlier(m, p, k, n);
      }
    }
  }

  lemma FreshSet(m: Manager, p: Pdo, k: SetKey, since: nat)
    requires AllReady(m, p) && k in m.sets && AllSince(m.sets[k].stamps, since) && since <= |m.history|
    ensures AllSince(Receive(m, p).sets[k].stamps, since)
  {
    if k in Firing(m) {
      FreshTag(k.blocksize, m.sets[k], m.subscriptions, p, |m.history|, since);
    }
  }

  lemma FreshTag(b: nat, g: SubscriptionSet, subs: map<Key, Subscription>, p: Pdo, n: nat, since: nat)
    requires Ready(b, g, subs, p.values) && AllSince(g.stamps, since) && since <= n
    ensures AllSince(PrintedTag(b, g, subs, p, n).stamps, since)
    ensures AllSince(SampledSet(b, g, subs, p, n).stamps, since)
  {
  }

  lemma FreshNext(channels: nat, m: Manager, a: Action, since: nat)
    requires Inv(channels, m) && Possible(channels, m, a) && FreshSince(m, since)
    ensures FreshSince(Next(channels, m, a), since)
  {
    SetsTidy(m);
    match a
    case DoSubscribe(key, d, b, size) =>
      SubscribeDetaches(m, key, d, b, size);
      DetachedFresh(m, Next(channels, m, a), key, since);
    case DoUnsubscribe(key) =>
      if key in m.subscriptions {
        UnsubscribeDetaches(m, key);
        DetachedFresh(m, Next(channels, m, a), key, since);
      }
    case DoReceive(p) =>
      InvReady(channels, m, p);
      FreshReceive(channels, m, p, since);
    case _ =>
  }

  lemma {:induction false} FreshRun(channels: nat, m: Manager, actions: seq<Action>, since: nat)
    requires Inv(channels, m) && RunFrom(channels, m, actions).Some? && FreshSince(m, since)
    ensures FreshSince(RunFrom(channels, m, actions).value, since)
    decreases |actions|
  {
    if actions != [] {
      var before := actions[..|actions| - 1];
      RunLast(channels, m, actions);
      FreshRun(channels, m, before, since);
      FreshNext(channels, RunFrom(channels, m, before).value, actions[|actions| - 1], since);
    }
  }

  /** In every run, blocks printed after sync have no samples from before. */
  lemma SyncStartsOver(channels: nat, before: seq<Action>, more: seq<Action>)
    requires Run(channels, before + [DoSync] + more).Some?
    ensures Run(channels, before).Some?
    ensures FreshSince(Run(channels, before + [DoSync] + more).value, |Run(channels, before).value.history|)
  {
    NewManagerOk(channels);
    RunParts(channels, NEW_MANAGER, before + [DoSync], more);
    RunParts(channels, NEW_MANAGER, before, [DoSync]);
    var m0 := Run(channels, before).value;
    RunOne(channels, m0, DoSync);
    SyncFresh(channels, m0);
    FreshRun(channels, Next(channels, m0, DoSync), more, |m0.history|);
  }

  lemma SyncFresh(channels: nat, m: Manager)
    requires Inv(channels, m)
    ensures FreshSince(Sync(m), |m.history|)
  {
    forall k, n | |m.history| <= n && (k, n) in m.printed
      ensures false
    {
      PrintedInThePast(m.printed, m.history, k, n);
    }
  }

  lemma {:induction false} TimesSum(a: nat, b: nat, p: nat)
    ensures Times(a + b, p) == Times(a, p) + Times(b, p)
  {
    if a > 0 {
      TimesSum(a - 1, b, p);
    }
  }

  /** After sync every member takes part from the beginning, and its block comes later by one
      period for every sample it had. */
  lemma SyncPutsOff(channels: nat, m: Manager, key: Key)
    requires Inv(channels, m) && IsActive(m, key) && m.subscriptions[key].blocksize > 0
    ensures var k := SetOf(m, key);
            && InStep(Sync(m), key) && SetOf(Sync(m), key) == k
            && Due(Sync(m), key) == Due(m, key) + Times(|m.sets[k].stamps|, Period(k.decimation))
  {
    var k := SetOf(m, key);
    assert SetOk(k, m.sets[k], m);
    SyncInStep(m, key);
    SyncDue(m, k);
  }

  lemma SyncDue(m: Manager, k: SetKey)
    requires k in m.sets && m.sets[k].timePtr < k.blocksize
    ensures SetDueIn(Sync(m), k) == SetDueIn(m, k) + Times(m.sets[k].timePtr, Period(k.decimation))
  {
    var gd := (k.group, k.decimation);
    DueFromStart(if gd in m.counters then m.counters[gd] else 0, k.decimation, k.blocksize, m.sets[k].timePtr);
  }

  lemma DueFromStart(c: nat, d: nat, b: nat, t: nat)
    requires t < b
    ensures DueAt(c, d, b, 0) == DueAt(c, d, b, t) + Times(t, Period(d))
  {
    TimesSum(b - 1 - t, t, Period(d));
    assert b - 1 - t + t == b - 1;
  }
}
