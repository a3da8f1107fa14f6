/** The subscription manager as an object whose fields the operations update. */
module SubscriptionManagers {
  import opened Common
  import opened Scheduler
  import opened SchedulerInvariant

  /** todo and done split all between them. */
  ghost predicate Split<T(!new)>(all: set<T>, todo: set<T>, done: set<T>) {
    forall x :: (x in all <==> x in todo || x in done) && !(x in todo && x in done)
  }

  lemma SplitOne<T(!new)>(all: set<T>, todo: set<T>, done: set<T>, x: T)
    requires Split(all, todo, done) && x in todo
    ensures Split(all, todo - {x}, done + {x}) && done + {x} <= all
  {
  }

  lemma SplitEnds<T(!new)>(all: set<T>, done: set<T>)
    requires Split(all, {}, done)
    ensures done == all
  {
  }

  lemma PlusNothing<T>(done: set<T>)
    ensures done + {} == done
  {
  }

  lemma PlusOne<T>(done: set<T>, turned: set<T>, x: T)
    ensures done + turned + {x} == done + (turned + {x})
  {
  }

  ghost predicate CanTake(subs: map<Key, Subscription>, members: set<Key>, p: Pdo) {
    forall key :: key in members ==>
      key in subs && subs[key].nblocks < |subs[key].data| && key.channel < |p.values|
  }

  /** The subscriptions once the given members of a set have taken their value. */
  ghost function Valued(subs: map<Key, Subscription>, members: set<Key>, p: Pdo, n: nat): map<Key, Subscription>
    requires CanTake(subs, members, p)
  {
    map key | key in subs :: if key in members then NewValue(subs[key], p.values[key.channel], n) else subs[key]
  }

  lemma ValuedNone(subs: map<Key, Subscription>, p: Pdo, n: nat)
    ensures Valued(subs, {}, p, n) == subs
  {
  }

  lemma ValuedOne(subs: map<Key, Subscription>, done: set<Key>, p: Pdo, n: nat, key: Key)
    requires CanTake(subs, done + {key}, p) && key !in done
    ensures Valued(subs, done, p, n)[key := NewValue(subs[key], p.values[key.channel], n)]
         == Valued(subs, done + {key}, p, n)
    ensures Valued(subs, done, p, n)[key] == subs[key]
  {
  }

  /** The members to print: all of them when their block is full, else the event channels that
      do not hold back. */
  ghost function Queued(subs: map<Key, Subscription>, members: set<Key>, p: Pdo, b: nat, full: bool): set<Key>
    requires CanTake(subs, members, p)
  {
    set key | key in members && (full || (b == 0 && !HoldsBack(subs[key], p.values[key.channel])))
  }

  lemma QueuedOne(subs: map<Key, Subscription>, done: set<Key>, p: Pdo, b: nat, full: bool, key: Key)
    requires CanTake(subs, done + {key}, p)
    ensures Queued(subs, done + {key}, p, b, full)
         == Queued(subs, done, p, b, full)
            + if full || (b == 0 && !HoldsBack(subs[key], p.values[key.channel])) then {key} else {}
  {
  }

  ghost function Emptied(subs: map<Key, Subscription>, queue: set<Key>): map<Key, Subscription> {
    map key | key in subs :: if key in queue then Reset(subs[key]) else subs[key]
  }

  lemma EmptiedNone(subs: map<Key, Subscription>)
    ensures Emptied(subs, {}) == subs
  {
  }

  lemma EmptiedOne(subs: map<Key, Subscription>, done: set<Key>, key: Key)
    requires key in subs
    ensures Emptied(subs, done)[key := Reset(subs[key])] == Emptied(subs, done + {key})
  {
  }

  ghost predicate CanPrint(subs: map<Key, Subscription>, queue: set<Key>) {
    forall key :: key in queue ==> key in subs && subs[key].nblocks <= |subs[key].data|
  }

  ghost function Elements(subs: map<Key, Subscription>, queue: set<Key>): map<Key, seq<Value>>
    requires CanPrint(subs, queue)
  {
    map key | key in queue && PrintsElement(subs[key]) :: Samples(subs[key])
  }

  lemma ElementsOne(subs: map<Key, Subscription>, done: set<Key>, key: Key)
    requires CanPrint(subs, done + {key})
    ensures Elements(subs, done + {key})
         == if PrintsElement(subs[key]) then Elements(subs, done)[key := Samples(subs[key])] else Elements(subs, done)
  {
  }

  /** What one set's turn comes to. */
  lemma TurnIsSampling(k: SetKey, g: SubscriptionSet, subs: map<Key, Subscription>, p: Pdo, n: nat)
    requires Ready(k.blocksize, g, subs, p.values)
    ensures CanTake(subs, g.members, p)
    ensures var b, c, valued := k.blocksize, Capture(k.blocksize, g, p.time, n), Valued(subs, g.members, p, n);
            var queue := Queued(subs, g.members, p, b, BlockFull(b, c));
            && queue == Queue(b, g, subs, p) && queue <= g.members
            && CanPrint(valued, queue)
            && Elements(valued, queue) == PrintedTag(b, g, subs, p, n).elements
            && forall key :: key in g.members ==> Emptied(valued, queue)[key] == SampledMember(b, g, subs, p, n, key)
  {
  }

  ghost predicate AgreeOn(members: set<Key>, subs: map<Key, Subscription>, subs': map<Key, Subscription>) {
    forall key :: key in members && key in subs ==> key in subs' && subs'[key] == subs[key]
  }

  /** A set's turn depends on its own members only. */
  lemma TurnIsLocal(b: nat, g: SubscriptionSet, subs: map<Key, Subscription>, subs': map<Key, Subscription>,
                    p: Pdo, n: nat)
    requires Ready(b, g, subs, p.values) && AgreeOn(g.members, subs, subs')
    ensures Ready(b, g, subs', p.values) && Queue(b, g, subs', p) == Queue(b, g, subs, p)
    ensures SampledSet(b, g, subs', p, n) == SampledSet(b, g, subs, p, n)
    ensures PrintedTag(b, g, subs', p, n) == PrintedTag(b, g, subs, p, n)
    ensures forall key :: key in g.members ==>
              SampledMember(b, g, subs', p, n, key) == SampledMember(b, g, subs, p, n, key)
  {
    assert Queue(b, g, subs', p) == Queue(b, g, subs, p);
    assert PrintedTag(b, g, subs', p, n).elements == PrintedTag(b, g, subs, p, n).elements;
  }

  lemma NobodyTaken(m: Manager, p: Pdo)
    requires AllReady(m, p)
    ensures SubscriptionsTaken(m, p, {}) == m.subscriptions
    ensures SetsTaken(m, p, {}) == m.sets
    ensures Ticked(m.counters, {}) == m.counters
  {
  }

  lemma NothingPrinted(m: Manager, p: Pdo)
    requires AllReady(m, p)
    ensures m.printed + TagsTaken(m, p, {}) == m.printed
  {
  }

  lemma OthersUntouched(m: Manager, p: Pdo, done: set<SetKey>, k: SetKey)
    requires AllReady(m, p) && k in m.sets && k !in done && Attached(k, m.sets[k], m.subscriptions)
    ensures AgreeOn(m.sets[k].members, m.subscriptions, SubscriptionsTaken(m, p, done))
    ensures SetsTaken(m, p, done)[k] == m.sets[k]
  {
  }

  lemma OneSetTaken(m: Manager, p: Pdo, done: set<SetKey>, k: SetKey)
    requires AllReady(m, p) && k in m.sets && k !in done
    ensures SetsTaken(m, p, done + {k})
         == SetsTaken(m, p, done)[k := SampledSet(k.blocksize, m.sets[k], m.subscriptions, p, |m.history|)]
  {
  }

  /** What the sets done have printed for l on this PDO. */
  lemma TagTakenAt(m: Manager, p: Pdo, done: set<SetKey>, l: SetKey, i: nat)
    requires AllReady(m, p)
    ensures (l, i) in TagsTaken(m, p, done) <==>
              && i == |m.history| && l in m.sets && l in done
              && Queue(l.blocksize, m.sets[l], m.subscriptions, p) != {}
    ensures (l, i) in TagsTaken(m, p, done) ==>
              TagsTaken(m, p, done)[(l, i)] == PrintedTag(l.blocksize, m.sets[l], m.subscriptions, p, |m.history|)
  {
  }

  /** The tags once the set k has had its turn. */
  ghost function TagAdded(tags: map<(SetKey, nat), Tag>, k: SetKey, g: SubscriptionSet,
                          subs: map<Key, Subscription>, p: Pdo, n: nat)
    : map<(SetKey, nat), Tag>
    requires Ready(k.blocksize, g, subs, p.values)
  {
    if Queue(k.blocksize, g, subs, p) == {} then tags
    else tags[(k, n) := PrintedTag(k.blocksize, g, subs, p, n)]
  }

  lemma OneTagTaken(m: Manager, p: Pdo, done: set<SetKey>, k: SetKey)
    requires AllReady(m, p) && k in m.sets && k !in done
    ensures TagsTaken(m, p, done + {k})
         == TagAdded(TagsTaken(m, p, done), k, m.sets[k], m.subscriptions, p, |m.history|)
  {
    var after := TagAdded(TagsTaken(m, p, done), k, m.sets[k], m.subscriptions, p, |m.history|);
    forall l, i: nat
      ensures (l, i) in TagsTaken(m, p, done + {k}) <==> (l, i) in after
      ensures (l, i) in after ==> TagsTaken(m, p, done + {k})[(l, i)] == after[(l, i)]
    {
      TagTakenAt(m, p, done, l, i);
      TagTakenAt(m, p, done + {k}, l, i);
    }
    SameMaps(TagsTaken(m, p, done + {k}), after);
  }

  lemma SameMaps(a: map<(SetKey, nat), Tag>, b: map<(SetKey, nat), Tag>)
    requires forall l, i: nat :: ((l, i) in a <==> (l, i) in b) && ((l, i) in a ==> a[(l, i)] == b[(l, i)])
    ensures a == b
  {
    forall x: (SetKey, nat)
      ensures (x in a <==> x in b) && (x in a ==> a[x] == b[x])
    {
      assert x == (x.0, x.1);
    }
  }

  lemma PlusTag(a: map<(SetKey, nat), Tag>, b: map<(SetKey, nat), Tag>, k: SetKey, g: SubscriptionSet,
                subs: map<Key, Subscription>, p: Pdo, n: nat)
    requires Ready(k.blocksize, g, subs, p.values)
    ensures TagAdded(a + b, k, g, subs, p, n) == a + TagAdded(b, k, g, subs, p, n)
  {
  }

  lemma SubscriptionsAre(subs: map<Key, Subscription>, m: Manager, p: Pdo, done: set<SetKey>)
    requires AllReady(m, p) && subs.Keys == m.subscriptions.Keys
    requires forall key :: key in m.subscriptions ==> subs[key] == SubscriptionTaken(m, p, done, key)
    ensures subs == SubscriptionsTaken(m, p, done)
  {
  }

  lemma OneMemberTaken(m: Manager, p: Pdo, done: set<SetKey>, k: SetKey, key: Key)
    requires AllReady(m, p) && k in m.sets && k !in done && Attached(k, m.sets[k], m.subscriptions)
    requires key in m.subscriptions
    ensures SubscriptionTaken(m, p, done + {k}, key)
         == if key in m.sets[k].members
            then SampledMember(k.blocksize, m.sets[k], m.subscriptions, p, |m.history|, key)
            else SubscriptionTaken(m, p, done, key)
  {
  }

  /** subs' is subs once the set k has had its turn. */
  ghost predicate HadTurn(k: SetKey, g: SubscriptionSet, p: Pdo, n: nat, subs: map<Key, Subscription>,
                          subs': map<Key, Subscription>)
    requires Ready(k.blocksize, g, subs, p.values)
  {
    && subs'.Keys == subs.Keys
    && forall key :: key in subs ==>
         subs'[key] == if key in g.members then SampledMember(k.blocksize, g, subs, p, n, key) else subs[key]
  }

  lemma TurnTakes(m: Manager, p: Pdo, done: set<SetKey>, k: SetKey, subs': map<Key, Subscription>)
    requires AllReady(m, p) && k in m.sets && k !in done && Attached(k, m.sets[k], m.subscriptions)
    requires Ready(k.blocksize, m.sets[k], SubscriptionsTaken(m, p, done), p.values)
    requires HadTurn(k, m.sets[k], p, |m.history|, SubscriptionsTaken(m, p, done), subs')
    ensures subs' == SubscriptionsTaken(m, p, done + {k})
  {
    OthersUntouched(m, p, done, k);
    TurnIsLocal(k.blocksize, m.sets[k], m.subscriptions, SubscriptionsTaken(m, p, done), p, |m.history|);
    forall key | key in m.subscriptions
      ensures subs'[key] == SubscriptionTaken(m, p, done + {k}, key)
    {
      OneMemberTaken(m, p, done, k, key);
    }
    SubscriptionsAre(subs', m, p, done + {k});
  }

  lemma OneTicked(counters: map<(nat, nat), nat>, counted: set<(nat, nat)>, gd: (nat, nat))
    requires gd in counters && gd !in counted
    ensures Ticked(counters, counted)[gd := Tick(counters[gd], gd.1)] == Ticked(counters, counted + {gd})
    ensures Ticked(counters, counted)[gd] == counters[gd]
  {
  }

  /** The sets of one group and decimation. */
  ghost function SetsAt(m: Manager, gd: (nat, nat)): set<SetKey> {
    set k | k in m.sets && (k.group, k.decimation) == gd
  }

  /** The sets that take the PDO among those whose counter has been stepped. */
  ghost function FiringIn(m: Manager, counted: set<(nat, nat)>): set<SetKey> {
    set k | k in m.sets && Fires(m, k) && (k.group, k.decimation) in counted
  }

  lemma FiringOne(m: Manager, counted: set<(nat, nat)>, gd: (nat, nat))
    requires gd in m.counters && gd !in counted
    ensures Tick(m.counters[gd], gd.1) == 0 ==> FiringIn(m, counted + {gd}) == FiringIn(m, counted) + SetsAt(m, gd)
    ensures Tick(m.counters[gd], gd.1) != 0 ==> FiringIn(m, counted + {gd}) == FiringIn(m, counted)
  {
  }

  lemma FiringNone(m: Manager)
    ensures FiringIn(m, {}) == {}
  {
  }

  lemma FiringAll(m: Manager)
    ensures FiringIn(m, m.counters.Keys) == Firing(m)
  {
  }

  lemma ActivateEffect(m: Manager, key: Key)
    requires key in m.subscriptions
    ensures forall other :: other in m.subscriptions ==>
              (IsActive(Activate(m, key), other) <==> IsActive(m, other) || other == key)
    ensures var sets' := Activate(m, key).sets;
            forall k :: k in m.sets ==> k in sets' && sets'[k] == m.sets[k].(members := sets'[k].members)
  {
  }

  // ---- Sync, set by set ----

  ghost function SetsRewound(sets: map<SetKey, SubscriptionSet>, done: set<SetKey>): map<SetKey, SubscriptionSet> {
    map k | k in sets :: if k in done then sets[k].(timePtr := 0, stamps := []) else sets[k]
  }

  lemma RewindOne(sets: map<SetKey, SubscriptionSet>, done: set<SetKey>, k: SetKey)
    requires k in sets && k !in done
    ensures SetsRewound(sets, done)[k := sets[k].(timePtr := 0, stamps := [])] == SetsRewound(sets, done + {k})
    ensures SetsRewound(sets, done)[k] == sets[k]
  {
  }

  lemma RewindNone(sets: map<SetKey, SubscriptionSet>)
    ensures SetsRewound(sets, {}) == sets
  {
  }

  /** Everyone in one of the given sets. */
  ghost function MembersOf(sets: map<SetKey, SubscriptionSet>, done: set<SetKey>): set<Key> {
    set k, key | k in sets && k in done && key in sets[k].members :: key
  }

  lemma MembersOne(sets: map<SetKey, SubscriptionSet>, done: set<SetKey>, k: SetKey)
    requires k in sets
    ensures MembersOf(sets, done) + sets[k].members == MembersOf(sets, done + {k})
  {
  }

  lemma EmptiedTwice(subs: map<Key, Subscription>, a: set<Key>, b: set<Key>)
    ensures Emptied(Emptied(subs, a), b) == Emptied(subs, a + b)
  {
  }

  lemma AllRewound(m: Manager)
    requires Tidy(m)
    ensures SetsRewound(m.sets, m.sets.Keys) == Sync(m).sets
    ensures Emptied(m.subscriptions, MembersOf(m.sets, m.sets.Keys)) == Sync(m).subscriptions
  {
    forall key | key in m.subscriptions
      ensures key in MembersOf(m.sets, m.sets.Keys) <==> IsActive(m, key)
    {
    }
  }

  class SubscriptionManager {
    var subscriptions: map<Key, Subscription>
    var sets: map<SetKey, SubscriptionSet>
    var counters: map<(nat, nat), nat>
    var history: seq<Pdo>
    var printed: map<(SetKey, nat), Tag>

    ghost function Value(): Manager
      reads this
    {
      Manager(subscriptions, sets, counters, history, printed)
    }

    constructor (ghost channels: nat)
      ensures Value() == NEW_MANAGER && Inv(channels, Value())
    {
      subscriptions, sets, counters, history, printed := map[], map[], map[], [], map[];
    }

    /** Steps one decimation counter. */
    method Busy(gd: (nat, nat)) returns (busy: bool)
      requires gd in counters
      modifies this`counters
      ensures counters == old(counters)[gd := Tick(old(counters)[gd], gd.1)]
      ensures busy <==> Tick(old(counters)[gd], gd.1) != 0
    {
      var counter := counters[gd];
      if counter == 0 {
        counter := gd.1;
      }
      counter := if counter == 0 then SIZE_MAX else counter - 1;
      counters := counters[gd := counter];
      busy := counter != 0;
    }

    method SampleMembers(members: set<Key>, p: Pdo, n: nat, b: nat, full: bool) returns (queue: set<Key>)
      requires CanTake(subscriptions, members, p)
      modifies this`subscriptions
      ensures subscriptions == Valued(old(subscriptions), members, p, n)
      ensures queue == Queued(old(subscriptions), members, p, b, full)
    {
      ghost var was := subscriptions;
      var todo, done: set<Key> := members, {};
      queue := {};
      ValuedNone(was, p, n);
      while todo != {}
        invariant Split(members, todo, done)
        invariant subscriptions == Valued(was, done, p, n)
        invariant queue == Queued(was, done, p, b, full)
        decreases |todo|
      {
        var key :| key in todo;
        SplitOne(members, todo, done, key);
        ValuedOne(was, done, p, n, key);
        QueuedOne(was, done, p, b, full, key);
        var s, v := subscriptions[key], p.values[key.channel];
        if (!HoldsBack(s, v) && b == 0) || full {
          queue := queue + {key};
        }
        subscriptions := subscriptions[key := NewValue(s, v, n)];
        todo, done := todo - {key}, done + {key};
      }
      SplitEnds(members, done);
    }

    method PrintQueue(queue: set<Key>) returns (elements: map<Key, seq<Value>>)
      requires CanPrint(subscriptions, queue)
      modifies this`subscriptions
      ensures subscriptions == Emptied(old(subscriptions), queue)
      ensures elements == Elements(old(subscriptions), queue)
    {
      elements := map[];
      var todo, done: set<Key> := queue, {};
      EmptiedNone(subscriptions);
      while todo != {}
        invariant Split(queue, todo, done)
        invariant subscriptions == Emptied(old(subscriptions), done)
        invariant elements == Elements(old(subscriptions), done)
        decreases |todo|
      {
        var key :| key in todo;
        SplitOne(queue, todo, done, key);
        EmptiedOne(old(subscriptions), done, key);
        ElementsOne(old(subscriptions), done, key);
        if PrintsElement(subscriptions[key]) {
          elements := elements[key := Samples(subscriptions[key])];
        }
        subscriptions := subscriptions[key := Reset(subscriptions[key])];
        todo, done := todo - {key}, done + {key};
      }
      SplitEnds(queue, done);
    }

    /** One set takes the PDO. */
    method TakePdo(k: SetKey, p: Pdo)
      requires k in sets && Ready(k.blocksize, sets[k], subscriptions, p.values)
      modifies this`subscriptions, this`sets, this`printed
      ensures sets == old(sets)[k := SampledSet(k.blocksize, old(sets)[k], old(subscriptions), p, |history|)]
      ensures HadTurn(k, old(sets)[k], p, |history|, old(subscriptions), subscriptions)
      ensures printed == TagAdded(old(printed), k, old(sets)[k], old(subscriptions), p, |history|)
    {
      var b, n := k.blocksize, |history|;
      TurnIsSampling(k, sets[k], subscriptions, p, n);
      var g := Capture(b, sets[k], p.time, n);
      var queue := SampleMembers(g.members, p, n, b, BlockFull(b, g));
      EmptiedNone(subscriptions);
      if queue != {} {
        var time, stamps := g.time, if b == 0 then [n] else g.stamps;
        g := g.(timePtr := 0, stamps := []);
        var elements := PrintQueue(queue);
        printed := printed[(k, n) := Tag(time, elements, stamps)];
      }
      sets := sets[k := g];
    }

    /** The state on the way from m through the PDO. */
    ghost predicate Midway(m: Manager, p: Pdo, done: set<SetKey>, counted: set<(nat, nat)>)
      requires AllReady(m, p)
      reads this
    {
      && subscriptions == SubscriptionsTaken(m, p, done)
      && sets == SetsTaken(m, p, done)
      && printed == m.printed + TagsTaken(m, p, done)
      && counters == Ticked(m.counters, counted)
      && history == m.history
    }

    method TakeTurn(ghost m: Manager, p: Pdo, ghost done: set<SetKey>, ghost counted: set<(nat, nat)>, k: SetKey)
      requires AllReady(m, p) && Tidy(m) && k in m.sets && k !in done
      requires Midway(m, p, done, counted)
      modifies this`subscriptions, this`sets, this`printed
      ensures Midway(m, p, done + {k}, counted)
    {
      OthersUntouched(m, p, done, k);
      TurnIsLocal(k.blocksize, m.sets[k], m.subscriptions, subscriptions, p, |history|);
      OneSetTaken(m, p, done, k);
      OneTagTaken(m, p, done, k);
      PlusTag(m.printed, TagsTaken(m, p, done), k, m.sets[k], m.subscriptions, p, |history|);
      TakePdo(k, p);
      TurnTakes(m, p, done, k, subscriptions);
    }

    /** The sets of one group and decimation take the PDO. */
    method TakeTurns(ghost m: Manager, p: Pdo, ghost done: set<SetKey>, ghost counted: set<(nat, nat)>, gd: (nat, nat))
      requires AllReady(m, p) && Tidy(m) && Midway(m, p, done, counted)
      requires forall k :: k in done ==> (k.group, k.decimation) != gd
      modifies this`subscriptions, this`sets, this`printed
      ensures Midway(m, p, done + SetsAt(m, gd), counted)
    {
      var todo, turned: set<SetKey> := set k | k in sets && (k.group, k.decimation) == gd, {};
      assert todo == SetsAt(m, gd) by {
        assert forall k :: k in sets <==> k in m.sets;
      }
      PlusNothing(done);
      while todo != {}
        invariant Split(SetsAt(m, gd), todo, turned)
        invariant Midway(m, p, done + turned, counted)
        decreases |todo|
      {
        var k :| k in todo;
        SplitOne(SetsAt(m, gd), todo, turned, k);
        PlusOne(done, turned, k);
        TakeTurn(m, p, done + turned, counted, k);
        todo, turned := todo - {k}, turned + {k};
      }
      SplitEnds(SetsAt(m, gd), turned);
    }

    /** One group and decimation: its sets take the PDO unless the counter is busy. */
    method StepCounter(ghost m: Manager, p: Pdo, ghost counted: set<(nat, nat)>, gd: (nat, nat))
      requires AllReady(m, p) && Tidy(m) && Midway(m, p, FiringIn(m, counted), counted)
      requires gd in m.counters && gd !in counted
      modifies this`subscriptions, this`sets, this`printed, this`counters
      ensures Midway(m, p, FiringIn(m, counted + {gd}), counted + {gd})
    {
      OneTicked(m.counters, counted, gd);
      FiringOne(m, counted, gd);
      var busy := Busy(gd);
      if !busy {
        TakeTurns(m, p, FiringIn(m, counted), counted + {gd}, gd);
      }
    }

    method StepCounters(ghost m: Manager, p: Pdo)
      requires AllReady(m, p) && Tidy(m) && Midway(m, p, {}, {})
      modifies this`subscriptions, this`sets, this`printed, this`counters
      ensures Midway(m, p, Firing(m), m.counters.Keys)
    {
      var todo, counted: set<(nat, nat)> := counters.Keys, {};
      FiringNone(m);
      while todo != {}
        invariant Split(m.counters.Keys, todo, counted)
        invariant Midway(m, p, FiringIn(m, counted), counted)
        decreases |todo|
      {
        var gd :| gd in todo;
        SplitOne(m.counters.Keys, todo, counted, gd);
        StepCounter(m, p, counted, gd);
        todo, counted := todo - {gd}, counted + {gd};
      }
      SplitEnds(m.counters.Keys, counted);
      FiringAll(m);
    }

    /** One turn of the loop over PDOs. In the quiet mode a PDO is passed over: no counter, no
        block and no trigger takes notice of it. */
    method RxPdo(ghost channels: nat, p: Pdo, quiet: bool)
      requires Inv(channels, Value()) && |p.values| == channels
      modifies this
      ensures AllReady(old(Value()), p)
      ensures Value() == if quiet then old(Value()) else Receive(old(Value()), p)
      ensures Inv(channels, Value())
    {
      ghost var m := Value();
      ReceiveKeeps(channels, m, p);
      if quiet {
        return;
      }
      SetsTidy(m);
      NobodyTaken(m, p);
      NothingPrinted(m, p);
      StepCounters(m, p);
      history := history + [p];
    }

    // ---- The other operations ----

    /** Takes a subscription out of its set, with the set and its counter if nobody is left. */
    method Remove(key: Key)
      requires key in subscriptions
      modifies this`sets, this`counters
      ensures Value() == Scheduler.Remove(old(Value()), key)
    {
      var k := SetKeyOf(key, subscriptions[key]);
      if k !in sets {
        return;
      }
      var g := sets[k].(members := sets[k].members - {key});
      sets := sets[k := g];
      if g.members != {} {
        return;
      }
      sets := sets - {k};
      assert sets == old(sets) - {k};
      if !exists l :: l in sets && l.group == k.group && l.decimation == k.decimation {
        counters := counters - {(k.group, k.decimation)};
      }
    }

    method Subscribe(ghost channels: nat, key: Key, decimation: nat, blocksize: nat, memSize: nat)
      requires Inv(channels, Value()) && key.channel < channels
      modifies this`sets, this`counters, this`subscriptions
      ensures Value() == Scheduler.Subscribe(old(Value()), key, decimation, blocksize, memSize)
      ensures Inv(channels, Value())
    {
      SubscribeKeeps(channels, Value(), key, decimation, blocksize, memSize);
      if key in subscriptions {
        Remove(key);
      }
      subscriptions := subscriptions[key := NewSubscription(decimation, blocksize, memSize)];
    }

    method Unsubscribe(ghost channels: nat, key: Key)
      requires Inv(channels, Value())
      modifies this`sets, this`counters, this`subscriptions
      ensures Value() == Scheduler.Unsubscribe(old(Value()), key)
      ensures Inv(channels, Value())
    {
      UnsubscribeKeeps(channels, Value(), key);
      if key !in subscriptions {
        return;
      }
      Remove(key);
      subscriptions := subscriptions - {key};
    }

    /** newSignal: every subscription to one of the signal's channels becomes active. */
    method NewSignal(ghost channels: nat, mine: set<nat>)
      requires Inv(channels, Value())
      modifies this`sets, this`counters
      ensures Inv(channels, Value())
      ensures forall key :: key in subscriptions ==>
                (IsActive(Value(), key) <==> IsActive(old(Value()), key) || key.channel in mine)
      ensures forall k :: k in old(sets) ==>
                k in sets && sets[k] == old(sets)[k].(members := sets[k].members)
    {
      ghost var was := Value();
      var todo := set key | key in subscriptions && key.channel in mine;
      while todo != {}
        invariant Inv(channels, Value())
        invariant forall key :: key in todo ==> key in subscriptions && key.channel in mine
        invariant forall key :: key in subscriptions ==>
                    (IsActive(Value(), key) || key in todo <==> IsActive(was, key) || key.channel in mine)
        invariant forall k :: k in was.sets ==> k in sets && sets[k] == was.sets[k].(members := sets[k].members)
        decreases |todo|
      {
        var key :| key in todo;
        ActivateOne(channels, key);
        todo := todo - {key};
      }
    }

    method ActivateOne(ghost channels: nat, key: Key)
      requires Inv(channels, Value()) && key in subscriptions
      modifies this`sets, this`counters
      ensures Value() == Activate(old(Value()), key) && Inv(channels, Value())
      ensures forall other :: other in subscriptions ==>
                (IsActive(Value(), other) <==> IsActive(old(Value()), other) || other == key)
      ensures forall k :: k in old(sets) ==> k in sets && sets[k] == old(sets)[k].(members := sets[k].members)
    {
      ActivateKeeps(channels, Value(), key);
      ActivateEffect(Value(), key);
      Join(key);
    }

    /** Puts a subscription into its set, which is made if need be. */
    method Join(key: Key)
      requires key in subscriptions
      modifies this`sets, this`counters
      ensures Value() == Activate(old(Value()), key)
    {
      var k := SetKeyOf(key, subscriptions[key]);
      if k !in sets {
        sets := sets[k := SubscriptionSet(seq(Slots(k.blocksize), _ => 0), 0, {}, [])];
      }
      sets := sets[k := sets[k].(members := sets[k].members + {key})];
      if (k.group, k.decimation) !in counters {
        counters := counters[(k.group, k.decimation) := 0];
      }
    }

    method ResetMembers(members: set<Key>)
      requires forall key :: key in members ==> key in subscriptions
      modifies this`subscriptions
      ensures subscriptions == Emptied(old(subscriptions), members)
    {
      ghost var was := subscriptions;
      var todo, done: set<Key> := members, {};
      EmptiedNone(was);
      while todo != {}
        invariant Split(members, todo, done)
        invariant subscriptions == Emptied(was, done)
        decreases |todo|
      {
        var key :| key in todo;
        SplitOne(members, todo, done, key);
        EmptiedOne(was, done, key);
        subscriptions := subscriptions[key := Reset(subscriptions[key])];
        todo, done := todo - {key}, done + {key};
      }
      SplitEnds(members, done);
    }

    ghost predicate Rewound(m: Manager, done: set<SetKey>)
      reads this
    {
      && sets == SetsRewound(m.sets, done)
      && subscriptions == Emptied(m.subscriptions, MembersOf(m.sets, done))
    }

    method RewindSet(ghost m: Manager, ghost done: set<SetKey>, k: SetKey)
      requires Rewound(m, done) && k in m.sets && k !in done && Attached(k, m.sets[k], m.subscriptions)
      modifies this`subscriptions, this`sets
      ensures Rewound(m, done + {k})
    {
      RewindOne(m.sets, done, k);
      MembersOne(m.sets, done, k);
      EmptiedTwice(m.subscriptions, MembersOf(m.sets, done), m.sets[k].members);
      sets := sets[k := sets[k].(timePtr := 0, stamps := [])];
      ResetMembers(sets[k].members);
    }

    method Sync(ghost channels: nat)
      requires Inv(channels, Value())
      modifies this`subscriptions, this`sets
      ensures Value() == Scheduler.Sync(old(Value())) && Inv(channels, Value())
    {
      ghost var m := Value();
      SyncKeeps(channels, m);
      SetsTidy(m);
      RewindSets(m);
      AllRewound(m);
    }

    method RewindSets(ghost m: Manager)
      requires sets == m.sets && subscriptions == m.subscriptions && Tidy(m)
      modifies this`subscriptions, this`sets
      ensures Rewound(m, m.sets.Keys)
    {
      var todo, done: set<SetKey> := sets.Keys, {};
      RewindNone(m.sets);
      EmptiedNone(m.subscriptions);
      assert MembersOf(m.sets, {}) == {};
      while todo != {}
        invariant Split(m.sets.Keys, todo, done)
        invariant Rewound(m, done)
        decreases |todo|
      {
        var k :| k in todo;
        SplitOne(m.sets.Keys, todo, done, k);
        RewindSet(m, done, k);
        todo, done := todo - {k}, done + {k};
      }
      SplitEnds(m.sets.Keys, done);
    }

    method Clear(ghost channels: nat)
      requires Inv(channels, Value())
      modifies this`subscriptions, this`sets, this`counters
      ensures Value() == Scheduler.Clear(old(Value())) && Inv(channels, Value())
    {
      subscriptions, sets, counters := map[], map[], map[];
    }
  }
}
