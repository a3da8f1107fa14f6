/** The subscription scheduler of a session: decimation counters, blocks of samples with a
    shared time vector, and throttled event channels.

    Subscriptions are kept by channel and group; the order in which a set of subscriptions
    is walked, which the source takes from object addresses, is left open. */
module Scheduler {
  import opened Common

  type Value = seq<Byte>

  const SIZE_MAX: nat := 0xFFFF_FFFF_FFFF_FFFF

  datatype Key = Key(channel: nat, group: nat)

  datatype SetKey = SetKey(group: nat, decimation: nat, blocksize: nat)

  /** One process data object as the scheduler sees it: its time and the value of every
      channel. */
  datatype Pdo = Pdo(time: nat, values: seq<Value>)

  /** taken[i] is the number of the PDO from which data[i] was copied. */
  datatype Subscription = Subscription(
    decimation: nat,
    blocksize: nat,
    triggerStart: nat,
    trigger: nat,
    data: seq<Value>,
    nblocks: nat,
    taken: seq<nat>)

  /** stamps[i] is the number of the PDO whose time stands in time[i]. */
  datatype SubscriptionSet = SubscriptionSet(
    time: seq<nat>,
    timePtr: nat,
    members: set<Key>,
    stamps: seq<nat>)

  /** A printed data element: its time vector and the samples of each subscription. stamps
      tells which PDOs the entries of the time vector stem from. */
  datatype Tag = Tag(time: seq<nat>, elements: map<Key, seq<Value>>, stamps: seq<nat>)

  datatype Manager = Manager(
    subscriptions: map<Key, Subscription>,
    sets: map<SetKey, SubscriptionSet>,
    counters: map<(nat, nat), nat>,
    history: seq<Pdo>,
    printed: map<(SetKey, nat), Tag>)

  // ---- Subscription ----

  function Slots(blocksize: nat): nat {
    if blocksize == 0 then 1 else blocksize
  }

  function NewSubscription(decimation: nat, blocksize: nat, memSize: nat): Subscription {
    Subscription(if blocksize == 0 then 1 else decimation, blocksize, decimation, 0,
                 seq(Slots(blocksize), _ => seq(memSize, _ => 0)), 0, [])
  }

  function Countdown(trigger: nat): nat {
    if trigger == 0 then 0 else trigger - 1
  }

  /** An event channel holds back while its trigger runs and while the value stays. */
  predicate HoldsBack(s: Subscription, v: Value)
    requires |s.data| > 0
  {
    s.blocksize == 0 && (Countdown(s.trigger) != 0 || v == s.data[0])
  }

  /** newValue on the value of PDO number n. */
  function NewValue(s: Subscription, v: Value, n: nat): Subscription
    requires s.nblocks < |s.data|
  {
    if HoldsBack(s, v) then s.(trigger := Countdown(s.trigger))
    else s.(trigger := if s.blocksize == 0 then s.triggerStart else s.trigger,
            data := s.data[s.nblocks := v], nblocks := s.nblocks + 1, taken := s.taken + [n])
  }

  function Reset(s: Subscription): Subscription {
    s.(nblocks := 0, taken := [])
  }

  /** print gives an element only to a subscription whose block is full. */
  predicate PrintsElement(s: Subscription) {
    s.nblocks >= s.blocksize
  }

  // ---- DecimationCounter::busy ----

  /** The counter after a call; the caller is busy unless it is zero. Counting down from zero
      wraps around. */
  function Tick(counter: nat, start: nat): nat {
    var c := if counter == 0 then start else counter;
    if c == 0 then SIZE_MAX else c - 1
  }

  // ---- One set on one PDO ----

  function SetKeyOf(key: Key, s: Subscription): SetKey {
    SetKey(key.group, s.decimation, s.blocksize)
  }

  /** The set after the time of PDO number n has been captured. */
  function Capture(b: nat, g: SubscriptionSet, time: nat, n: nat): SubscriptionSet
    requires g.timePtr < |g.time|
  {
    if b == 0 then g.(time := g.time[g.timePtr := time])
    else g.(time := g.time[g.timePtr := time], timePtr := g.timePtr + 1, stamps := g.stamps + [n])
  }

  predicate BlockFull(b: nat, g: SubscriptionSet) {
    b != 0 && g.timePtr == b
  }

  ghost predicate Ready(b: nat, g: SubscriptionSet, subs: map<Key, Subscription>, values: seq<Value>) {
    && g.timePtr < |g.time| == Slots(b)
    && forall k :: k in g.members ==>
         k in subs && subs[k].nblocks < |subs[k].data| && k.channel < |values|
  }

  /** The members that go into the print queue. */
  ghost function Queue(b: nat, g: SubscriptionSet, subs: map<Key, Subscription>, p: Pdo): set<Key>
    requires Ready(b, g, subs, p.values)
  {
    if b == 0 then set k | k in g.members && !HoldsBack(subs[k], p.values[k.channel])
    else if g.timePtr + 1 == b then g.members else {}
  }

  ghost function SampledSet(b: nat, g: SubscriptionSet, subs: map<Key, Subscription>, p: Pdo, n: nat): SubscriptionSet
    requires Ready(b, g, subs, p.values)
  {
    var c := Capture(b, g, p.time, n);
    if Queue(b, g, subs, p) == {} then c else c.(timePtr := 0, stamps := [])
  }

  /** A member takes the value and is reset if it is printed. */
  ghost function SampledMember(b: nat, g: SubscriptionSet, subs: map<Key, Subscription>, p: Pdo, n: nat, k: Key)
    : Subscription
    requires Ready(b, g, subs, p.values) && k in g.members
  {
    var s := NewValue(subs[k], p.values[k.channel], n);
    if k in Queue(b, g, subs, p) then Reset(s) else s
  }

  /** The samples of a subscription that print writes, once it has taken the value. */
  function Samples(s: Subscription): seq<Value>
    requires s.nblocks <= |s.data|
  {
    s.data[..s.nblocks]
  }

  ghost function PrintedTag(b: nat, g: SubscriptionSet, subs: map<Key, Subscription>, p: Pdo, n: nat): Tag
    requires Ready(b, g, subs, p.values)
  {
    Tag(Capture(b, g, p.time, n).time,
        map k | k in Queue(b, g, subs, p) && PrintsElement(NewValue(subs[k], p.values[k.channel], n)) ::
          Samples(NewValue(subs[k], p.values[k.channel], n)),
        if b == 0 then [n] else Capture(b, g, p.time, n).stamps)
  }

  // ---- The manager ----

  function Remove(m: Manager, key: Key): Manager
    requires key in m.subscriptions
  {
    var k := SetKeyOf(key, m.subscriptions[key]);
    if k !in m.sets then m
    else
      var g := m.sets[k].(members := m.sets[k].members - {key});
      if g.members != {} then m.(sets := m.sets[k := g])
      else
        var left := m.sets - {k};
        if exists l :: l in left && l.group == k.group && l.decimation == k.decimation
        then m.(sets := left)
        else m.(sets := left, counters := m.counters - {(k.group, k.decimation)})
  }

  function Subscribe(m: Manager, key: Key, decimation: nat, blocksize: nat, memSize: nat): Manager {
    var m1 := if key in m.subscriptions then Remove(m, key) else m;
    m1.(subscriptions := m1.subscriptions[key := NewSubscription(decimation, blocksize, memSize)])
  }

  function Unsubscribe(m: Manager, key: Key): Manager {
    if key !in m.subscriptions then m
    else
      var m1 := Remove(m, key);
      m1.(subscriptions := m1.subscriptions - {key})
  }

  /** newSignal puts one subscription of the signal into its set, which it creates if need
      be. */
  function Activate(m: Manager, key: Key): Manager
    requires key in m.subscriptions
  {
    var k := SetKeyOf(key, m.subscriptions[key]);
    var g := if k in m.sets then m.sets[k]
             else SubscriptionSet(seq(Slots(k.blocksize), _ => 0), 0, {}, []);
    var gd := (k.group, k.decimation);
    m.(sets := m.sets[k := g.(members := g.members + {key})],
       counters := if gd in m.counters then m.counters else m.counters[gd := 0])
  }

  predicate IsActive(m: Manager, key: Key) {
    && key in m.subscriptions
    && var k := SetKeyOf(key, m.subscriptions[key]);
       k in m.sets && key in m.sets[k].members
  }

  function Sync(m: Manager): Manager {
    m.(sets := map k | k in m.sets :: m.sets[k].(timePtr := 0, stamps := []),
       subscriptions := map key | key in m.subscriptions ::
         if IsActive(m, key) then Reset(m.subscriptions[key]) else m.subscriptions[key])
  }

  function Clear(m: Manager): Manager {
    m.(subscriptions := map[], sets := map[], counters := map[])
  }

  predicate Fires(m: Manager, k: SetKey) {
    (k.group, k.decimation) in m.counters && Tick(m.counters[(k.group, k.decimation)], k.decimation) == 0
  }

  ghost predicate AllReady(m: Manager, p: Pdo) {
    forall k :: k in m.sets ==> Ready(k.blocksize, m.sets[k], m.subscriptions, p.values)
  }

  function Firing(m: Manager): (firing: set<SetKey>)
    ensures forall k :: k in firing <==> k in m.sets && Fires(m, k)
  {
    set k | k in m.sets && Fires(m, k)
  }

  /** A subscription once the sets done have taken the PDO. */
  ghost function SubscriptionTaken(m: Manager, p: Pdo, done: set<SetKey>, key: Key): Subscription
    requires AllReady(m, p) && key in m.subscriptions
  {
    var k := SetKeyOf(key, m.subscriptions[key]);
    if IsActive(m, key) && k in done
    then SampledMember(k.blocksize, m.sets[k], m.subscriptions, p, |m.history|, key)
    else m.subscriptions[key]
  }

  ghost function SubscriptionsTaken(m: Manager, p: Pdo, done: set<SetKey>): map<Key, Subscription>
    requires AllReady(m, p)
  {
    map key | key in m.subscriptions :: SubscriptionTaken(m, p, done, key)
  }

  ghost function SetsTaken(m: Manager, p: Pdo, done: set<SetKey>): map<SetKey, SubscriptionSet>
    requires AllReady(m, p)
  {
    map k | k in m.sets ::
      if k in done then SampledSet(k.blocksize, m.sets[k], m.subscriptions, p, |m.history|) else m.sets[k]
  }

  ghost function TagsTaken(m: Manager, p: Pdo, done: set<SetKey>): map<(SetKey, nat), Tag>
    requires AllReady(m, p)
  {
    map k | k in m.sets && k in done && Queue(k.blocksize, m.sets[k], m.subscriptions, p) != {} ::
      (k, |m.history|) := PrintedTag(k.blocksize, m.sets[k], m.subscriptions, p, |m.history|)
  }

  function Ticked(counters: map<(nat, nat), nat>, counted: set<(nat, nat)>): map<(nat, nat), nat> {
    map gd | gd in counters :: if gd in counted then Tick(counters[gd], gd.1) else counters[gd]
  }

  /** rxPdo on one PDO, when not quiet. */
  ghost function Receive(m: Manager, p: Pdo): Manager
    requires AllReady(m, p)
  {
    Manager(SubscriptionsTaken(m, p, Firing(m)),
            SetsTaken(m, p, Firing(m)),
            Ticked(m.counters, m.counters.Keys),
            m.history + [p],
            m.printed + TagsTaken(m, p, Firing(m)))
  }

  // ---- The invariant ----

  /** How many PDOs pass from one sample to the next. */
  function Period(decimation: nat): (d: nat)
    ensures d >= 1
  {
    if decimation == 0 then SIZE_MAX + 1 else decimation
  }

  /** Consecutive stamps are d apart. */
  ghost predicate Spaced(stamps: seq<nat>, d: nat) {
    forall i, j :: 0 <= i && j == i + 1 && j < |stamps| ==> stamps[j] == stamps[i] + d
  }

  /** Sample i of a channel was taken from the PDO that stamps[i] names. */
  ghost predicate TakenAt(stamps: seq<nat>, channel: nat, samples: seq<Value>, history: seq<Pdo>) {
    && |samples| == |stamps|
    && forall i :: 0 <= i < |samples| ==>
         && stamps[i] < |history| && channel < |history[stamps[i]].values|
         && samples[i] == history[stamps[i]].values[channel]
  }

  ghost predicate TimedAt(stamps: seq<nat>, time: seq<nat>, history: seq<Pdo>) {
    && |stamps| <= |time|
    && forall i :: 0 <= i < |stamps| ==> stamps[i] < |history| && time[i] == history[stamps[i]].time
  }

  /** A block printed on PDO n is complete; entry i of its time vector and of each of its
      subscriptions stem from the same PDO; these PDOs are one decimation period apart and
      the last of them is n. */
  ghost predicate TagOk(k: SetKey, n: nat, tag: Tag, history: seq<Pdo>) {
    && |tag.time| == |tag.stamps| == Slots(k.blocksize)
    && tag.stamps[|tag.stamps| - 1] == n
    && Spaced(tag.stamps, Period(k.decimation))
    && TimedAt(tag.stamps, tag.time, history)
    && forall key :: key in tag.elements ==> TakenAt(tag.stamps, key.channel, tag.elements[key], history)
  }

  /** Stamps are one period apart, and the counter knows how long ago the last
      one was. */
  ghost predicate StampsOk(k: SetKey, g: SubscriptionSet, counter: nat, history: seq<Pdo>) {
    && TimedAt(g.stamps, g.time, history)
    && Spaced(g.stamps, Period(k.decimation))
    && (g.stamps != [] ==>
          var since := |history| - 1 - g.stamps[|g.stamps| - 1];
          since < Period(k.decimation) && counter == if since == 0 then 0 else Period(k.decimation) - since)
  }

  /** A member has the last samples of the block so far. */
  ghost predicate MemberOk(g: SubscriptionSet, s: Subscription, channel: nat, history: seq<Pdo>) {
    && |s.data| == Slots(s.blocksize)
    && s.nblocks <= |g.stamps|
    && s.taken == g.stamps[|g.stamps| - s.nblocks..]
    && s.nblocks <= |s.data| && TakenAt(s.taken, channel, Samples(s), history)
  }

  /** The members of a set are the subscriptions that belong there. */
  ghost predicate Attached(k: SetKey, g: SubscriptionSet, subs: map<Key, Subscription>) {
    && g.members != {}
    && forall key :: key in g.members ==> key in subs && SetKeyOf(key, subs[key]) == k
  }

  ghost predicate MembersOk(g: SubscriptionSet, subs: map<Key, Subscription>, history: seq<Pdo>) {
    forall key :: key in g.members && key in subs ==> MemberOk(g, subs[key], key.channel, history)
  }

  /** The time vector has room, and the set knows which PDOs its entries stem from. */
  ghost predicate TimeOk(k: SetKey, g: SubscriptionSet, counters: map<(nat, nat), nat>, history: seq<Pdo>) {
    && |g.time| == Slots(k.blocksize)
    && g.timePtr < |g.time| && g.timePtr == |g.stamps|
    && (k.group, k.decimation) in counters
    && StampsOk(k, g, counters[(k.group, k.decimation)], history)
  }

  ghost predicate SetOk(k: SetKey, g: SubscriptionSet, m: Manager) {
    && Attached(k, g, m.subscriptions)
    && TimeOk(k, g, m.counters, m.history)
    && MembersOk(g, m.subscriptions, m.history)
  }

  ghost predicate SetsOk(m: Manager) {
    forall k :: k in m.sets ==> SetOk(k, m.sets[k], m)
  }

  ghost predicate IdleOk(s: Subscription) {
    |s.data| == Slots(s.blocksize) && s.nblocks == 0 && s.taken == []
  }

  /** Event channels look at every PDO, and hold back no longer than they should. */
  ghost predicate RateOk(s: Subscription) {
    s.blocksize == 0 ==> s.decimation == 1 && s.trigger <= s.triggerStart
  }

  ghost predicate SubscriptionsOk(channels: nat, m: Manager) {
    forall key :: key in m.subscriptions ==>
      && key.channel < channels && RateOk(m.subscriptions[key])
      && (IsActive(m, key) || IdleOk(m.subscriptions[key]))
  }

  ghost predicate CountersOk(counters: map<(nat, nat), nat>) {
    forall gd :: gd in counters ==> counters[gd] < Period(gd.1)
  }

  ghost predicate HistoryOk(channels: nat, history: seq<Pdo>) {
    forall i :: 0 <= i < |history| ==> |history[i].values| == channels
  }

  ghost predicate PrintedOk(printed: map<(SetKey, nat), Tag>, history: seq<Pdo>) {
    forall k, n :: (k, n) in printed ==> TagOk(k, n, printed[(k, n)], history)
  }

  /** channels is the number of channels of the server. */
  ghost predicate Inv(channels: nat, m: Manager) {
    && SetsOk(m)
    && SubscriptionsOk(channels, m)
    && CountersOk(m.counters)
    && HistoryOk(channels, m.history)
    && PrintedOk(m.printed, m.history)
  }
}
