/** How many signals each alignment class has, which fixes the segments that both
    processes cut their copy lists into. */
module Allotments {
  import opened Common
  import opened SignalLists

  function CountClass(cfg: Config, w: nat): nat {
    if cfg == [] then 0
    else CountClass(cfg[..|cfg| - 1], w) + if cfg[|cfg| - 1].width == w then 1 else 0
  }

  lemma {:induction false} CountIsCard(cfg: Config, w: nat)
    ensures |Members(cfg, w)| == CountClass(cfg, w)
  {
    if cfg != [] {
      var init := cfg[..|cfg| - 1];
      CountIsCard(init, w);
      if cfg[|cfg| - 1].width == w {
        assert Members(cfg, w) == Members(init, w) + {|cfg| - 1};
      } else {
        assert Members(cfg, w) == Members(init, w);
      }
    }
  }

  /** A class list fits its segment, and has a free place while a signal is missing. */
  lemma SegmentFits(cfg: Config, ls: Lists, w: nat)
    requires ValidConfig(cfg) && WellFormed(cfg, ls) && w < 4
    ensures |ls[w]| <= CountClass(cfg, w)
    ensures forall s :: 0 <= s < |cfg| && cfg[s].width == w && !Listed(cfg, ls, s) ==> |ls[w]| < CountClass(cfg, w)
  {
    assert ClassOk(cfg, w, ls[w]);
    ClassFits(cfg, w, ls[w]);
    CountIsCard(cfg, w);
  }

  // ---- Sizes under concatenation and swap-removal ----

  lemma {:induction false} TotalSizeConcat(cfg: Config, a: seq<nat>, b: seq<nat>)
    ensures TotalSize(cfg, a + b) == TotalSize(cfg, a) + TotalSize(cfg, b)
  {
    if b == [] {
      assert a + b == a;
    } else {
      assert (a + b)[..|a + b| - 1] == a + b[..|b| - 1];
      TotalSizeConcat(cfg, a, b[..|b| - 1]);
    }
  }

  lemma TotalSizeSwapRemove(cfg: Config, l: seq<nat>, p: nat)
    requires p < |l| && InRange(cfg, l)
    ensures TotalSize(cfg, l) == TotalSize(cfg, SwapRemove(l, p)) + cfg[l[p]].memSize
  {
    var n := |l| - 1;
    if p == n {
      assert SwapRemove(l, p) == l[..n];
    } else {
      assert l[..n] == l[..p] + [l[p]] + l[p + 1..n];
      assert SwapRemove(l, p) == l[..p] + [l[n]] + l[p + 1..n];
      TotalSizeConcat(cfg, l[..p] + [l[p]], l[p + 1..n]);
      TotalSizeConcat(cfg, l[..p], [l[p]]);
      TotalSizeConcat(cfg, l[..p] + [l[n]], l[p + 1..n]);
      TotalSizeConcat(cfg, l[..p], [l[n]]);
    }
  }

  lemma TotalSizeFlatten(cfg: Config, ls: Lists)
    ensures TotalSize(cfg, Flatten(ls))
         == TotalSize(cfg, ls[0]) + TotalSize(cfg, ls[1]) + TotalSize(cfg, ls[2]) + TotalSize(cfg, ls[3])
  {
    TotalSizeConcat(cfg, ls[0], ls[1]);
    TotalSizeConcat(cfg, ls[0] + ls[1], ls[2]);
    TotalSizeConcat(cfg, ls[0] + ls[1] + ls[2], ls[3]);
  }

  /** signalMemSize follows the lists: a command moves it by the size of its signal. */
  lemma CommandMovesSize(cfg: Config, ls: Lists, c: Command)
    requires ValidConfig(cfg) && Applicable(cfg, ls, c) && InRange(cfg, ls[cfg[c.signal].width])
    ensures var before, after := TotalSize(cfg, Flatten(ls)), TotalSize(cfg, Flatten(Apply(cfg, ls, c)));
            if c.Insert? then after == before + cfg[c.signal].memSize
            else before == after + cfg[c.signal].memSize && before >= cfg[c.signal].memSize
  {
    var w := cfg[c.signal].width;
    TotalSizeFlatten(cfg, ls);
    TotalSizeFlatten(cfg, Apply(cfg, ls, c));
    match c
    case Insert(s, _) =>
      TotalSizeConcat(cfg, ls[w], [s]);
      assert TotalSize(cfg, [s]) == cfg[s].memSize;
    case Remove(_, p, _) =>
      TotalSizeSwapRemove(cfg, ls[w], p);
  }

  // ---- Walking the classes in order ----

  function FlattenUpTo(ls: Lists, n: nat): seq<nat>
    requires n <= 4
  {
    if n == 0 then [] else FlattenUpTo(ls, n - 1) + ls[n - 1]
  }

  lemma FlattenUpToAll(ls: Lists)
    ensures FlattenUpTo(ls, 4) == Flatten(ls)
  {
    assert FlattenUpTo(ls, 1) == ls[0];
    assert FlattenUpTo(ls, 2) == ls[0] + ls[1];
    assert FlattenUpTo(ls, 3) == ls[0] + ls[1] + ls[2];
  }
}

/** The RT image of Task: it replays the ring on the copy list and turns the copy list into
    frames. */
module RtTasks {
  import opened Common
  import opened SignalLists
  import opened Allotments
  import opened CommandRings
  import opened Protocol

  /** src is the address of the signal, here its index; None is the end marker. */
  datatype CopyEntry = CopyEntry(signal: nat, src: Option<nat>, len: nat)

  function Entry(cfg: Config, s: nat): CopyEntry
    requires s < |cfg|
  {
    CopyEntry(s, Some(s), cfg[s].memSize)
  }

  /** The segment es holds exactly the list l, with an end marker behind it. */
  ghost predicate Holds(cfg: Config, es: seq<CopyEntry>, l: seq<nat>) {
    && |l| < |es| && InRange(cfg, l)
    && (forall i :: 0 <= i < |l| ==> es[i] == Entry(cfg, l[i]))
    && (forall i :: |l| <= i < |es| ==> es[i].src.None?)
  }

  /** Each class has a segment with its allotment of entries and one for the end marker. */
  ghost predicate Segmented(cfg: Config, cl: seq<seq<CopyEntry>>, counts: seq<nat>, ls: Lists) {
    && ValidConfig(cfg) && |cl| == |counts| == 4
    && forall w :: 0 <= w < 4 ==>
         |cl[w]| == CountClass(cfg, w) + 1 && counts[w] == |ls[w]| && Holds(cfg, cl[w], ls[w])
  }

  class RtTask {
    const cfg: Config
    var copyList: seq<seq<CopyEntry>>
    var signalTypeCount: seq<nat>
    var signalMemSize: nat
    var signalListId: nat
    var seqNo: nat

    /** The lists that the copy list holds. */
    ghost var lists: Lists

    ghost predicate Valid()
      reads this
    {
      && Segmented(cfg, copyList, signalTypeCount, lists)
      && signalMemSize == TotalSize(cfg, Flatten(lists))
    }

    /** rt_init: segments of the allotted length, every source cleared. */
    constructor (cfg: Config)
      requires ValidConfig(cfg)
      ensures Valid() && this.cfg == cfg
      ensures lists == NO_SIGNALS && signalListId == 0 && seqNo == 0
    {
      this.cfg := cfg;
      copyList := seq(4, w requires 0 <= w < 4 => seq(CountClass(cfg, w) + 1, _ => CopyEntry(0, None, 0)));
      signalTypeCount := [0, 0, 0, 0];
      signalMemSize, signalListId, seqNo := 0, 0, 0;
      lists := NO_SIGNALS;
    }

    /** Consumes the oldest command of the ring and replays it on the copy list. */
    method ProcessSignalList(ring: CommandRing, ghost c: Command)
      requires Valid() && ring.Valid() && ring.rp != ring.wp
      requires ring.Unconsumed() != [] && Means(ring.Unconsumed()[0], c)
      requires WellFormed(cfg, lists) && Applicable(cfg, lists, c)
      modifies this, ring`rp, ring`consumed
      ensures Valid() && lists == Apply(cfg, old(lists), c) && signalListId == c.id && seqNo == old(seqNo)
      ensures ring.Valid() && ring.Unconsumed() == old(ring.Unconsumed())[1..]
    {
      SegmentFits(cfg, lists, cfg[c.signal].width);
      assert c.Insert? ==> !Listed(cfg, lists, c.signal);
      ConsumeOne(ring, c);
    }

    method ConsumeOne(ring: CommandRing, ghost c: Command)
      requires Valid() && ring.Valid() && ring.rp != ring.wp
      requires ring.Unconsumed() != [] && Means(ring.Unconsumed()[0], c)
      requires Applicable(cfg, lists, c) && Fits(c)
      modifies this, ring`rp, ring`consumed
      ensures Valid() && lists == Apply(cfg, old(lists), c) && signalListId == c.id && seqNo == old(seqNo)
      ensures ring.Valid() && ring.Unconsumed() == old(ring.Unconsumed())[1..]
    {
      var slot := ring.Peek();
      Replay(slot, c);
      ring.Release();
    }

    /** An insertion finds a place besides the one for the end marker. */
    ghost predicate Fits(c: Command)
      reads this
    {
      c.Insert? ==> c.signal < |cfg| && cfg[c.signal].width < 4
                    && |lists[cfg[c.signal].width]| < CountClass(cfg, cfg[c.signal].width)
    }

    method Replay(slot: Slot, ghost c: Command)
      requires Valid() && Means(slot, c) && Applicable(cfg, lists, c) && Fits(c)
      modifies this
      ensures Valid() && lists == Apply(cfg, old(lists), c) && signalListId == c.id && seqNo == old(seqNo)
    {
      var w := cfg[slot.signal].width;
      assert Holds(cfg, copyList[w], lists[w]);
      CommandMovesSize(cfg, lists, c);
      signalListId := slot.signalListId;
      match slot.action {
        case InsertAction =>
          InsertAtEnd(w, slot.signal);
          signalMemSize := signalMemSize + cfg[slot.signal].memSize;
        case RemoveAction =>
          MoveLastTo(w, slot.signalPosition);
          signalMemSize := signalMemSize - cfg[slot.signal].memSize;
        case NoAction =>
          assert false;
      }
    }

    method InsertAtEnd(w: nat, signal: nat)
      requires Segmented(cfg, copyList, signalTypeCount, lists) && w < 4 && signal < |cfg|
      requires |lists[w]| < CountClass(cfg, w)
      modifies this`copyList, this`signalTypeCount, this`lists
      ensures Segmented(cfg, copyList, signalTypeCount, lists)
      ensures lists == old(lists)[w := old(lists)[w] + [signal]]
    {
      var cl := signalTypeCount[w];
      assert Holds(cfg, copyList[w], lists[w]);
      signalTypeCount := signalTypeCount[w := cl + 1];
      copyList := copyList[w := copyList[w][cl := CopyEntry(signal, Some(signal), cfg[signal].memSize)]];
      lists := lists[w := lists[w] + [signal]];
    }

    /** The last entry of the class takes the place of the one at position. */
    method MoveLastTo(w: nat, position: nat)
      requires Segmented(cfg, copyList, signalTypeCount, lists) && w < 4 && position < |lists[w]|
      modifies this`copyList, this`signalTypeCount, this`lists
      ensures Segmented(cfg, copyList, signalTypeCount, lists)
      ensures lists == old(lists)[w := SwapRemove(old(lists)[w], position)]
    {
      assert Holds(cfg, copyList[w], lists[w]);
      var cl := signalTypeCount[w] - 1;
      signalTypeCount := signalTypeCount[w := cl];
      var segment := copyList[w][position := copyList[w][cl]];
      segment := segment[cl := segment[cl].(src := None)];
      copyList := copyList[w := segment];
      lists := lists[w := SwapRemove(lists[w], position)];
      assert Holds(cfg, segment, lists[w]);
    }

    /** Emits the list frame; the announced count is the number of indices written. */
    method CalculateCopyList() returns (pdo: Pdo, count: nat)
      requires Valid()
      ensures pdo == SignalListPdo(signalListId, Flatten(lists))
      ensures count == |Flatten(lists)|
    {
      count := signalTypeCount[0] + signalTypeCount[1] + signalTypeCount[2] + signalTypeCount[3];
      var indices: seq<nat> := [];
      for i := 0 to 4
        invariant indices == FlattenUpTo(lists, i)
      {
        assert Holds(cfg, copyList[i], lists[i]);
        indices := WalkIndices(cfg, copyList[i], lists[i], indices);
      }
      FlattenUpToAll(lists);
      pdo := SignalListPdo(signalListId, indices);
    }

    /** Emits the data frame: the current bytes of every listed signal, in list order. */
    method CopyData(mem: seq<seq<Byte>>) returns (pdo: Pdo, count: nat)
      requires Valid() && ValidMemory(cfg, mem)
      modifies this`seqNo
      ensures Valid() && seqNo == old(seqNo) + 1
      ensures InRange(cfg, Flatten(lists))
      ensures pdo == DataPdo(signalListId, old(seqNo), Encode(mem, Flatten(lists)))
      ensures count == signalMemSize
    {
      var sent := seqNo;
      seqNo := seqNo + 1;
      var data: seq<Byte> := [];
      for i := 0 to 4
        invariant seqNo == sent + 1
        invariant InRange(cfg, FlattenUpTo(lists, i)) && data == Encode(mem, FlattenUpTo(lists, i))
      {
        assert Holds(cfg, copyList[i], lists[i]);
        data := WalkBytes(cfg, copyList[i], lists[i], mem, FlattenUpTo(lists, i), data);
      }
      FlattenUpToAll(lists);
      EncodeLength(cfg, mem, Flatten(lists));
      count := |data|;
      pdo := DataPdo(signalListId, sent, data);
    }
  }

  /** Appends the indices of one segment up to its end marker. */
  method WalkIndices(ghost cfg: Config, es: seq<CopyEntry>, ghost l: seq<nat>, before: seq<nat>)
    returns (indices: seq<nat>)
    requires Holds(cfg, es, l)
    ensures indices == before + l
  {
    var cl := 0;
    indices := before;
    while es[cl].src.Some?
      invariant cl <= |l| && indices == before + l[..cl]
      decreases |l| - cl
    {
      indices := indices + [es[cl].signal];
      cl := cl + 1;
    }
    assert l[..cl] == l;
  }

  /** Appends the current bytes of the signals of one segment up to its end marker. */
  method WalkBytes(cfg: Config, es: seq<CopyEntry>, ghost l: seq<nat>, mem: seq<seq<Byte>>, ghost done: seq<nat>,
                   before: seq<Byte>) returns (data: seq<Byte>)
    requires Holds(cfg, es, l) && ValidMemory(cfg, mem) && InRange(cfg, done) && before == Encode(mem, done)
    ensures InRange(cfg, done + l) && data == Encode(mem, done + l)
  {
    var cl := 0;
    data := before;
    assert done + l[..0] == done;
    while es[cl].src.Some?
      invariant cl <= |l| && InRange(cfg, done + l[..cl]) && data == Encode(mem, done + l[..cl])
      decreases |l| - cl
    {
      BytesOfEntry(cfg, es, l, mem, done, cl);
      data := data + mem[es[cl].src.value][..es[cl].len];
      cl := cl + 1;
    }
    assert l[..cl] == l;
  }

  lemma BytesOfEntry(cfg: Config, es: seq<CopyEntry>, l: seq<nat>, mem: seq<seq<Byte>>, done: seq<nat>, cl: nat)
    requires Holds(cfg, es, l) && ValidMemory(cfg, mem) && cl < |l| && InRange(cfg, done + l[..cl])
    ensures es[cl].src.Some? && es[cl].src.value < |mem| && es[cl].len <= |mem[es[cl].src.value]|
    ensures InRange(cfg, done + l[..cl + 1])
    ensures Encode(mem, done + l[..cl + 1]) == Encode(mem, done + l[..cl]) + mem[es[cl].src.value][..es[cl].len]
  {
    var more := done + l[..cl + 1];
    assert more == done + l[..cl] + [l[cl]];
    assert more[..|more| - 1] == done + l[..cl];
    assert mem[l[cl]][..es[cl].len] == mem[l[cl]];
  }
}
