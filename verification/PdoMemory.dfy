/** Where the RT task puts its frames: a bump allocator over [txMemBegin, txMemEnd) that
    starts over at the beginning when a frame would touch the end. Sizes are those of a
    64-bit layout. */
module PdoMemory {

  const WORD: nat := 8
  /** Offset of the payload in struct Pdo, and size of the struct with its one-word payload. */
  const HEADER: nat := 72
  const PDO_SIZE: nat := 80
  /** Size of struct SignalList, a slot of the command ring. */
  const SLOT_SIZE: nat := 24

  /** ptr_align */
  function Align(p: nat): (q: nat)
    ensures p <= q < p + WORD && q % WORD == 0
    ensures p % WORD == 0 ==> q == p
  {
    (p + 7) / 8 * 8
  }

  datatype Frame = ListFrame(signals: nat) | DataFrame(bytes: nat)

  function Payload(f: Frame): nat {
    match f
    case ListFrame(n) => n * WORD
    case DataFrame(b) => b
  }

  datatype Region = Region(begin: nat, end: nat)

  datatype Block = Block(start: nat, payload: nat, lap: nat)

  function BlockEnd(b: Block): nat {
    b.start + HEADER + b.payload
  }

  predicate Disjoint(a: Block, b: Block) {
    BlockEnd(a) <= b.start || BlockEnd(b) <= a.start
  }

  /** All frames placed so far, where the next one would go, and how often the allocator has
      started over. */
  datatype Trace = Trace(txPdo: nat, lap: nat, blocks: seq<Block>)

  function StartOf(r: Region, p: nat, f: Frame): nat {
    if p + HEADER + Payload(f) >= r.end then r.begin else p
  }

  function Place(r: Region, t: Trace, f: Frame): Trace {
    var wraps := t.txPdo + HEADER + Payload(f) >= r.end;
    var b := Block(StartOf(r, t.txPdo, f), Payload(f), if wraps then t.lap + 1 else t.lap);
    Trace(Align(BlockEnd(b)), b.lap, t.blocks + [b])
  }

  function Emitted(r: Region, fs: seq<Frame>): Trace {
    if fs == [] then Trace(r.begin, 0, []) else Place(r, Emitted(r, fs[..|fs| - 1]), fs[|fs| - 1])
  }

  class TxMemory {
    const txMemBegin: nat
    const txMemEnd: nat
    var txPdo: nat
    ghost var frames: seq<Frame>

    ghost predicate Valid()
      reads this
    {
      txPdo == Emitted(Region(txMemBegin, txMemEnd), frames).txPdo
    }

    constructor (begin: nat, end: nat)
      ensures Valid() && frames == [] && txMemBegin == begin && txMemEnd == end
    {
      txMemBegin, txMemEnd, txPdo, frames := begin, end, begin, [];
    }

    /** The placement of calculateCopyList: n indices behind the header. */
    method PlaceList(n: nat) returns (start: nat)
      requires Valid()
      modifies this
      ensures Valid() && frames == old(frames) + [ListFrame(n)]
      ensures var bs := Emitted(Region(txMemBegin, txMemEnd), frames).blocks;
              |bs| > 0 && start == bs[|bs| - 1].start
    {
      if txPdo + HEADER + n * WORD >= txMemEnd {
        txPdo := txMemBegin;
      }
      start := txPdo;
      var sp := txPdo + HEADER;
      for i := 0 to n
        invariant sp == txPdo + HEADER + i * WORD
      {
        sp := sp + WORD;
      }
      txPdo := Align(sp);
      Append(ListFrame(n));
    }

    /** The placement of copyData: signalMemSize bytes behind the header. */
    method PlaceData(signalMemSize: nat) returns (start: nat)
      requires Valid()
      modifies this
      ensures Valid() && frames == old(frames) + [DataFrame(signalMemSize)]
      ensures var bs := Emitted(Region(txMemBegin, txMemEnd), frames).blocks;
              |bs| > 0 && start == bs[|bs| - 1].start
    {
      if txPdo + HEADER + signalMemSize >= txMemEnd {
        txPdo := txMemBegin;
      }
      start := txPdo;
      txPdo := Align(txPdo + HEADER + signalMemSize);
      Append(DataFrame(signalMemSize));
    }

    ghost method Append(f: Frame)
      modifies this`frames
      ensures frames == old(frames) + [f]
      ensures Emitted(Region(txMemBegin, txMemEnd), frames)
           == Place(Region(txMemBegin, txMemEnd), Emitted(Region(txMemBegin, txMemEnd), old(frames)), f)
    {
      EmittedSnoc(Region(txMemBegin, txMemEnd), frames, f);
      frames := frames + [f];
    }
  }

  // ---- How far apart frames stay ----

  /** What a frame takes of the memory. */
  function Size(f: Frame): (s: nat)
    ensures HEADER + Payload(f) <= s && s % WORD == 0
  {
    Align(HEADER + Payload(f))
  }

  /** What frames i up to k take, without what is lost at the end of the memory. */
  function Sum(fs: seq<Frame>, i: nat, k: nat): nat
    requires i <= k <= |fs|
  {
    if i == k then 0 else Sum(fs, i, k - 1) + Size(fs[k - 1])
  }

  ghost predicate Small(fs: seq<Frame>, c: nat) {
    forall i :: 0 <= i < |fs| ==> Size(fs[i]) <= c
  }

  /** What the allocator has come to since it placed frame i: on the same lap, it is where the
      frames since then end; on the next, it has lost at most c bytes at the end; and a whole lap
      is full of frames. */
  ghost predicate BlockOk(r: Region, t: Trace, fs: seq<Frame>, c: nat, n: nat, i: nat)
    requires i < n <= |fs| && |t.blocks| == n
  {
    var b, sum, length := t.blocks[i], Sum(fs, i, n), r.end - r.begin;
    && b.payload == Payload(fs[i]) && b.lap <= t.lap
    && r.begin <= b.start && BlockEnd(b) < r.end && BlockEnd(b) <= b.start + sum
    && (b.lap == t.lap ==> t.txPdo == b.start + sum)
    && (b.lap < t.lap ==> t.txPdo <= r.begin + sum)
    && (b.lap + 1 == t.lap ==> length + t.txPdo <= b.start + sum + c)
    && (b.lap + 2 <= t.lap ==> length <= sum)
  }

  ghost predicate TraceOk(r: Region, t: Trace, fs: seq<Frame>, c: nat, n: nat)
    requires n <= |fs|
  {
    && r.begin <= t.txPdo && t.txPdo % WORD == 0 && |t.blocks| == n
    && forall i :: 0 <= i < n ==> BlockOk(r, t, fs, c, n, i)
  }

  lemma AlignedStep(start: nat, payload: nat)
    requires start % WORD == 0
    ensures Align(start + HEADER + payload) == start + Align(HEADER + payload)
  {
  }

  lemma BlockKeeps(r: Region, t: Trace, fs: seq<Frame>, c: nat, n: nat, i: nat)
    requires r.begin % WORD == 0 && r.begin <= r.end && i < n < |fs| && TraceOk(r, t, fs, c, n) && Size(fs[n]) <= c
    ensures BlockOk(r, Place(r, t, fs[n]), fs, c, n + 1, i)
  {
    assert BlockOk(r, t, fs, c, n, i);
    AlignedStep(StartOf(r, t.txPdo, fs[n]), Payload(fs[n]));
  }

  lemma PlaceKeeps(r: Region, t: Trace, fs: seq<Frame>, c: nat, n: nat)
    requires r.begin % WORD == 0 && c < r.end - r.begin
    requires n < |fs| && TraceOk(r, t, fs, c, n) && Size(fs[n]) <= c
    ensures TraceOk(r, Place(r, t, fs[n]), fs, c, n + 1)
  {
    var t', now := Place(r, t, fs[n]), n + 1;
    AlignedStep(StartOf(r, t.txPdo, fs[n]), Payload(fs[n]));
    forall i | 0 <= i < now
      ensures BlockOk(r, t', fs, c, now, i)
    {
      if i < n {
        BlockKeeps(r, t, fs, c, n, i);
      } else {
        assert Sum(fs, n, n + 1) == Sum(fs, n, n) + Size(fs[n]);
      }
    }
  }

  lemma {:induction false} EmittedOk(r: Region, fs: seq<Frame>, c: nat, n: nat)
    requires r.begin % WORD == 0 && c < r.end - r.begin && n <= |fs| && Small(fs, c)
    ensures TraceOk(r, Emitted(r, fs[..n]), fs, c, n)
  {
    if n > 0 {
      EmittedOk(r, fs, c, n - 1);
      PlaceKeeps(r, Emitted(r, fs[..n - 1]), fs, c, n - 1);
      assert fs[..n][..n - 1] == fs[..n - 1];
    }
  }

  /** Later frames leave the places of earlier ones as they are. */
  lemma {:induction false} BlocksStay(r: Region, fs: seq<Frame>, n: nat)
    requires n <= |fs|
    ensures |Emitted(r, fs).blocks| == |fs| && Emitted(r, fs).blocks[..n] == Emitted(r, fs[..n]).blocks
  {
    if n == |fs| {
      assert fs[..n] == fs;
      if fs != [] {
        BlocksStay(r, fs[..n - 1], n - 1);
      }
    } else {
      BlocksStay(r, fs[..|fs| - 1], n);
      assert fs[..|fs| - 1][..n] == fs[..n];
    }
  }

  /** The frame placed next does not touch frame i, if the memory has room for all from there on
      and once more for the largest. */
  lemma NewestDisjoint(r: Region, t: Trace, fs: seq<Frame>, c: nat, i: nat, k: nat)
    requires r.begin % WORD == 0 && r.begin <= r.end && c > 0 && i < k < |fs| && TraceOk(r, t, fs, c, k)
    requires Size(fs[k]) <= c && Sum(fs, i, k + 1) + c <= r.end - r.begin
    ensures Disjoint(t.blocks[i], Place(r, t, fs[k]).blocks[k])
  {
    assert BlockOk(r, t, fs, c, k, i);
    assert Sum(fs, i, k + 1) == Sum(fs, i, k) + Size(fs[k]);
  }

  /** Frame k of a run does not touch frame i. */
  ghost predicate Intact(r: Region, fs: seq<Frame>, i: nat, k: nat)
    requires i < k < |fs|
  {
    var bs := Emitted(r, fs).blocks;
    |bs| == |fs| && Disjoint(bs[i], bs[k])
  }

  lemma StaysIntact(r: Region, fs: seq<Frame>, c: nat, i: nat, k: nat)
    requires r.begin % WORD == 0 && 0 < c < r.end - r.begin && Small(fs, c)
    requires i < k < |fs| && Sum(fs, i, k + 1) + c <= r.end - r.begin
    ensures Intact(r, fs, i, k)
  {
    EmittedOk(r, fs, c, k);
    NewestDisjoint(r, Emitted(r, fs[..k]), fs, c, i, k);
    BlockPlaced(r, fs, i, k);
  }

  /** Frame k is where it is placed behind its predecessors, and these are where they were. */
  lemma BlockPlaced(r: Region, fs: seq<Frame>, i: nat, k: nat)
    requires i < k < |fs|
    ensures var bs, t := Emitted(r, fs).blocks, Emitted(r, fs[..k]);
            && |bs| == |fs| && |t.blocks| == k
            && bs[i] == t.blocks[i] && bs[k] == Place(r, t, fs[k]).blocks[k]
  {
    BlocksStay(r, fs, k + 1);
    BlocksStay(r, fs, k);
    assert fs[..k + 1] == fs[..k] + [fs[k]];
    EmittedSnoc(r, fs[..k], fs[k]);
    var bs := Emitted(r, fs).blocks;
    assert bs[k] == bs[..k + 1][k] && bs[i] == bs[..k][i];
  }

  lemma MulMono(a: nat, b: nat, c: nat)
    requires a <= b
    ensures a * c <= b * c
  {
  }

  lemma OneLapMore(laps: nat, length: nat)
    ensures (laps + 1) * length == laps * length + length
  {
  }

  lemma Commutes(a: nat, b: nat)
    ensures a * b == b * a
  {
  }

  lemma {:induction false} SumBound(fs: seq<Frame>, c: nat, i: nat, k: nat)
    requires i <= k <= |fs| && Small(fs, c)
    ensures Sum(fs, i, k) <= (k - i) * c
  {
    if i < k {
      SumBound(fs, c, i, k - 1);
      OneLapMore(k - 1 - i, c);
    }
  }

  /** No frame takes more than c bytes, alignment included, and m such frames fit. */
  ghost predicate Sizing(r: Region, fs: seq<Frame>, c: nat, m: nat) {
    r.begin % WORD == 0 && r.begin <= r.end && m >= 2 && c > 0 && m * c <= r.end - r.begin && Small(fs, c)
  }

  /** No frame overlaps any of its m - 2 predecessors, in every run. */
  lemma FramesStayApart(r: Region, fs: seq<Frame>, c: nat, m: nat, i: nat, k: nat)
    requires Sizing(r, fs, c, m) && i < k < |fs| && k - i <= m - 2
    ensures Intact(r, fs, i, k)
  {
    MulMono(2, m, c);
    SumBound(fs, c, i, k + 1);
    OneLapMore(k + 1 - i, c);
    MulMono(k + 2 - i, m, c);
    StaysIntact(r, fs, c, i, k);
  }

  // ---- The memory that prepare lays out ----

  /** getShmemSpace, for n signals of bytes bytes in all and at least m frames. */
  function ShmemSpace(n: nat, bytes: nat, m: nat): nat {
    WORD + WORD + 2 * n * SLOT_SIZE + (PDO_SIZE + bytes) * m
  }

  /** Task::prepare on the space that prefork_init gives it. */
  function Prepare(shmem: nat, n: nat, bytes: nat, m: nat): Region {
    var signalListRp := Align(shmem);
    var signalListWp := signalListRp + WORD;
    var signalList := Align(signalListWp + WORD);
    Region(Align(signalList + 2 * n * SLOT_SIZE), shmem + Align(ShmemSpace(n, bytes, m)))
  }

  lemma MultipleOfWord(p: nat, k: nat)
    requires p % WORD == 0
    ensures (p + k * WORD) % WORD == 0
  {
  }

  /** What is left for frames: the bytes reckoned with, in whole words. */
  lemma PreparedSpace(shmem: nat, n: nat, bytes: nat, m: nat)
    requires shmem % WORD == 0
    ensures var r := Prepare(shmem, n, bytes, m);
            r.begin % WORD == 0 && r.begin <= r.end && r.end - r.begin == Align((PDO_SIZE + bytes) * m)
  {
    var ring, frames := 2 * n * SLOT_SIZE, (PDO_SIZE + bytes) * m;
    assert ring == (6 * n) * WORD;
    MultipleOfWord(shmem + 16, 6 * n);
    assert Prepare(shmem, n, bytes, m).begin == shmem + 16 + ring;
    MultipleOfWord(16, 6 * n);
    AlignBehind(16 + ring, frames);
  }

  lemma AlignBehind(p: nat, q: nat)
    requires p % WORD == 0
    ensures Align(p + q) == p + Align(q)
  {
    var k, q' := p / WORD, (q + 7) / 8;
    assert p == 8 * k;
    assert (8 * k + q + 7) / 8 == k + q';
  }

  /** What the RT task emits: lists of at most n signals and at most their bytes. */
  ghost predicate Emits(fs: seq<Frame>, n: nat, bytes: nat) {
    forall i :: 0 <= i < |fs| ==>
      match fs[i]
      case ListFrame(k) => k <= n
      case DataFrame(b) => b <= bytes
  }

  /** Containment needs only that a signal has at least one byte: every frame of every run
      passes the bounds tests with which rxPdo accepts it. */
  lemma FramesInside(shmem: nat, n: nat, bytes: nat, m: nat, fs: seq<Frame>, i: nat)
    requires shmem % WORD == 0 && m >= 10 && n <= bytes && Emits(fs, n, bytes) && i < |fs|
    ensures var r, bs := Prepare(shmem, n, bytes, m), Emitted(Prepare(shmem, n, bytes, m), fs).blocks;
            |bs| == |fs| && r.begin <= bs[i].start && BlockEnd(bs[i]) < r.end
  {
    var r := Prepare(shmem, n, bytes, m);
    PreparedSpace(shmem, n, bytes, m);
    var c := 80 + 8 * bytes;
    MulMono(10, m, PDO_SIZE + bytes);
    Commutes(PDO_SIZE + bytes, m);
    forall k | 0 <= k < |fs|
      ensures Size(fs[k]) <= c
    {
      assert Payload(fs[k]) <= 8 * bytes;
    }
    EmittedOk(r, fs, c, |fs|);
    assert fs[..|fs|] == fs;
    assert BlockOk(r, Emitted(r, fs), fs, c, |fs|, i);
  }

  /** A frame stays intact until minPdoCount - 2 more frames have been written, across all
      wraps, if the list of all signals is not longer than their data and one word. */
  lemma FramesSurvive(shmem: nat, n: nat, bytes: nat, m: nat, fs: seq<Frame>, i: nat, k: nat)
    requires shmem % WORD == 0 && m >= 10 && WORD * n <= bytes + WORD && Emits(fs, n, bytes)
    requires i < k < |fs| && k - i <= m - 2
    ensures Intact(Prepare(shmem, n, bytes, m), fs, i, k)
  {
    var r, c := Prepare(shmem, n, bytes, m), PDO_SIZE + bytes;
    PreparedSpace(shmem, n, bytes, m);
    forall l | 0 <= l < |fs|
      ensures Size(fs[l]) <= c
    {
      FrameSize(fs[l], n, bytes);
    }
    assert m * c == c * m;
    FramesStayApart(r, fs, c, m, i, k);
  }

  lemma FrameSize(f: Frame, n: nat, bytes: nat)
    requires Emits([f], n, bytes) && WORD * n <= bytes + WORD
    ensures Size(f) <= PDO_SIZE + bytes
  {
    assert [f][0] == f;
    if f.ListFrame? {
      assert (HEADER + Payload(f)) % WORD == 0;
    }
  }

  lemma EmittedSnoc(r: Region, fs: seq<Frame>, f: Frame)
    ensures Emitted(r, fs + [f]) == Place(r, Emitted(r, fs), f)
  {
    assert (fs + [f])[..|fs|] == fs;
  }
}
