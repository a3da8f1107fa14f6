/** How long frames survive in the runs of the real-time task, which puts data behind every list,
    starts with a data frame for no signals and lays its frames out by the signals that are
    subscribed. */
module FrameSurvival {
  import opened PdoMemory

  /** One frame: a list or data, and which signals are subscribed. */
  datatype Emission = Emission(list: bool, on: seq<bool>)

  function Count(on: seq<bool>): (n: nat)
    ensures n <= |on|
  {
    if on == [] then 0 else Count(on[..|on| - 1]) + if on[|on| - 1] then 1 else 0
  }

  function Bytes(sizes: seq<nat>, on: seq<bool>): nat {
    if on == [] || |sizes| < |on| then 0
    else Bytes(sizes, on[..|on| - 1]) + if on[|on| - 1] then sizes[|on| - 1] else 0
  }

  function FrameOf(sizes: seq<nat>, e: Emission): Frame {
    if e.list then ListFrame(Count(e.on)) else DataFrame(Bytes(sizes, e.on))
  }

  /** Data follows a list, and a list precedes data for other signals than before. */
  predicate Follows(e: Emission, e': Emission) {
    (e.list ==> !e'.list) && (e'.on != e.on ==> e'.list)
  }

  function NoneOn(n: nat): seq<bool> {
    seq(n, _ => false)
  }

  function AllOn(n: nat): seq<bool> {
    seq(n, _ => true)
  }

  function OneOn(n: nat, j: nat): seq<bool> {
    seq(n, i => i == j)
  }

  /** What rt_update may emit: nothing is subscribed before the first frame. */
  predicate Emittable(sizes: seq<nat>, es: seq<Emission>) {
    if es == [] then true
    else
      var n := |es| - 1;
      && Emittable(sizes, es[..n]) && |es[n].on| == |sizes|
      && if n == 0 then es[0] == Emission(false, NoneOn(|sizes|)) else Follows(es[n - 1], es[n])
  }

  function Frames(sizes: seq<nat>, es: seq<Emission>): (fs: seq<Frame>)
    ensures |fs| == |es|
  {
    seq(|es|, i requires 0 <= i < |es| => FrameOf(sizes, es[i]))
  }

  ghost predicate Positive(sizes: seq<nat>) {
    forall i :: 0 <= i < |sizes| ==> sizes[i] >= 1
  }

  lemma {:induction false} EmittableAt(sizes: seq<nat>, es: seq<Emission>, i: nat)
    requires Emittable(sizes, es) && i < |es|
    ensures |es[i].on| == |sizes| && (i > 0 ==> Follows(es[i - 1], es[i]))
  {
    if i < |es| - 1 {
      EmittableAt(sizes, es[..|es| - 1], i);
    }
  }

  lemma EmittableParts(sizes: seq<nat>, es: seq<Emission>)
    requires Emittable(sizes, es) && es != []
    ensures var n := |es| - 1;
            && es == es[..n] + [es[n]] && Emittable(sizes, es[..n]) && |es[n].on| == |sizes|
            && if n == 0 then es == [Emission(false, NoneOn(|sizes|))] else Follows(Last(es[..n]), es[n])
  {
    var n := |es| - 1;
    assert es == es[..n] + [es[n]];
    if n == 0 {
      assert es == [es[0]];
    } else {
      assert Last(es[..n]) == es[n - 1];
    }
  }

  lemma EmittableSnoc(sizes: seq<nat>, es: seq<Emission>, e: Emission)
    requires Emittable(sizes, es) && es != [] && |e.on| == |sizes| && Follows(Last(es), e)
    ensures Emittable(sizes, es + [e])
  {
    assert (es + [e])[..|es|] == es;
  }

  function Last(es: seq<Emission>): Emission
    requires es != []
  {
    es[|es| - 1]
  }

  // ---- Sizes ----

  lemma {:induction false} BytesBound(sizes: seq<nat>, on: seq<bool>)
    requires |on| <= |sizes|
    ensures Bytes(sizes, on) <= Bytes(sizes, AllOn(|on|))
  {
    var n := |on|;
    if n > 0 {
      BytesBound(sizes, on[..n - 1]);
      assert AllOn(n)[..n - 1] == AllOn(n - 1);
    }
  }

  /** What all signals take. */
  function Total(sizes: seq<nat>): nat {
    Bytes(sizes, AllOn(|sizes|))
  }

  lemma {:induction false} AllCount(n: nat)
    ensures Count(AllOn(n)) == n
  {
    if n > 0 {
      AllCount(n - 1);
      assert AllOn(n)[..n - 1] == AllOn(n - 1);
    }
  }

  lemma {:induction false} NoBytes(sizes: seq<nat>, n: nat)
    requires n <= |sizes|
    ensures Count(NoneOn(n)) == 0 && Bytes(sizes, NoneOn(n)) == 0
  {
    if n > 0 {
      NoBytes(sizes, n - 1);
      assert NoneOn(n)[..n - 1] == NoneOn(n - 1);
    }
  }

  lemma {:induction false} OneBytes(sizes: seq<nat>, n: nat, j: nat)
    requires j < n <= |sizes|
    ensures Count(OneOn(n, j)) == 1 && Bytes(sizes, OneOn(n, j)) == sizes[j]
  {
    if j == n - 1 {
      NoBytes(sizes, n - 1);
      assert OneOn(n, j)[..n - 1] == NoneOn(n - 1);
    } else {
      OneBytes(sizes, n - 1, j);
      assert OneOn(n, j)[..n - 1] == OneOn(n - 1, j);
    }
  }

  lemma {:induction false} BytesAtLeast(sizes: seq<nat>, least: nat, n: nat)
    requires n <= |sizes| && forall i :: 0 <= i < |sizes| ==> sizes[i] >= least
    ensures Bytes(sizes, AllOn(n)) >= n * least
  {
    if n > 0 {
      BytesAtLeast(sizes, least, n - 1);
      OneLapMore(n - 1, least);
      assert AllOn(n)[..n - 1] == AllOn(n - 1);
    }
  }

  // ---- Alternating frames ----

  function Multiple(q: nat, size: nat): nat {
    if q == 0 then 0 else Multiple(q - 1, size) + size
  }

  lemma {:induction false} MultipleIs(q: nat, size: nat)
    ensures Multiple(q, size) == q * size
  {
    if q > 0 {
      MultipleIs(q - 1, size);
      OneLapMore(q - 1, size);
    }
  }

  lemma {:induction false} MultipleAdd(a: nat, b: nat, u: nat)
    ensures Multiple(a + b, u) == Multiple(a, u) + Multiple(b, u)
    decreases b
  {
    if b > 0 {
      MultipleAdd(a, b - 1, u);
    }
  }

  lemma {:induction false} MultipleOfWords(h: nat, u: nat)
    requires u % WORD == 0
    ensures Multiple(h, u) % WORD == 0
  {
    if h > 0 {
      MultipleOfWords(h - 1, u);
    }
  }

  /** q frames in turn, of which the first takes l bytes and the second d. */
  function Alt(q: nat, l: nat, d: nat): nat {
    if q == 0 then 0 else if q == 1 then l else Alt(q - 2, l, d) + l + d
  }

  lemma {:induction false} AltNext(q: nat, l: nat, d: nat)
    ensures Alt(q + 1, l, d) == Alt(q, l, d) + if q % 2 == 0 then l else d
  {
    if q >= 2 {
      AltNext(q - 2, l, d);
    }
  }

  lemma {:induction false} AltGrows(p: nat, q: nat, l: nat, d: nat)
    requires p <= q
    ensures Alt(p, l, d) <= Alt(q, l, d)
    decreases q
  {
    if p < q {
      AltNext(q - 1, l, d);
      AltGrows(p, q - 1, l, d);
    }
  }

  lemma {:induction false} AltPairs(q: nat, h: nat, l: nat, d: nat)
    ensures Alt(q + 2 * h, l, d) == Alt(q, l, d) + Multiple(h, l + d)
    decreases h
  {
    if h > 0 {
      AltPairs(q, h - 1, l, d);
    }
  }

  // ---- Survival ----

  function ListSize(n: nat): nat {
    HEADER + WORD * n
  }

  function DataSize(bytes: nat): nat {
    Align(HEADER + bytes)
  }

  /** There is room for as many frames as can be between a frame and the last that must not touch
      it, lists and data in turn, and once more for a list. */
  predicate RoomInTurn(n: nat, bytes: nat, m: nat, length: nat)
    requires m >= 1
  {
    Alt(m - 1, ListSize(n), DataSize(bytes)) + ListSize(n) <= length
  }

  lemma FrameSizes(sizes: seq<nat>, e: Emission)
    requires |e.on| == |sizes|
    ensures Size(FrameOf(sizes, e)) <= if e.list then ListSize(|sizes|) else DataSize(Total(sizes))
  {
    BytesBound(sizes, e.on);
    if !e.list {
      AlignGrows(HEADER + Bytes(sizes, e.on), HEADER + Total(sizes));
    }
  }

  lemma AlignGrows(p: nat, q: nat)
    requires p <= q
    ensures Align(p) <= Align(q)
  {
  }

  /** No two lists in a row. */
  ghost predicate InTurn(fs: seq<Frame>, l: nat, d: nat) {
    && (forall i :: 0 <= i < |fs| ==> Size(fs[i]) <= if fs[i].ListFrame? then l else d)
    && forall i, j :: 0 <= i && j == i + 1 && j < |fs| && fs[i].ListFrame? ==> fs[j].DataFrame?
  }

  lemma {:induction false} SumInTurn(fs: seq<Frame>, i: nat, k: nat, l: nat, d: nat)
    requires InTurn(fs, l, d) && i <= k <= |fs| && d <= l
    ensures Sum(fs, i, k) <= Alt(k - i, l, d)
    decreases k
  {
    if i < k - 1 && fs[k - 1].ListFrame? {
      assert fs[k - 2].DataFrame?;
      SumInTurn(fs, i, k - 2, l, d);
      assert Alt(k - i, l, d) == Alt(k - 2 - i, l, d) + l + d;
    } else if i < k {
      SumInTurn(fs, i, k - 1, l, d);
      AltNext(k - 1 - i, l, d);
    }
  }

  lemma FramesInTurn(sizes: seq<nat>, es: seq<Emission>)
    requires Emittable(sizes, es)
    ensures InTurn(Frames(sizes, es), ListSize(|sizes|), DataSize(Total(sizes)))
  {
    var fs := Frames(sizes, es);
    forall i | 0 <= i < |fs|
      ensures Size(fs[i]) <= if fs[i].ListFrame? then ListSize(|sizes|) else DataSize(Total(sizes))
    {
      EmittableAt(sizes, es, i);
      FrameSizes(sizes, es[i]);
    }
    forall i, j | 0 <= i && j == i + 1 && j < |fs| && fs[i].ListFrame?
      ensures fs[j].DataFrame?
    {
      EmittableAt(sizes, es, j);
    }
  }

  lemma FramesBounded(sizes: seq<nat>, es: seq<Emission>)
    requires Emittable(sizes, es)
    ensures Emits(Frames(sizes, es), |sizes|, Total(sizes))
  {
    forall i | 0 <= i < |es|
      ensures match Frames(sizes, es)[i]
              case ListFrame(k) => k <= |sizes|
              case DataFrame(b) => b <= Total(sizes)
    {
      EmittableAt(sizes, es, i);
      BytesBound(sizes, es[i].on);
    }
  }

  /** In a memory with room for m - 1 frames in turn and another list, a frame stays intact until
      m - 2 more have been written. */
  lemma IntactInTurn(r: Region, fs: seq<Frame>, l: nat, d: nat, m: nat, i: nat, k: nat)
    requires r.begin % WORD == 0 && InTurn(fs, l, d) && d <= l && l > 0 && m >= 2
    requires r.begin <= r.end && Alt(m - 1, l, d) + l <= r.end - r.begin
    requires i < k < |fs| && k - i <= m - 2
    ensures Intact(r, fs, i, k)
  {
    SumInTurn(fs, i, k + 1, l, d);
    AltGrows(k + 1 - i, m - 1, l, d);
    AltGrows(1, m - 1, l, d);
    StaysIntact(r, fs, l, i, k);
  }

  // ---- Emitting one frame after another ----

  /** Where the next frame would go. */
  function Top(r: Region, sizes: seq<nat>, es: seq<Emission>): nat {
    if es == [] then r.begin
    else
      var f := FrameOf(sizes, es[|es| - 1]);
      StartOf(r, Top(r, sizes, es[..|es| - 1]), f) + Size(f)
  }

  lemma {:induction false} TopIs(r: Region, sizes: seq<nat>, es: seq<Emission>)
    requires r.begin % WORD == 0
    ensures Top(r, sizes, es) % WORD == 0 && Emitted(r, Frames(sizes, es)).txPdo == Top(r, sizes, es)
  {
    if es != [] {
      var before, f := es[..|es| - 1], FrameOf(sizes, es[|es| - 1]);
      TopIs(r, sizes, before);
      assert Frames(sizes, es) == Frames(sizes, before) + [f];
      EmittedSnoc(r, Frames(sizes, before), f);
      PlaceTop(r, Emitted(r, Frames(sizes, before)), f);
    }
  }

  lemma PlaceTop(r: Region, t: Trace, f: Frame)
    requires r.begin % WORD == 0 && t.txPdo % WORD == 0
    ensures Place(r, t, f).txPdo == StartOf(r, t.txPdo, f) + Size(f)
    ensures Place(r, t, f).txPdo % WORD == 0
  {
    AlignedStep(StartOf(r, t.txPdo, f), Payload(f));
  }

  /** The frames es may have been emitted, and the next would go to top. */
  ghost predicate At(r: Region, sizes: seq<nat>, es: seq<Emission>, top: nat) {
    es != [] && Emittable(sizes, es) && Top(r, sizes, es) == top
  }

  /** One more frame. */
  lemma Push(r: Region, sizes: seq<nat>, es: seq<Emission>, top: nat, e: Emission)
    requires At(r, sizes, es, top) && |e.on| == |sizes| && Follows(Last(es), e)
    ensures At(r, sizes, es + [e], StartOf(r, top, FrameOf(sizes, e)) + Size(FrameOf(sizes, e)))
  {
    EmittableSnoc(sizes, es, e);
    assert (es + [e])[..|es|] == es;
  }

  lemma PushFits(r: Region, sizes: seq<nat>, es: seq<Emission>, top: nat, e: Emission, size: nat)
    requires At(r, sizes, es, top) && |e.on| == |sizes| && Follows(Last(es), e)
    requires size == Size(FrameOf(sizes, e)) && top + HEADER + Payload(FrameOf(sizes, e)) < r.end
    ensures At(r, sizes, es + [e], top + size)
  {
    Push(r, sizes, es, top, e);
  }

  function Times(e: Emission, q: nat): (es: seq<Emission>)
    ensures |es| == q
  {
    seq(q, _ => e)
  }

  /** q data frames for the same signals. */
  lemma {:induction false} PushTimes(r: Region, sizes: seq<nat>, es: seq<Emission>, top: nat, e: Emission, size: nat,
                                     q: nat)
    requires At(r, sizes, es, top) && |e.on| == |sizes| && Follows(Last(es), e) && !e.list
    requires size == Size(FrameOf(sizes, e)) && top + Multiple(q, size) < r.end
    ensures At(r, sizes, es + Times(e, q), top + Multiple(q, size))
    decreases q
  {
    var before := es + if q == 0 then [] else Times(e, q - 1);
    if q == 0 {
      assert es + Times(e, 0) == es;
    } else {
      PushTimes(r, sizes, es, top, e, size, q - 1);
      assert Last(before) == if q == 1 then Last(es) else e;
      PushFits(r, sizes, before, top + Multiple(q - 1, size), e, size);
      assert before + [e] == es + Times(e, q);
    }
  }

  /** Data frames for the same signals until one is written at the beginning. */
  lemma {:induction false} PushRound(r: Region, sizes: seq<nat>, es: seq<Emission>, top: nat, e: Emission, size: nat)
    returns (es': seq<Emission>)
    requires At(r, sizes, es, top) && |e.on| == |sizes| && Follows(Last(es), e) && !e.list
    requires size == Size(FrameOf(sizes, e)) && r.begin + size < r.end
    ensures At(r, sizes, es', r.begin + size) && Last(es') == e
    decreases r.end + size - top
  {
    Push(r, sizes, es, top, e);
    es' := es + [e];
    if top + HEADER + Payload(FrameOf(sizes, e)) < r.end {
      es' := PushRound(r, sizes, es', top + size, e, size);
    }
  }

  // ---- Frames that touch ----

  /** Two frames with places that overlap are not intact. */
  lemma Clash(r: Region, sizes: seq<nat>, es: seq<Emission>, i: nat, k: nat, p: nat, q: nat)
    requires r.begin % WORD == 0 && 0 < i < k < |es|
    requires At(r, sizes, es[..i], p) && At(r, sizes, es[..k], q)
    requires var start := StartOf(r, q, FrameOf(sizes, es[k]));
             && p + HEADER + Payload(FrameOf(sizes, es[i])) < r.end
             && start < p + HEADER + Payload(FrameOf(sizes, es[i]))
             && p < start + HEADER + Payload(FrameOf(sizes, es[k]))
    ensures !Intact(r, Frames(sizes, es), i, k)
  {
    var fs := Frames(sizes, es);
    TopIs(r, sizes, es[..i]);
    TopIs(r, sizes, es[..k]);
    BlockPlaced(r, fs, i, k);
    assert fs[..k] == Frames(sizes, es[..k]) && fs[..i] == Frames(sizes, es[..i]);
    BlockPlaced(r, fs[..k + 1], i, k);
    PlacedAt(r, fs, i);
  }

  lemma PlacedAt(r: Region, fs: seq<Frame>, i: nat)
    requires i < |fs|
    ensures |Emitted(r, fs).blocks| == |fs|
    ensures Emitted(r, fs).blocks[i] == Place(r, Emitted(r, fs[..i]), fs[i]).blocks[|Emitted(r, fs[..i]).blocks|]
  {
    BlocksStay(r, fs, i + 1);
    BlocksStay(r, fs[..i], i);
    assert fs[..i + 1] == fs[..i] + [fs[i]];
    EmittedSnoc(r, fs[..i], fs[i]);
    assert Emitted(r, fs).blocks[i] == Emitted(r, fs).blocks[..i + 1][i];
  }

  // ---- Filling the memory up to a given place ----

  lemma KindSizes(sizes: seq<nat>, j: nat)
    requires j < |sizes| && 1 <= sizes[j] <= 8
    ensures var n := |sizes|;
            && Size(FrameOf(sizes, Emission(false, NoneOn(n)))) == 72
            && Size(FrameOf(sizes, Emission(true, NoneOn(n)))) == 72
            && Size(FrameOf(sizes, Emission(true, OneOn(n, j)))) == 80
            && Size(FrameOf(sizes, Emission(false, OneOn(n, j)))) == 80
  {
    NoBytes(sizes, |sizes|);
    OneBytes(sizes, |sizes|, j);
  }

  lemma First(r: Region, sizes: seq<nat>)
    requires r.begin % WORD == 0 && r.begin + 72 < r.end
    ensures At(r, sizes, [Emission(false, NoneOn(|sizes|))], r.begin + 72)
  {
    var e := Emission(false, NoneOn(|sizes|));
    NoBytes(sizes, |sizes|);
    assert [e][..0] == [];
  }

  /** Frames of 72 bytes while nothing is subscribed, then frames of 80 bytes. */
  lemma EmptyFirst(r: Region, sizes: seq<nat>, j: nat, a: nat, b: nat) returns (es: seq<Emission>)
    requires r.begin % WORD == 0 && j < |sizes| && 1 <= sizes[j] <= 8
    requires a >= 1 && b != 1 && r.begin + Multiple(a, 72) + Multiple(b, 80) < r.end
    ensures At(r, sizes, es, r.begin + Multiple(a, 72) + Multiple(b, 80)) && !Last(es).list
  {
    var n := |sizes|;
    var none, one := Emission(false, NoneOn(n)), Emission(false, OneOn(n, j));
    KindSizes(sizes, j);
    First(r, sizes);
    PushTimes(r, sizes, [none], r.begin + 72, none, 72, a - 1);
    es := [none] + Times(none, a - 1);
    assert Last(es) == none;
    if b > 0 {
      es := OneMore(r, sizes, es, r.begin + Multiple(a, 72), Emission(true, OneOn(n, j)), 80, b);
    }
  }

  /** A list, and b - 1 data frames of the same size. */
  lemma OneMore(r: Region, sizes: seq<nat>, es: seq<Emission>, top: nat, e: Emission, size: nat, b: nat)
    returns (es': seq<Emission>)
    requires At(r, sizes, es, top) && |e.on| == |sizes| && !Last(es).list && e.list && b >= 2
    requires size == Size(FrameOf(sizes, e)) == Size(FrameOf(sizes, e.(list := false)))
    requires top + Multiple(b, size) < r.end
    ensures At(r, sizes, es', top + Multiple(b, size)) && !Last(es').list
  {
    var data := e.(list := false);
    assert Multiple(b, size) == Multiple(b - 1, size) + size;
    PushFits(r, sizes, es, top, e, size);
    PushTimes(r, sizes, es + [e], top + size, data, size, b - 1);
    es' := es + [e] + Times(data, b - 1);
    assert Last(es') == data;
  }

  /** The other way round, on the second lap. */
  lemma OneFirst(r: Region, sizes: seq<nat>, j: nat, a: nat, b: nat) returns (es: seq<Emission>)
    requires r.begin % WORD == 0 && j < |sizes| && 1 <= sizes[j] <= 8 && r.begin + 160 < r.end
    requires a != 1 && b >= 1 && r.begin + Multiple(a, 72) + Multiple(b, 80) < r.end
    ensures At(r, sizes, es, r.begin + Multiple(a, 72) + Multiple(b, 80)) && !Last(es).list
  {
    var n := |sizes|;
    var none, one := Emission(false, NoneOn(n)), Emission(false, OneOn(n, j));
    KindSizes(sizes, j);
    First(r, sizes);
    PushFits(r, sizes, [none], r.begin + 72, one.(list := true), 80);
    es := PushRound(r, sizes, [none] + [one.(list := true)], r.begin + 152, one, 80);
    PushTimes(r, sizes, es, r.begin + 80, one, 80, b - 1);
    es := es + Times(one, b - 1);
    assert Last(es) == one;
    if a > 0 {
      es := OneMore(r, sizes, es, r.begin + Multiple(b, 80), none.(list := true), 72, a);
    }
  }

  /** Every place in the memory from the 72nd word on can be the next. */
  lemma FillUp(r: Region, sizes: seq<nat>, j: nat, p: nat) returns (es: seq<Emission>)
    requires r.begin % WORD == 0 && j < |sizes| && 1 <= sizes[j] <= 8
    requires p % WORD == 0 && p >= 72 * WORD && r.begin + p < r.end
    ensures At(r, sizes, es, r.begin + p) && !Last(es).list
  {
    var w := p / WORD;
    var b := w % 9;
    var a := (w - 10 * b) / 9;
    assert w == 9 * a + 10 * b && a >= 0;
    MultipleIs(a, 72);
    MultipleIs(b, 80);
    if a >= 1 && b != 1 {
      es := EmptyFirst(r, sizes, j, a, b);
    } else {
      es := OneFirst(r, sizes, j, a, b);
    }
  }

  // ---- Lists of all signals, with their data ----

  function ListOfAll(n: nat): Emission {
    Emission(true, AllOn(n))
  }

  function DataOfAll(n: nat): Emission {
    Emission(false, AllOn(n))
  }

  lemma SizesOfAll(sizes: seq<nat>)
    ensures FrameOf(sizes, ListOfAll(|sizes|)) == ListFrame(|sizes|)
    ensures FrameOf(sizes, DataOfAll(|sizes|)) == DataFrame(Total(sizes))
    ensures Size(FrameOf(sizes, ListOfAll(|sizes|))) == ListSize(|sizes|)
    ensures Size(FrameOf(sizes, DataOfAll(|sizes|))) == DataSize(Total(sizes))
  {
    AllCount(|sizes|);
    assert FrameOf(sizes, ListOfAll(|sizes|)) == ListFrame(|sizes|);
  }

  function Pairs(n: nat, h: nat): (es: seq<Emission>)
    ensures |es| == 2 * h
  {
    if h == 0 then [] else Pairs(n, h - 1) + [ListOfAll(n), DataOfAll(n)]
  }

  lemma {:induction false} PairsAdd(n: nat, h: nat, s: nat)
    ensures Pairs(n, h) + Pairs(n, s) == Pairs(n, h + s)
    decreases s
  {
    if s > 0 {
      PairsAdd(n, h, s - 1);
      assert Pairs(n, h) + Pairs(n, s) == Pairs(n, h) + Pairs(n, s - 1) + [ListOfAll(n), DataOfAll(n)];
    } else {
      assert Pairs(n, h) + [] == Pairs(n, h);
    }
  }

  /** A list wherever it finds its place, with the data behind it. */
  lemma PushPair(r: Region, sizes: seq<nat>, es: seq<Emission>, top: nat, start: nat, l: nat, d: nat)
    requires At(r, sizes, es, top) && !Last(es).list && l == ListSize(|sizes|) && d == DataSize(Total(sizes))
    requires start == StartOf(r, top, ListFrame(|sizes|)) && start + l + d < r.end
    ensures At(r, sizes, es + [ListOfAll(|sizes|), DataOfAll(|sizes|)], start + l + d)
  {
    var n := |sizes|;
    SizesOfAll(sizes);
    Push(r, sizes, es, top, ListOfAll(n));
    PushFits(r, sizes, es + [ListOfAll(n)], start + l, DataOfAll(n), d);
    assert es + [ListOfAll(n)] + [DataOfAll(n)] == es + [ListOfAll(n), DataOfAll(n)];
  }

  lemma {:induction false} PushPairs(r: Region, sizes: seq<nat>, es: seq<Emission>, top: nat, h: nat, l: nat, d: nat)
    requires At(r, sizes, es, top) && !Last(es).list && l == ListSize(|sizes|) && d == DataSize(Total(sizes))
    requires top + Multiple(h, l + d) < r.end
    ensures At(r, sizes, es + Pairs(|sizes|, h), top + Multiple(h, l + d)) && !Last(es + Pairs(|sizes|, h)).list
    decreases h
  {
    var n := |sizes|;
    if h == 0 {
      assert es + Pairs(n, 0) == es;
    } else {
      var before, at := es + Pairs(n, h - 1), top + Multiple(h - 1, l + d);
      PushPairs(r, sizes, es, top, h - 1, l, d);
      PushPair(r, sizes, before, at, at, l, d);
      assert before + [ListOfAll(n), DataOfAll(n)] == es + Pairs(n, h);
    }
  }

  /** h pairs up to where a list just does not fit, and s more from the beginning on. */
  lemma PairsAround(r: Region, sizes: seq<nat>, es: seq<Emission>, top: nat, h: nat, s: nat, l: nat, d: nat)
    requires At(r, sizes, es, top) && !Last(es).list && l == ListSize(|sizes|) && d == DataSize(Total(sizes))
    requires top + Multiple(h, l + d) + l == r.end && s >= 1 && r.begin + Multiple(s, l + d) < r.end
    ensures At(r, sizes, es + Pairs(|sizes|, h + s), r.begin + Multiple(s, l + d))
  {
    var n := |sizes|;
    var first := es + Pairs(n, h);
    PushPairs(r, sizes, es, top, h, l, d);
    PushPair(r, sizes, first, top + Multiple(h, l + d), r.begin, l, d);
    PushPairs(r, sizes, first + [ListOfAll(n), DataOfAll(n)], r.begin + l + d, s - 1, l, d);
    assert Multiple(s, l + d) == Multiple(s - 1, l + d) + (l + d);
    PairsBehind(es, n, h, s);
  }

  lemma PairsBehind(es: seq<Emission>, n: nat, h: nat, s: nat)
    requires s >= 1
    ensures es + Pairs(n, h) + [ListOfAll(n), DataOfAll(n)] + Pairs(n, s - 1) == es + Pairs(n, h + s)
  {
    var first, pair, rest := Pairs(n, h), [ListOfAll(n), DataOfAll(n)], Pairs(n, s - 1);
    PairsAdd(n, h + 1, s - 1);
    assert first + pair + rest == Pairs(n, h + s);
    assert es + first + pair + rest == es + (first + pair + rest);
  }

  // ---- Without the room, a frame is written over too early ----

  /** The memory and what a list of all signals and their data take of it. */
  ghost predicate Sizes(r: Region, sizes: seq<nat>, l: nat, d: nat) {
    && r.begin % WORD == 0 && r.begin <= r.end && r.end % WORD == 0 && (r.end - r.begin) % WORD == 0
    && l == ListSize(|sizes|) && d == DataSize(Total(sizes)) && d <= l && |sizes| >= 2 && Total(sizes) >= 1
  }

  /** Frame k of the run lies over frame i. */
  ghost predicate Lost(r: Region, sizes: seq<nat>, m: nat, es: seq<Emission>, i: nat, k: nat) {
    Emittable(sizes, es) && i < k < |es| && k - i <= m - 2 && !Intact(r, Frames(sizes, es), i, k)
  }

  /** How many pairs come before and behind the end of the memory, and where the first starts. */
  ghost predicate LateAt(length: nat, l: nat, u: nat, h: nat, s: nat, f: nat, offset: nat) {
    && h >= 1 && s >= 1 && f % WORD == 0 && f >= 72 * WORD
    && f + Multiple(h, u) + l == length && u <= Multiple(h, u) && Multiple(s, u) + l < length
    && Multiple(s, u) <= f + offset < Multiple(s, u) + l
  }

  lemma LateRoom(m: nat, l: nat, d: nat, h: nat, s: nat)
    requires m >= 10 && s == 3 + m % 2 && 2 * (h + s) == m - 2 + m % 2
    ensures Alt(m - 1, l, d) == (if m % 2 == 0 then l else 0) + Multiple(h, l + d) + Multiple(s, l + d)
    ensures Multiple(s, l + d) == if m % 2 == 0 then 3 * (l + d) else 4 * (l + d)
  {
    AltPairs(1 - m % 2, h + s, l, d);
    MultipleAdd(h, s, l + d);
    MultipleIs(s, l + d);
  }

  lemma WordsLeft(length: nat, l: nat, x: nat, f: nat)
    requires length % WORD == 0 && l % WORD == 0 && x % WORD == 0 && f + l + x == length
    ensures f % WORD == 0
  {
  }

  lemma LateNumbers(length: nat, m: nat, l: nat, d: nat, h: nat, s: nat, f: nat)
    requires m >= 10 && l >= 88 && d >= 80 && l % WORD == 0 && d % WORD == 0 && length % WORD == 0
    requires Alt(m - 1, l, d) + 72 <= length < Alt(m - 1, l, d) + l
    requires s == 3 + m % 2 && 2 * (h + s) == m - 2 + m % 2 && f + l + Multiple(h, l + d) == length
    ensures LateAt(length, l, l + d, h, s, f, if m % 2 == 0 then 0 else l)
  {
    var u := l + d;
    LateRoom(m, l, d, h, s);
    MultipleAdd(1, h - 1, u);
    MultipleIs(1, u);
    MultipleOfWords(h, u);
    WordsLeft(length, l, Multiple(h, u), f);
  }

  lemma LateChoice(length: nat, m: nat, l: nat, d: nat) returns (h: nat, s: nat, f: nat)
    requires m >= 10 && l >= 88 && d >= 80 && l % WORD == 0 && d % WORD == 0 && length % WORD == 0
    requires Alt(m - 1, l, d) + 72 <= length < Alt(m - 1, l, d) + l
    ensures LateAt(length, l, l + d, h, s, f, if m % 2 == 0 then 0 else l) && 2 * (h + s) == m - 2 + m % 2
  {
    s := 3 + m % 2;
    h := (m - 2 + m % 2) / 2 - s;
    LateRoom(m, l, d, h, s);
    f := length - l - Multiple(h, l + d);
    LateNumbers(length, m, l, d, h, s, f);
  }

  /** With a list of all signals in every cycle, one of them just does not fit at the end; the
      frames behind it reach the one that was emitted m - 2 frames ago. */
  lemma LateOverlap(r: Region, sizes: seq<nat>, j: nat, m: nat, l: nat, d: nat)
    returns (es: seq<Emission>, i: nat, k: nat)
    requires Sizes(r, sizes, l, d) && j < |sizes| && 1 <= sizes[j] <= 8 && m >= 10
    requires Alt(m - 1, l, d) + 72 <= r.end - r.begin < Alt(m - 1, l, d) + l
    ensures Lost(r, sizes, m, es, i, k)
  {
    var n := |sizes|;
    SizesOfAll(sizes);
    var h, s, f := LateChoice(r.end - r.begin, m, l, d);
    var before := FillUp(r, sizes, j, f);
    PairsAround(r, sizes, before, r.begin + f, h, s, l, d);
    es, k := before + Pairs(n, h + s) + [ListOfAll(n)], |before| + 2 * (h + s);
    i := |before| + m % 2;
    LateClash(r, sizes, before, f, h, s, l, d, m % 2 == 0);
  }

  /** The list at the end of the pairs lies over the first list, or over the first data. */
  lemma LateClash(r: Region, sizes: seq<nat>, before: seq<Emission>, f: nat, h: nat, s: nat, l: nat, d: nat, list: bool)
    requires Sizes(r, sizes, l, d) && At(r, sizes, before, r.begin + f) && !Last(before).list
    requires At(r, sizes, before + Pairs(|sizes|, h + s), r.begin + Multiple(s, l + d))
    requires LateAt(r.end - r.begin, l, l + d, h, s, f, if list then 0 else l)
    ensures var es := before + Pairs(|sizes|, h + s) + [ListOfAll(|sizes|)];
            && Emittable(sizes, es)
            && !Intact(r, Frames(sizes, es), |before| + (if list then 0 else 1), |before| + 2 * (h + s))
  {
    var n, all, q := |sizes|, before + Pairs(|sizes|, h + s), r.begin + Multiple(s, l + d);
    var es := all + [ListOfAll(n)];
    SizesOfAll(sizes);
    PairsStart(n, h + s);
    assert Last(all) == Pairs(n, h + s)[2 * (h + s) - 1];
    EmittableSnoc(sizes, all, ListOfAll(n));
    assert es[..|all|] == all;
    if list {
      assert es[..|before|] == before;
      Clash(r, sizes, es, |before|, |all|, r.begin + f, q);
    } else {
      PushFits(r, sizes, before, r.begin + f, ListOfAll(n), l);
      assert es[..|before| + 1] == before + [ListOfAll(n)];
      Clash(r, sizes, es, |before| + 1, |all|, r.begin + f + l, q);
    }
  }

  lemma {:induction false} PairsStart(n: nat, h: nat)
    requires h >= 1
    ensures Pairs(n, h)[0] == ListOfAll(n) && Pairs(n, h)[1] == DataOfAll(n)
    ensures Pairs(n, h)[2 * h - 1] == DataOfAll(n)
  {
    if h > 1 {
      PairsStart(n, h - 1);
    }
  }

  /** q frames for all signals behind the first frame, lists and data in turn, have found room on
      the first lap. */
  ghost predicate EarlyAt(r: Region, sizes: seq<nat>, es: seq<Emission>, q: nat, l: nat, d: nat) {
    && q >= 1 && |es| == q + 1 && At(r, sizes, es[..1], r.begin + 72) && es[1] == ListOfAll(|sizes|)
    && At(r, sizes, es, r.begin + 72 + Alt(q, l, d)) && r.begin + 72 + Alt(q, l, d) <= r.end
    && Last(es) == InTurnOfAll(|sizes|, q - 1)
  }

  /** One more, which goes where the memory begins, and then over frame 1, if it does not fit. */
  lemma EarlyStep(r: Region, sizes: seq<nat>, es: seq<Emission>, q: nat, l: nat, d: nat) returns (lost: bool)
    requires Sizes(r, sizes, l, d) && EarlyAt(r, sizes, es, q, l, d) && r.begin + 72 + l < r.end
    ensures var all := es + [InTurnOfAll(|sizes|, q)];
            if lost then Emittable(sizes, all) && !Intact(r, Frames(sizes, all), 1, |es|)
            else EarlyAt(r, sizes, all, q + 1, l, d)
  {
    var top, e := r.begin + 72 + Alt(q, l, d), InTurnOfAll(|sizes|, q);
    SizesOfAll(sizes);
    lost := top + HEADER + Payload(FrameOf(sizes, e)) >= r.end;
    if lost {
      OverFirstList(r, sizes, es, e, top, l);
    } else {
      EarlyOn(r, sizes, es, q, l, d, e);
    }
  }

  lemma EarlyOn(r: Region, sizes: seq<nat>, es: seq<Emission>, q: nat, l: nat, d: nat, e: Emission)
    requires Sizes(r, sizes, l, d) && EarlyAt(r, sizes, es, q, l, d) && e == InTurnOfAll(|sizes|, q)
    requires r.begin + 72 + Alt(q, l, d) + HEADER + Payload(FrameOf(sizes, e)) < r.end
    ensures EarlyAt(r, sizes, es + [e], q + 1, l, d)
  {
    EarlyFits(r, sizes, es, q, l, d, e);
    assert (es + [e])[..1] == es[..1];
  }

  /** From the first cycle on, a list of all signals in every cycle. */
  lemma {:induction false} EarlyOverlap(r: Region, sizes: seq<nat>, es: seq<Emission>, m: nat, q: nat, l: nat, d: nat)
    returns (es': seq<Emission>, k: nat)
    requires Sizes(r, sizes, l, d) && 1 <= q <= m - 1 && r.end - r.begin < 72 + Alt(m - 1, l, d)
    requires EarlyAt(r, sizes, es, q, l, d) && r.begin + 72 + l < r.end
    ensures Lost(r, sizes, m, es', 1, k)
    decreases m - q
  {
    var lost := EarlyStep(r, sizes, es, q, l, d);
    es', k := es + [InTurnOfAll(|sizes|, q)], |es|;
    if !lost {
      es', k := EarlyOverlap(r, sizes, es', m, q + 1, l, d);
    }
  }

  /** Frame q behind the first, of lists and data in turn. */
  function InTurnOfAll(n: nat, q: nat): Emission {
    if q % 2 == 1 then DataOfAll(n) else ListOfAll(n)
  }

  lemma EarlyFits(r: Region, sizes: seq<nat>, es: seq<Emission>, q: nat, l: nat, d: nat, e: Emission)
    requires Sizes(r, sizes, l, d) && At(r, sizes, es, r.begin + 72 + Alt(q, l, d)) && q >= 1
    requires e == InTurnOfAll(|sizes|, q) && Last(es) == InTurnOfAll(|sizes|, q - 1)
    requires r.begin + 72 + Alt(q, l, d) + HEADER + Payload(FrameOf(sizes, e)) < r.end
    ensures At(r, sizes, es + [e], r.begin + 72 + Alt(q + 1, l, d)) && r.begin + 72 + Alt(q + 1, l, d) <= r.end
  {
    SizesOfAll(sizes);
    AltNext(q, l, d);
    PushInside(r, sizes, es, r.begin + 72 + Alt(q, l, d), e, if q % 2 == 1 then d else l);
  }

  lemma PushInside(r: Region, sizes: seq<nat>, es: seq<Emission>, top: nat, e: Emission, size: nat)
    requires r.begin % WORD == 0 && r.end % WORD == 0 && At(r, sizes, es, top)
    requires |e.on| == |sizes| && Follows(Last(es), e)
    requires size == Size(FrameOf(sizes, e)) && top + HEADER + Payload(FrameOf(sizes, e)) < r.end
    ensures At(r, sizes, es + [e], top + size) && top + size <= r.end
  {
    TopIs(r, sizes, es);
    EndsInside(r, top, FrameOf(sizes, e));
    PushFits(r, sizes, es, top, e, size);
  }

  lemma OverFirstList(r: Region, sizes: seq<nat>, es: seq<Emission>, e: Emission, top: nat, l: nat)
    requires r.begin % WORD == 0 && |es| >= 2 && l == ListSize(|sizes|) && r.begin + 72 + l < r.end
    requires At(r, sizes, es[..1], r.begin + 72) && FrameOf(sizes, es[1]) == ListFrame(|sizes|)
    requires At(r, sizes, es, top) && |e.on| == |sizes| && Follows(Last(es), e) && Payload(FrameOf(sizes, e)) >= 1
    requires top + HEADER + Payload(FrameOf(sizes, e)) >= r.end
    ensures Emittable(sizes, es + [e]) && !Intact(r, Frames(sizes, es + [e]), 1, |es|)
  {
    EmittableSnoc(sizes, es, e);
    assert (es + [e])[..1] == es[..1] && (es + [e])[..|es|] == es;
    Clash(r, sizes, es + [e], 1, |es|, r.begin + 72, top);
  }

  lemma EndsInside(r: Region, start: nat, f: Frame)
    requires start % WORD == 0 && r.end % WORD == 0 && start + HEADER + Payload(f) < r.end
    ensures start + Size(f) <= r.end
  {
  }

  lemma EarlyStart(r: Region, sizes: seq<nat>, m: nat, l: nat, d: nat) returns (es: seq<Emission>, k: nat)
    requires Sizes(r, sizes, l, d) && m >= 10 && r.end - r.begin < 72 + Alt(m - 1, l, d)
    requires r.begin + 72 + l < r.end
    ensures Lost(r, sizes, m, es, 1, k)
  {
    var none := Emission(false, NoneOn(|sizes|));
    SizesOfAll(sizes);
    First(r, sizes);
    PushFits(r, sizes, [none], r.begin + 72, ListOfAll(|sizes|), l);
    var two := [none] + [ListOfAll(|sizes|)];
    assert two[..1] == [none];
    es, k := EarlyOverlap(r, sizes, two, m, 1, l, d);
  }

  lemma SmallOne(sizes: seq<nat>) returns (j: nat)
    requires Positive(sizes) && Total(sizes) < WORD * |sizes|
    ensures j < |sizes| && 1 <= sizes[j] < WORD
  {
    if forall i :: 0 <= i < |sizes| ==> sizes[i] >= WORD {
      BytesAtLeast(sizes, WORD, |sizes|);
    }
    j :| 0 <= j < |sizes| && sizes[j] < WORD;
  }

  lemma LostWithoutRoom(r: Region, sizes: seq<nat>, m: nat, l: nat, d: nat)
    returns (es: seq<Emission>, i: nat, k: nat)
    requires Sizes(r, sizes, l, d) && Positive(sizes) && Total(sizes) < WORD * |sizes| && m >= 10
    requires r.end - r.begin < Alt(m - 1, l, d) + l && 72 + l < r.end - r.begin
    ensures Lost(r, sizes, m, es, i, k)
  {
    if r.end - r.begin < 72 + Alt(m - 1, l, d) {
      i := 1;
      es, k := EarlyStart(r, sizes, m, l, d);
    } else {
      var j := SmallOne(sizes);
      es, i, k := LateOverlap(r, sizes, j, m, l, d);
    }
  }

  // ---- The exact condition ----

  /** In every run, a frame stays intact until minPdoCount - 2 more have been emitted. */
  ghost predicate AllSurvive(r: Region, sizes: seq<nat>, m: nat) {
    forall es, i, k :: Emittable(sizes, es) && 0 <= i < k < |es| && k - i <= m - 2 ==>
      Intact(r, Frames(sizes, es), i, k)
  }

  lemma WordsAdd(a: nat, b: nat)
    requires a % WORD == 0 && b % WORD == 0
    ensures (a + b) % WORD == 0
  {
  }

  lemma LongListsSizes(shmem: nat, sizes: seq<nat>, m: nat)
    requires shmem % WORD == 0 && m >= 10 && Positive(sizes) && WORD * |sizes| > Total(sizes) + WORD
    ensures var r, l := Prepare(shmem, |sizes|, Total(sizes), m), ListSize(|sizes|);
            Sizes(r, sizes, l, DataSize(Total(sizes))) && 72 + l < r.end - r.begin
  {
    var bytes := Total(sizes);
    BytesAtLeast(sizes, 1, |sizes|);
    PreparedSpace(shmem, |sizes|, bytes, m);
    var r := Prepare(shmem, |sizes|, bytes, m);
    WordsAdd(r.begin, r.end - r.begin);
    MulMono(10, m, PDO_SIZE + bytes);
    Commutes(PDO_SIZE + bytes, m);
  }

  /** The list of all signals is at most a word longer than their data, or there is room for
      frames in turn. */
  predicate EnoughRoom(n: nat, bytes: nat, m: nat)
    requires m >= 1
  {
    WORD * n <= bytes + WORD || RoomInTurn(n, bytes, m, Align((PDO_SIZE + bytes) * m))
  }

  lemma Survive(shmem: nat, sizes: seq<nat>, m: nat, es: seq<Emission>, i: nat, k: nat)
    requires shmem % WORD == 0 && m >= 10 && Positive(sizes) && EnoughRoom(|sizes|, Total(sizes), m)
    requires Emittable(sizes, es) && i < k < |es| && k - i <= m - 2
    ensures Intact(Prepare(shmem, |sizes|, Total(sizes), m), Frames(sizes, es), i, k)
  {
    SurvivalIff(shmem, sizes, m);
  }

  /** Frames survive in all runs exactly if there is enough room. */
  lemma SurvivalIff(shmem: nat, sizes: seq<nat>, m: nat)
    requires shmem % WORD == 0 && m >= 10 && Positive(sizes)
    ensures var n, bytes := |sizes|, Total(sizes);
            AllSurvive(Prepare(shmem, n, bytes, m), sizes, m)
            <==> EnoughRoom(n, bytes, m)
  {
    var n, bytes := |sizes|, Total(sizes);
    var r, l, d := Prepare(shmem, n, bytes, m), ListSize(n), DataSize(bytes);
    PreparedSpace(shmem, n, bytes, m);
    if WORD * n <= bytes + WORD {
      forall es, i, k | Emittable(sizes, es) && 0 <= i < k < |es| && k - i <= m - 2
        ensures Intact(r, Frames(sizes, es), i, k)
      {
        FramesBounded(sizes, es);
        FramesSurvive(shmem, n, bytes, m, Frames(sizes, es), i, k);
      }
    } else {
      LongListsSizes(shmem, sizes, m);
      InTurnIff(r, sizes, m, l, d);
    }
  }

  lemma InTurnIff(r: Region, sizes: seq<nat>, m: nat, l: nat, d: nat)
    requires Sizes(r, sizes, l, d) && Positive(sizes) && Total(sizes) < WORD * |sizes| && m >= 10
    requires 72 + l < r.end - r.begin
    ensures AllSurvive(r, sizes, m) <==> RoomInTurn(|sizes|, Total(sizes), m, r.end - r.begin)
  {
    if RoomInTurn(|sizes|, Total(sizes), m, r.end - r.begin) {
      forall es, i, k | Emittable(sizes, es) && 0 <= i < k < |es| && k - i <= m - 2
        ensures Intact(r, Frames(sizes, es), i, k)
      {
        FramesInTurn(sizes, es);
        IntactInTurn(r, Frames(sizes, es), l, d, m, i, k);
      }
    } else {
      var es, i, k := LostWithoutRoom(r, sizes, m, l, d);
    }
  }
}
