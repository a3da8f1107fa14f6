/** How the shared memory is divided up before the real-time process forks off: parameters by
    the alignment of their type, the polling area, task memory and events. Sizes are those
    of a 64-bit layout. */
module SharedMemory {
  import opened Common
  import opened PdoMemory

  /** align is 1, 2, 4 or 8. */
  datatype Parameter = Parameter(align: nat, memSize: nat)

  /** The bytes of class w among the first n parameters. */
  function Bytes(ps: seq<Parameter>, w: nat, n: nat): nat
    requires n <= |ps|
  {
    if n == 0 then 0
    else Bytes(ps, w, n - 1) + if WidthClass(ps[n - 1].align) == w then ps[n - 1].memSize else 0
  }

  /** Where class w starts: behind all classes before it. */
  function Start(ps: seq<Parameter>, w: nat): nat {
    if w == 0 then 0 else Start(ps, w - 1) + Bytes(ps, w - 1, |ps|)
  }

  function Offset(ps: seq<Parameter>, i: nat): nat
    requires i < |ps|
  {
    Start(ps, WidthClass(ps[i].align)) + Bytes(ps, WidthClass(ps[i].align), i)
  }

  // ---- Disjoint and aligned ----

  lemma {:induction false} BytesGrow(ps: seq<Parameter>, w: nat, i: nat, n: nat)
    requires i <= n <= |ps|
    ensures Bytes(ps, w, i) <= Bytes(ps, w, n)
    ensures i < n && WidthClass(ps[i].align) == w ==> Bytes(ps, w, i) + ps[i].memSize <= Bytes(ps, w, n)
    decreases n
  {
    if i < n {
      BytesGrow(ps, w, i, n - 1);
    }
  }

  lemma {:induction false} StartsGrow(ps: seq<Parameter>, v: nat, w: nat)
    requires v < w
    ensures Start(ps, v) + Bytes(ps, v, |ps|) <= Start(ps, w)
    decreases w
  {
    if v < w - 1 {
      StartsGrow(ps, v, w - 1);
    }
  }

  /** No two parameters share a byte, and all lie within the total. */
  lemma ParametersDisjoint(ps: seq<Parameter>, i: nat, j: nat)
    requires i < j < |ps|
    ensures Offset(ps, i) + ps[i].memSize <= Offset(ps, j) || Offset(ps, j) + ps[j].memSize <= Offset(ps, i)
  {
    var v, w := WidthClass(ps[i].align), WidthClass(ps[j].align);
    BytesGrow(ps, v, i, |ps|);
    BytesGrow(ps, w, j, |ps|);
    if v == w {
      BytesGrow(ps, v, i, j);
    } else if v < w {
      StartsGrow(ps, v, w);
    } else {
      StartsGrow(ps, w, v);
    }
  }

  lemma ParametersInside(ps: seq<Parameter>, i: nat)
    requires i < |ps|
    ensures Offset(ps, i) + ps[i].memSize <= Start(ps, 4)
  {
    BytesGrow(ps, WidthClass(ps[i].align), i, |ps|);
    StartsGrow(ps, WidthClass(ps[i].align), 4);
  }

  /** The size of a type is a multiple of its alignment. */
  ghost predicate Padded(ps: seq<Parameter>) {
    forall i :: 0 <= i < |ps| ==> ps[i].memSize % Width(WidthClass(ps[i].align)) == 0
  }

  lemma {:induction false} BytesAligned(ps: seq<Parameter>, w: nat, n: nat)
    requires w < 4 && n <= |ps| && Padded(ps)
    ensures Bytes(ps, w, n) % Width(w) == 0
  {
    if n > 0 {
      BytesAligned(ps, w, n - 1);
      assert ps[n - 1].memSize % Width(WidthClass(ps[n - 1].align)) == 0;
    }
  }

  lemma MultiplesAdd(x: nat, y: nat, w: nat)
    requires 0 < w < 4 && x % Width(w - 1) == 0 && y % Width(w - 1) == 0
    ensures (x + y) % Width(w) == 0
  {
  }

  lemma StartAligned(ps: seq<Parameter>, w: nat)
    requires w < 4 && Padded(ps)
    ensures Start(ps, w) % Width(w) == 0
  {
    if w > 0 {
      StartAligned(ps, w - 1);
      BytesAligned(ps, w - 1, |ps|);
      MultiplesAdd(Start(ps, w - 1), Bytes(ps, w - 1, |ps|), w);
    }
  }

  /** Each parameter is aligned to its type, if the area is aligned to a word. */
  lemma ParameterAligned(ps: seq<Parameter>, i: nat, area: nat)
    requires i < |ps| && Padded(ps) && area % WORD == 0
    ensures (area + Offset(ps, i)) % Width(WidthClass(ps[i].align)) == 0
  {
    var w := WidthClass(ps[i].align);
    StartAligned(ps, w);
    BytesAligned(ps, w, i);
    ThreeMultiples(area, Start(ps, w), Bytes(ps, w, i), w);
  }

  lemma ThreeMultiples(a: nat, b: nat, c: nat, w: nat)
    requires w < 4 && a % WORD == 0 && b % Width(w) == 0 && c % Width(w) == 0
    ensures (a + (b + c)) % Width(w) == 0
  {
  }

  /** A parameter stands where its type may, in an area that starts at a multiple of a word. */
  ghost predicate AlignedAt(ps: seq<Parameter>, i: nat)
    requires i < |ps|
  {
    Offset(ps, i) % Width(WidthClass(ps[i].align)) == 0
  }

  ghost predicate MadeOf(ps: seq<Parameter>, kinds: seq<Parameter>) {
    forall i :: 0 <= i < |ps| ==> ps[i] in kinds
  }

  /** All parameters of these kinds are aligned, in whatever number and order they come. */
  ghost predicate AlwaysAligned(kinds: seq<Parameter>) {
    forall ps, i :: MadeOf(ps, kinds) && 0 <= i < |ps| ==> AlignedAt(ps, i)
  }

  /** A size that is not a multiple of the alignment throws off a second parameter of the
      kind. */
  lemma UnpaddedMisaligns(p: Parameter)
    requires p.memSize % Width(WidthClass(p.align)) != 0
    ensures !AlignedAt([p, p], 1)
  {
    var ps, w := [p, p], WidthClass(p.align);
    assert Bytes(ps, w, 0) == 0 && Bytes(ps, w, 1) == p.memSize;
    NothingBefore(p, w);
  }

  /** The classes before that of the only kind are empty. */
  lemma {:induction false} NothingBefore(p: Parameter, w: nat)
    requires w <= WidthClass(p.align)
    ensures Start([p, p], w) == 0
  {
    if w > 0 {
      NothingBefore(p, w - 1);
      assert Bytes([p, p], w - 1, 0) == Bytes([p, p], w - 1, 1) == Bytes([p, p], w - 1, 2) == 0;
    }
  }

  /** Alignment is certain exactly for kinds whose sizes are multiples of their alignments. */
  lemma AlignedIff(kinds: seq<Parameter>)
    ensures AlwaysAligned(kinds) <==> Padded(kinds)
  {
    if Padded(kinds) {
      forall ps, i | MadeOf(ps, kinds) && 0 <= i < |ps|
        ensures AlignedAt(ps, i)
      {
        ParameterAligned(ps, i, 0);
      }
    } else {
      var i :| 0 <= i < |kinds| && kinds[i].memSize % Width(WidthClass(kinds[i].align)) != 0;
      UnpaddedMisaligns(kinds[i]);
      assert MadeOf([kinds[i], kinds[i]], kinds);
    }
  }

  // ---- The areas ----

  const EVENT_SIZE: nat := 40
  const EVENT_LEN: nat := 10

  datatype Layout = Layout(
    shmem: nat,
    shmemLen: nat,
    parameterData: nat,
    shmAddr: seq<nat>,
    signalData: nat,
    taskArea: seq<(nat, nat)>,
    eventDataWp: nat,
    eventDataStart: nat,
    eventDataEnd: nat)

  function Sum(xs: seq<nat>): nat {
    if xs == [] then 0 else Sum(xs[..|xs| - 1]) + xs[|xs| - 1]
  }

  ghost predicate InTurn(areas: seq<(nat, nat)>, from: nat, to: nat) {
    && from <= to
    && (forall k :: 0 <= k < |areas| ==> from <= areas[k].0 <= areas[k].1 <= to && areas[k].0 % WORD == 0)
    && (forall k, l :: 0 <= k < l < |areas| ==> areas[k].1 <= areas[l].0)
  }

  /** The areas follow one another, and the parameters have their places in the first. */
  ghost predicate LayoutOk(ps: seq<Parameter>, maxSignalSize: nat, taskSpace: seq<nat>, eventCount: nat, l: Layout) {
    && l.shmem <= l.parameterData && l.parameterData % WORD == 0
    && |l.shmAddr| == |ps| && (forall i :: 0 <= i < |ps| ==> l.shmAddr[i] == l.parameterData + Offset(ps, i))
    && l.parameterData + Start(ps, 4) <= l.signalData && l.signalData % WORD == 0
    && |l.taskArea| == |taskSpace| && InTurn(l.taskArea, l.signalData + maxSignalSize, l.eventDataWp)
    && (forall k :: 0 <= k < |taskSpace| ==> l.taskArea[k].0 + taskSpace[k] <= l.taskArea[k].1)
    && l.eventDataWp % WORD == 0 && l.eventDataWp + WORD <= l.eventDataStart && l.eventDataStart % WORD == 0
    && l.eventDataEnd == l.eventDataStart + EVENT_SIZE * (EVENT_LEN * eventCount)
  }

  /** The offsets of the five classes after counting: where each starts, and the total. */
  method CountBytes(ps: seq<Parameter>) returns (offset: array<nat>)
    ensures offset.Length == 5
    ensures forall w :: 0 <= w < 5 ==> offset[w] == Start(ps, w)
    ensures fresh(offset)
  {
    offset := new nat[5](_ => 0);
    for n := 0 to |ps|
      invariant offset[0] == 0
      invariant forall w :: 0 < w < 5 ==> offset[w] == Bytes(ps, w - 1, n)
    {
      var w := WidthClass(ps[n].align) + 1;
      offset[w] := offset[w] + ps[n].memSize;
    }
    for i := 1 to 5
      invariant forall w :: 0 <= w < i ==> offset[w] == Start(ps, w)
      invariant forall w :: i <= w < 5 ==> offset[w] == Bytes(ps, w - 1, |ps|)
    {
      offset[i] := offset[i] + offset[i - 1];
    }
  }

  method PlaceParameters(ps: seq<Parameter>, area: nat) returns (shmAddr: seq<nat>, total: nat)
    ensures |shmAddr| == |ps| && total == Start(ps, 4)
    ensures forall i :: 0 <= i < |ps| ==> shmAddr[i] == area + Offset(ps, i)
  {
    var offset := CountBytes(ps);
    shmAddr, total := [], offset[4];
    for n := 0 to |ps|
      invariant |shmAddr| == n
      invariant forall i :: 0 <= i < n ==> shmAddr[i] == area + Offset(ps, i)
      invariant forall w :: 0 <= w < 4 ==> offset[w] == Start(ps, w) + Bytes(ps, w, n)
    {
      var w := WidthClass(ps[n].align);
      assert forall v :: 0 <= v < 4 ==>
                Bytes(ps, v, n + 1) == Bytes(ps, v, n) + if v == w then ps[n].memSize else 0;
      shmAddr := shmAddr + [area + offset[w]];
      offset[w] := offset[w] + ps[n].memSize;
    }
  }

  /** One area per task, side by side from buf on, each rounded up to words. */
  method PlaceTasks(taskSpace: seq<nat>, buf: nat) returns (areas: seq<(nat, nat)>, end: nat)
    requires buf % WORD == 0
    ensures |areas| == |taskSpace| && InTurn(areas, buf, end) && end % WORD == 0
    ensures forall k :: 0 <= k < |taskSpace| ==> areas[k].0 + taskSpace[k] <= areas[k].1
    ensures end == buf + Sum(Aligned(taskSpace))
  {
    areas, end := [], buf;
    for n := 0 to |taskSpace|
      invariant |areas| == n && InTurn(areas, buf, end) && end % WORD == 0
      invariant forall k :: 0 <= k < n ==> areas[k].0 + taskSpace[k] <= areas[k].1
      invariant end == buf + Sum(Aligned(taskSpace[..n]))
    {
      AlignedSnoc(taskSpace, n);
      var size := Align(taskSpace[n]);
      InTurnSnoc(areas, buf, end, size);
      areas := areas + [(end, end + size)];
      end := Align(end + size);
    }
    assert taskSpace[..|taskSpace|] == taskSpace;
  }

  lemma AlignedSnoc(xs: seq<nat>, n: nat)
    requires n < |xs|
    ensures Sum(Aligned(xs[..n + 1])) == Sum(Aligned(xs[..n])) + Align(xs[n])
  {
    assert Aligned(xs[..n + 1])[..n] == Aligned(xs[..n]);
  }

  lemma InTurnSnoc(areas: seq<(nat, nat)>, from: nat, to: nat, size: nat)
    requires InTurn(areas, from, to) && to % WORD == 0 && size % WORD == 0
    ensures InTurn(areas + [(to, to + size)], from, to + size) && (to + size) % WORD == 0
  {
  }

  function Aligned(xs: seq<nat>): (ys: seq<nat>)
    ensures |ys| == |xs|
  {
    seq(|xs|, i requires 0 <= i < |xs| => Align(xs[i]))
  }

  /** Divides the memory up, wherever it is mapped. The check at the end never fires. */
  method PreforkInit(shmem: nat, ps: seq<Parameter>, maxSignalSize: nat, taskSpace: seq<nat>, eventCount: nat)
    returns (l: Layout, enomem: bool)
    ensures !enomem && LayoutOk(ps, maxSignalSize, taskSpace, eventCount, l)
    ensures l.shmem == shmem && l.eventDataEnd + EVENT_SIZE <= shmem + l.shmemLen
  {
    var parameterData := Align(shmem);
    var shmAddr, total := PlaceParameters(ps, parameterData);
    var events := EVENT_SIZE * (EVENT_LEN * eventCount);
    var shmemLen := maxSignalSize + total + events + WORD;
    for i := 0 to |taskSpace|
      invariant shmemLen == maxSignalSize + total + events + WORD + Sum(Aligned(taskSpace[..i]))
    {
      AlignedSnoc(taskSpace, i);
      shmemLen := shmemLen + Align(taskSpace[i]);
    }
    assert taskSpace[..|taskSpace|] == taskSpace;
    shmemLen := shmemLen + (10 + |taskSpace|) * WORD;
    var signalData := Align(parameterData + total);
    var buf := Align(signalData + maxSignalSize);
    var areas, end := PlaceTasks(taskSpace, buf);
    var eventDataWp := Align(end);
    var eventDataStart := Align(eventDataWp + WORD);
    var eventDataEnd := eventDataStart + events;
    enomem := eventDataEnd + EVENT_SIZE > shmem + shmemLen;
    l := Layout(shmem, shmemLen, parameterData, shmAddr, signalData, areas, eventDataWp, eventDataStart, eventDataEnd);
  }
}
