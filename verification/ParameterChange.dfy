/** Changing a parameter: a session's process writes the new bytes to the shared copy and asks
    the real-time process to take them over, which may refuse. */
module ParameterChange {
  import opened Common

  const EIO := 5

  /** The bytes of every parameter, in shared memory and in the real-time process. */
  datatype Memory = Memory(shm: seq<seq<Byte>>, rt: seq<seq<Byte>>)

  datatype Request = Request(parameter: nat, offset: nat, data: seq<Byte>)

  /** How the exchange goes: the request does not get out, or the callback answers rv and the
      answer gets back or not. */
  datatype Exchange = RequestLost | AnswerLost(rv: int) | Answered(rv: int)

  predicate Fits(m: Memory, r: Request) {
    && |m.shm| == |m.rt| && r.parameter < |m.shm| && |m.shm[r.parameter]| == |m.rt[r.parameter]|
    && r.offset + |r.data| <= |m.shm[r.parameter]|
  }

  function Overwrite(bytes: seq<Byte>, offset: nat, data: seq<Byte>): (r: seq<Byte>)
    requires offset + |data| <= |bytes|
    ensures |r| == |bytes|
  {
    bytes[..offset] + data + bytes[offset + |data|..]
  }

  ghost predicate InSync(m: Memory) {
    m.shm == m.rt
  }

  lemma Restored(bytes: seq<Byte>, offset: nat, data: seq<Byte>)
    requires offset + |data| <= |bytes|
    ensures Overwrite(Overwrite(bytes, offset, data), offset, bytes[offset..offset + |data|]) == bytes
  {
  }

  lemma OverwriteNothing(bytes: seq<Byte>, offset: nat, data: seq<Byte>)
    requires offset + |data| <= |bytes|
    ensures Overwrite(bytes, offset, data) == bytes <==> bytes[offset..offset + |data|] == data
  {
    var r := Overwrite(bytes, offset, data);
    assert r[offset..offset + |data|] == data;
    if bytes[offset..offset + |data|] == data {
      assert bytes == bytes[..offset] + bytes[offset..offset + |data|] + bytes[offset + |data|..];
    }
  }

  /** The memory after an exchange. */
  function Changed(m: Memory, r: Request, x: Exchange): Memory
    requires Fits(m, r)
  {
    var p := r.parameter;
    var shm := m.shm[p := Overwrite(m.shm[p], r.offset, r.data)];
    var rt := m.rt[p := Overwrite(m.rt[p], r.offset, r.data)];
    match x
    case RequestLost => Memory(shm, m.rt)
    case AnswerLost(rv) => Memory(shm, if rv == 0 then rt else m.rt)
    case Answered(rv) => if rv == 0 then Memory(shm, rt) else m
  }

  class Main {
    var memory: Memory
    var ipcError: bool

    constructor (initial: seq<seq<Byte>>)
      ensures memory == Memory(initial, initial) && InSync(memory) && !ipcError
    {
      // The shared copies start out as those of the real-time process.
      memory, ipcError := Memory(initial, initial), false;
    }

    /** The real-time side: a callback that answers 0 has copied the bytes over, any other has
        left its own as they were. */
    method HandleRequest(parameter: nat, offset: nat, count: nat, rv: int)
      requires |memory.shm| == |memory.rt| && parameter < |memory.rt|
      requires |memory.shm[parameter]| == |memory.rt[parameter]| && offset + count <= |memory.rt[parameter]|
      modifies this`memory
      ensures memory.shm == old(memory).shm
      ensures memory.rt == if rv != 0 then old(memory).rt
                           else old(memory).rt[parameter := Overwrite(old(memory).rt[parameter], offset,
                                                     old(memory).shm[parameter][offset..offset + count])]
    {
      if rv == 0 {
        var bytes := memory.shm[parameter][offset..offset + count];
        memory := memory.(rt := memory.rt[parameter := Overwrite(memory.rt[parameter], offset, bytes)]);
      }
    }

    method SetValue(r: Request, x: Exchange) returns (rv: int)
      requires Fits(memory, r)
      modifies this
      ensures memory == Changed(old(memory), r, x)
      ensures rv == if x.Answered? then x.rv else -EIO
      ensures ipcError == (old(ipcError) || !x.Answered?)
    {
      var p := r.parameter;
      var was := memory.shm[p];
      var backup := was[r.offset..r.offset + |r.data|];
      memory := memory.(shm := memory.shm[p := Overwrite(was, r.offset, r.data)]);
      assert memory.shm[p][r.offset..r.offset + |r.data|] == r.data;
      if x.RequestLost? {
        ipcError := true;
        return -EIO;
      }
      HandleRequest(p, r.offset, |r.data|, x.rv);
      if x.AnswerLost? {
        ipcError := true;
        return -EIO;
      }
      if x.rv != 0 {
        Restored(was, r.offset, r.data);
        memory := memory.(shm := memory.shm[p := Overwrite(memory.shm[p], r.offset, backup)]);
        assert memory.shm == old(memory).shm;
      }
      return x.rv;
    }
  }

  /** The copies stay equal exactly if the answer got back, the change was made on both sides
      all the same, or there was nothing to change. */
  lemma SyncKeptIff(m: Memory, r: Request, x: Exchange)
    requires Fits(m, r) && InSync(m)
    ensures InSync(Changed(m, r, x)) <==>
              x.Answered? || x == AnswerLost(0) || m.shm[r.parameter][r.offset..r.offset + |r.data|] == r.data
  {
    var p := r.parameter;
    OverwriteNothing(m.shm[p], r.offset, r.data);
    var shm := m.shm[p := Overwrite(m.shm[p], r.offset, r.data)];
    assert shm[p] == Overwrite(m.shm[p], r.offset, r.data);
    assert Overwrite(m.shm[p], r.offset, r.data) == m.shm[p] ==> shm == m.shm;
  }

  /** An answered change is either made on both sides or on none, and to no other
      parameter. */
  lemma AnsweredIsAtomic(m: Memory, r: Request, rv: int)
    requires Fits(m, r) && InSync(m)
    ensures var m' := Changed(m, r, Answered(rv));
            && InSync(m') && |m'.shm| == |m.shm|
            && (rv != 0 ==> m' == m)
            && (rv == 0 ==> forall i :: r.offset <= i < r.offset + |r.data| ==>
                              m'.rt[r.parameter][i] == r.data[i - r.offset])
            && (rv == 0 ==> forall i :: 0 <= i < |m.rt[r.parameter]| && !(r.offset <= i < r.offset + |r.data|) ==>
                  m'.rt[r.parameter][i] == m.rt[r.parameter][i])
            && forall q :: 0 <= q < |m.shm| && q != r.parameter ==> m'.shm[q] == m.shm[q] && m'.rt[q] == m.rt[q]
  {
  }

  /** The memory after a series of changes. */
  function Run(m: Memory, rs: seq<(Request, Exchange)>): Memory {
    if rs == [] then m
    else
      var pre := Run(m, rs[..|rs| - 1]);
      var (r, x) := rs[|rs| - 1];
      if Fits(pre, r) then Changed(pre, r, x) else pre
  }

  /** As long as every change is answered, the two copies never differ. */
  lemma {:induction false} AnsweredRunsKeepSync(m: Memory, rs: seq<(Request, Exchange)>)
    requires InSync(m) && forall i :: 0 <= i < |rs| ==> rs[i].1.Answered?
    ensures InSync(Run(m, rs))
  {
    if rs != [] {
      var pre := Run(m, rs[..|rs| - 1]);
      AnsweredRunsKeepSync(m, rs[..|rs| - 1]);
      var (r, x) := rs[|rs| - 1];
      if Fits(pre, r) {
        SyncKeptIff(pre, r, x);
      }
    }
  }

  // ---- Which bytes change ----

  /** The new bytes stay in shared memory unless the real-time process is known to have refused. */
  predicate StaysShared(x: Exchange) {
    x.Answered? ==> x.rv == 0
  }

  /** The real-time process takes the bytes over if the request reaches it and the callback answers
      0. */
  predicate TakenOver(x: Exchange) {
    !x.RequestLost? && x.rv == 0
  }

  predicate Hits(r: Request, p: nat, i: nat) {
    p == r.parameter && r.offset <= i < r.offset + |r.data|
  }

  /** Every byte on either side, after an exchange. */
  lemma ChangedBytes(m: Memory, r: Request, x: Exchange, p: nat, i: nat)
    requires Fits(m, r) && p < |m.shm| && i < |m.shm[p]| && i < |m.rt[p]|
    ensures var m' := Changed(m, r, x);
            && |m'.shm| == |m.shm| && |m'.rt| == |m.rt|
            && |m'.shm[p]| == |m.shm[p]| && |m'.rt[p]| == |m.rt[p]|
            && m'.shm[p][i] == (if StaysShared(x) && Hits(r, p, i) then r.data[i - r.offset] else m.shm[p][i])
            && m'.rt[p][i] == (if TakenOver(x) && Hits(r, p, i) then r.data[i - r.offset] else m.rt[p][i])
  {
  }

  /** Both sides have parameters of the same sizes. */
  ghost predicate SameSizes(m: Memory, sizes: seq<nat>) {
    && |m.shm| == |m.rt| == |sizes|
    && forall p :: 0 <= p < |sizes| ==> |m.shm[p]| == |m.rt[p]| == sizes[p]
  }

  lemma SizesKeep(m: Memory, r: Request, x: Exchange, sizes: seq<nat>)
    requires SameSizes(m, sizes) && r.parameter < |sizes| && r.offset + |r.data| <= sizes[r.parameter]
    ensures Fits(m, r) && SameSizes(Changed(m, r, x), sizes)
  {
  }

  /** All requests are for bytes that parameters have. */
  ghost predicate InSizes(rs: seq<(Request, Exchange)>, sizes: seq<nat>) {
    forall k :: 0 <= k < |rs| ==>
      rs[k].0.parameter < |sizes| && rs[k].0.offset + |rs[k].0.data| <= sizes[rs[k].0.parameter]
  }

  /** What the last of the requests that count has written to a byte, or else what was there. */
  function LastWritten(rs: seq<(Request, Exchange)>, counts: Exchange -> bool, p: nat, i: nat, was: Byte): Byte {
    if rs == [] then was
    else
      var (r, x) := rs[|rs| - 1];
      if counts(x) && Hits(r, p, i) then r.data[i - r.offset]
      else LastWritten(rs[..|rs| - 1], counts, p, i, was)
  }

  /** After any series of changes, the shared bytes are the last that were written and not known
      to be refused, and those of the real-time process the last that it took over. */
  lemma {:induction false} LastWriteCounts(m: Memory, rs: seq<(Request, Exchange)>, sizes: seq<nat>, p: nat, i: nat)
    requires SameSizes(m, sizes) && InSizes(rs, sizes) && p < |sizes| && i < sizes[p]
    ensures var m' := Run(m, rs);
            && SameSizes(m', sizes)
            && m'.shm[p][i] == LastWritten(rs, StaysShared, p, i, m.shm[p][i])
            && m'.rt[p][i] == LastWritten(rs, TakenOver, p, i, m.rt[p][i])
  {
    if rs != [] {
      var before := rs[..|rs| - 1];
      var (r, x) := rs[|rs| - 1];
      var pre := Run(m, before);
      LastWriteCounts(m, before, sizes, p, i);
      assert r == rs[|rs| - 1].0;
      SizesKeep(pre, r, x, sizes);
      ChangedBytes(pre, r, x, p, i);
    }
  }
}
