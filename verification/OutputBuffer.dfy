/** The output buffer of a session in the plain-text state, over a socket that may take all of
    the data, some, none for now, or fail. */
module OutputBuffer {
  import opened Common

  const EAGAIN := 11
  const EINTR := 4
  const EPIPE := 32

  /** The socket takes nothing for now, or was interrupted. */
  predicate TryAgain(answer: int) {
    answer == -EAGAIN || answer == -EINTR
  }

  /** What the socket is ready to do at call i; when the script has run out, writing fails. */
  function Answer(script: seq<int>, i: nat): int {
    if i < |script| then script[i] else -EPIPE
  }

  /** What the calls from i up to k can take at most, no more than most bytes each. */
  function Room(script: seq<int>, i: nat, k: nat, most: nat): nat
    requires i <= k
  {
    if i == k then 0
    else
      var a := Answer(script, k - 1);
      Room(script, i, k - 1, most) + if a <= 0 then 0 else if a > most then most else a
  }

  class Session {
    const capacity: nat
    /** What the socket will answer to the writes. */
    const script: seq<int>
    var buffer: seq<Byte>
    var eof: bool
    /** How often the socket has been called. */
    var calls: nat
    /** What has gone out through the socket. */
    var sent: seq<Byte>
    ghost var accepted: seq<Byte>

    /** Nothing is lost, doubled or put out of order. */
    ghost predicate Valid()
      reads this
    {
      capacity >= 1 && |buffer| <= capacity && sent + buffer == accepted
    }

    constructor (size: nat, script: seq<int>)
      requires size >= 1
      ensures Valid() && capacity == size && this.script == script && calls == 0
      ensures buffer == [] && accepted == [] && !eof
    {
      capacity, this.script, buffer, eof, calls, sent, accepted := size, script, [], false, 0, [], [];
    }

    /** The socket takes a prefix of the data, or gives an error. */
    method Write(data: seq<Byte>) returns (result: int)
      modifies this`calls, this`sent
      ensures calls == old(calls) + 1
      ensures var a := Answer(script, old(calls)); result == if a > |data| then |data| else a
      ensures sent == old(sent) + if result > 0 then data[..result] else []
    {
      result := Answer(script, calls);
      calls := calls + 1;
      if result > |data| {
        result := |data|;
      }
      if result > 0 {
        sent := sent + data[..result];
      }
    }

    /** What is left to do for a flush of the given bytes that has gone on since call from. */
    ghost predicate Underway(bytes: seq<Byte>, before: seq<Byte>, from: nat, rest: seq<Byte>)
      reads this
    {
      && from <= calls && sent + rest == before + bytes && |rest| <= |bytes|
      && (forall i :: from <= i < calls ==> Answer(script, i) > 0)
      && |bytes| - |rest| == Room(script, from, calls, |bytes|)
    }

    /** Writes out the buffer. Nothing happens after a failure or if it is empty. Else there is
        one call if partial, and if not, calls until the buffer is empty or the socket takes
        nothing; what they take goes out, and the session fails exactly if the last was answered
        by a failure. */
    method Flush(partial: bool) returns (r: int)
      requires Valid()
      modifies this`buffer, this`eof, this`calls, this`sent
      ensures Valid() && r == if eof then -1 else 0
      ensures old(eof) || old(buffer) == [] ==>
                calls == old(calls) && eof == old(eof) && buffer == old(buffer) && sent == old(sent)
      ensures !old(eof) && old(buffer) != [] ==>
                && calls > old(calls) && (partial ==> calls == old(calls) + 1)
                && (forall i :: old(calls) <= i < calls - 1 ==> Answer(script, i) > 0)
                && Room(script, old(calls), calls - 1, |old(buffer)|) < |old(buffer)|
      ensures !old(eof) && old(buffer) != [] ==>
                var n, room := |old(buffer)| - |buffer|, Room(script, old(calls), calls, |old(buffer)|);
                && n == (if room < |old(buffer)| then room else |old(buffer)|)
                && buffer == old(buffer)[n..] && sent == old(sent) + old(buffer)[..n]
      ensures !old(eof) && old(buffer) != [] && !partial && buffer != [] ==> Answer(script, calls - 1) <= 0
      ensures !old(eof) && old(buffer) != [] ==>
                var last := Answer(script, calls - 1); eof <==> last <= 0 && !TryAgain(last)
    {
      if eof {
        return -1;
      } else if buffer == [] {
        return 0;
      }
      var rest, result := buffer, 0;
      while true
        invariant rest != [] && buffer == old(buffer) && Underway(buffer, old(sent), old(calls), rest)
        invariant !eof && (partial ==> calls == old(calls))
        decreases |rest|
      {
        ghost var before := sent;
        result := Write(rest);
        if result <= 0 {
          break;
        }
        assert before + rest == before + rest[..result] + rest[result..];
        rest := rest[result..];
        if rest == [] || partial {
          break;
        }
      }
      Suffix(old(buffer), rest, old(sent), sent);
      buffer := rest;
      eof := eof || (result <= 0 && result != -EAGAIN && result != -EINTR);
      r := if eof then -1 else 0;
    }

    /** Of the bytes in the buffer and those behind, what the calls from from up to i have left
        fills the buffer. */
    ghost predicate Full(buffered: nat, behind: nat, from: nat, i: nat) {
      from <= i && buffered + behind - Room(script, from, i, capacity) >= capacity
    }

    /** One write of a full buffer. */
    method Relieve()
      requires Valid() && |buffer| == capacity
      modifies this`buffer, this`eof, this`calls, this`sent
      ensures Valid() && (if old(eof) then eof && calls == old(calls) && sent == old(sent) else calls == old(calls) + 1)
      ensures |sent| - |old(sent)| == |old(buffer)| - |buffer| == Room(script, old(calls), calls, capacity)
      ensures old(calls) >= |script| ==> eof
    {
      var r := Flush(true);
      assert Room(script, old(calls), old(calls), capacity) == 0;
    }

    /** Takes in as many of the bytes from n on as there is room for. */
    method Fill(data: seq<Byte>, n: nat) returns (n': nat)
      requires Valid() && n <= |data|
      modifies this`buffer, this`accepted
      ensures Valid() && n <= n' <= |data| && (n' < |data| ==> |buffer| == capacity)
      ensures buffer == old(buffer) + data[n..n'] && accepted == old(accepted) + data[n..n']
    {
      n' := n + if capacity - |buffer| < |data| - n then capacity - |buffer| else |data| - n;
      buffer := buffer + data[n..n'];
      accepted := accepted + data[n..n'];
    }

    /** Takes data into the buffer, which it writes out whenever it is full, and only then; n of
        the bytes are accepted, and all of them unless the socket has failed. */
    method Xsputn(data: seq<Byte>) returns (n: nat)
      requires Valid()
      modifies this
      ensures Valid() && n <= |data|
      ensures accepted == old(accepted) + data[..n]
      ensures n < |data| ==> eof
      ensures calls >= old(calls) && (old(eof) ==> eof && calls == old(calls) && sent == old(sent))
      ensures |sent| - |old(sent)| == Room(script, old(calls), calls, capacity)
      ensures forall i :: old(calls) <= i < calls ==> Full(|old(buffer)|, |data|, old(calls), i)
      ensures |old(buffer)| + |data| >= capacity && !old(eof) ==> calls > old(calls)
    {
      n := 0;
      ghost var from, k := calls, |buffer|;
      while true
        invariant Valid() && n <= |data| && accepted == old(accepted) + data[..n] && calls >= from
        invariant eof == old(eof) && (eof ==> calls == from && sent == old(sent))
        invariant |sent| - |old(sent)| == Room(script, from, calls, capacity)
        invariant |buffer| + |data| - n == k + |data| - Room(script, from, calls, capacity)
        invariant forall i :: from <= i < calls ==> Full(k, |data|, from, i)
        decreases if calls < |script| then |script| - calls else 0, |data| - n
      {
        ghost var was, call := n, calls;
        n := FillAndRelieve(data, n);
        assert data[..n] == data[..was] + data[was..n];
        assert calls > call ==> Full(k, |data|, from, call);
        if eof || n == |data| {
          break;
        }
      }
    }

    /** Takes in more, and writes if that fills the buffer. */
    method FillAndRelieve(data: seq<Byte>, n: nat) returns (n': nat)
      requires Valid() && n <= |data|
      modifies this
      ensures Valid() && n <= n' <= |data| && accepted == old(accepted) + data[n..n']
      ensures n' < |data| ==> |old(buffer)| + |data| - n >= capacity
      ensures old(eof) ==> eof && calls == old(calls) && sent == old(sent)
      ensures !old(eof) ==> calls == old(calls) + if |old(buffer)| + |data| - n >= capacity then 1 else 0
      ensures eof && !old(eof) ==> calls > old(calls)
      ensures |sent| - |old(sent)| == Room(script, old(calls), calls, capacity)
      ensures |buffer| + |sent| - |old(sent)| == |old(buffer)| + n' - n
      ensures n' < |data| && old(calls) >= |script| ==> eof
    {
      n' := Fill(data, n);
      if |buffer| == capacity {
        Relieve();
      }
    }
  }

  lemma Suffix(bytes: seq<Byte>, rest: seq<Byte>, before: seq<Byte>, now: seq<Byte>)
    requires now + rest == before + bytes && |rest| <= |bytes|
    ensures var n := |bytes| - |rest|; rest == bytes[n..] && now == before + bytes[..n]
  {
    var n := |bytes| - |rest|;
    assert before + bytes == before + bytes[..n] + bytes[n..];
    assert |now| == |before| + n;
    assert (now + rest)[..|now|] == now && (now + rest)[|now|..] == rest;
    assert (before + bytes)[..|before| + n] == before + bytes[..n];
    assert (before + bytes)[|before| + n..] == bytes[n..];
  }
}
