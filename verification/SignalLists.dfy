/** The swap-remove signal lists that the non-real-time (NRT) and the real-time (RT)
    process each keep, the commands that change them, and the byte layout that a
    list gives to a data frame. */
module SignalLists {
  import opened Common

  /** What the protocol needs to know of a signal: the index of its alignment class
      (0 to 3) and its size in bytes. */
  datatype SignalInfo = SignalInfo(width: nat, memSize: nat)

  type Config = seq<SignalInfo>

  /** One ordered list of signal indices per alignment class. */
  type Lists = ls: seq<seq<nat>> | |ls| == 4 witness [[], [], [], []]

  const NO_SIGNALS: Lists := [[], [], [], []]

  /** Marks a signal that the loaded list does not contain. */
  const NOT_TRANSFERRED: nat := 0xFFFF_FFFF

  datatype Command =
    | Insert(signal: nat, id: nat)
    | Remove(signal: nat, position: nat, id: nat)

  ghost predicate ValidConfig(cfg: Config) {
    forall i :: 0 <= i < |cfg| ==> cfg[i].width < 4
  }

  ghost predicate NoDup(s: seq<nat>) {
    forall i, j :: 0 <= i < j < |s| ==> s[i] != s[j]
  }

  ghost predicate ClassOk(cfg: Config, w: nat, l: seq<nat>) {
    && NoDup(l)
    && forall i :: 0 <= i < |l| ==> l[i] < |cfg| && cfg[l[i]].width == w
  }

  ghost predicate WellFormed(cfg: Config, ls: Lists) {
    forall w :: 0 <= w < 4 ==> ClassOk(cfg, w, ls[w])
  }

  ghost predicate Listed(cfg: Config, ls: Lists, s: nat)
    requires ValidConfig(cfg)
  {
    s < |cfg| && s in ls[cfg[s].width]
  }

  /** A removal is replayed by position, so the position has to name the signal. */
  ghost predicate Applicable(cfg: Config, ls: Lists, c: Command)
    requires ValidConfig(cfg)
  {
    && c.signal < |cfg|
    && match c
       case Insert(s, _) => s !in ls[cfg[s].width]
       case Remove(s, p, _) => p < |ls[cfg[s].width]| && ls[cfg[s].width][p] == s
  }

  /** The last element takes the place of the one at p. */
  function SwapRemove(l: seq<nat>, p: nat): seq<nat>
    requires p < |l|
  {
    l[p := l[|l| - 1]][..|l| - 1]
  }

  function Apply(cfg: Config, ls: Lists, c: Command): Lists
    requires ValidConfig(cfg) && Applicable(cfg, ls, c)
  {
    var w := cfg[c.signal].width;
    match c
    case Insert(s, _) => ls[w := ls[w] + [s]]
    case Remove(_, p, _) => ls[w := SwapRemove(ls[w], p)]
  }

  lemma SwapRemoveMembers(l: seq<nat>, p: nat)
    requires p < |l| && NoDup(l)
    ensures NoDup(SwapRemove(l, p))
    ensures forall x :: x in SwapRemove(l, p) <==> x in l && x != l[p]
  {
    var r := SwapRemove(l, p);
    forall x | x in l && x != l[p]
      ensures x in r
    {
      var i :| 0 <= i < |l| && l[i] == x;
      assert i < |r| ==> r[i] == x;
      assert i == |l| - 1 ==> r[p] == x;
    }
  }

  /** A command keeps lists well formed and changes the listing of its own signal only. */
  lemma ApplyKeeps(cfg: Config, ls: Lists, c: Command)
    requires ValidConfig(cfg) && WellFormed(cfg, ls) && Applicable(cfg, ls, c)
    ensures WellFormed(cfg, Apply(cfg, ls, c))
    ensures forall s :: s != c.signal ==> (Listed(cfg, Apply(cfg, ls, c), s) <==> Listed(cfg, ls, s))
    ensures Listed(cfg, Apply(cfg, ls, c), c.signal) <==> c.Insert?
  {
    var w := cfg[c.signal].width;
    var r := Apply(cfg, ls, c);
    assert ClassOk(cfg, w, ls[w]);
    if c.Remove? {
      SwapRemoveMembers(ls[w], c.position);
      assert forall i :: 0 <= i < |r[w]| ==> r[w][i] in r[w];
    }
    assert ClassOk(cfg, w, r[w]);
    forall v | 0 <= v < 4 && v != w
      ensures ClassOk(cfg, v, r[v])
    {
      assert ClassOk(cfg, v, ls[v]);
    }
  }

  // ---- The order in which both ends walk the four lists ----

  function Flatten(ls: Lists): seq<nat> {
    ls[0] + ls[1] + ls[2] + ls[3]
  }

  lemma NoDupConcat(a: seq<nat>, b: seq<nat>)
    requires NoDup(a) && NoDup(b)
    requires forall x :: x in a ==> x !in b
    ensures NoDup(a + b)
  {
    forall i, j | 0 <= i < j < |a + b|
      ensures (a + b)[i] != (a + b)[j]
    {
      if i < |a| <= j {
        assert a[i] in a && b[j - |a|] in b;
      }
    }
  }

  /** The transmitted order holds each listed signal exactly once, and nothing else. */
  lemma FlattenListed(cfg: Config, ls: Lists)
    requires ValidConfig(cfg) && WellFormed(cfg, ls)
    ensures NoDup(Flatten(ls))
    ensures forall s :: s in Flatten(ls) <==> Listed(cfg, ls, s)
    ensures forall i :: 0 <= i < |Flatten(ls)| ==> Flatten(ls)[i] < |cfg|
  {
    assert forall w :: 0 <= w < 4 ==> ClassOk(cfg, w, ls[w]);
    assert ClassOk(cfg, 0, ls[0]) && ClassOk(cfg, 1, ls[1]) && ClassOk(cfg, 2, ls[2]) && ClassOk(cfg, 3, ls[3]);
    assert forall w, s :: 0 <= w < 4 && s in ls[w] ==> s < |cfg| && cfg[s].width == w;
    NoDupConcat(ls[0], ls[1]);
    NoDupConcat(ls[0] + ls[1], ls[2]);
    NoDupConcat(ls[0] + ls[1] + ls[2], ls[3]);
    forall s
      ensures s in Flatten(ls) <==> Listed(cfg, ls, s)
    {
      assert s in Flatten(ls) <==> s in ls[0] || s in ls[1] || s in ls[2] || s in ls[3];
    }
    forall i | 0 <= i < |Flatten(ls)|
      ensures Flatten(ls)[i] < |cfg|
    {
      assert Flatten(ls)[i] in Flatten(ls);
    }
  }

  // ---- Allotments: no class list outgrows the number of signals of its class ----

  ghost function Members(cfg: Config, w: nat): set<nat> {
    set s | 0 <= s < |cfg| && cfg[s].width == w
  }

  lemma NoDupCard(l: seq<nat>, m: set<nat>)
    requires NoDup(l) && forall x :: x in l ==> x in m
    ensures |l| <= |m|
  {
    if l != [] {
      var rest := l[..|l| - 1];
      assert forall x :: x in rest ==> x in l;
      assert forall i :: 0 <= i < |rest| ==> rest[i] == l[i];
      forall x | x in rest
        ensures x in m - {l[|l| - 1]}
      {
        var i :| 0 <= i < |rest| && rest[i] == x;
      }
      NoDupCard(rest, m - {l[|l| - 1]});
    }
  }

  lemma ClassFits(cfg: Config, w: nat, l: seq<nat>)
    requires ClassOk(cfg, w, l)
    ensures |l| <= |Members(cfg, w)|
    ensures forall s :: 0 <= s < |cfg| && cfg[s].width == w && s !in l ==> |l| < |Members(cfg, w)|
  {
    forall x | x in l
      ensures x in Members(cfg, w)
    {
      var i :| 0 <= i < |l| && l[i] == x;
    }
    NoDupCard(l, Members(cfg, w));
    forall s | 0 <= s < |cfg| && cfg[s].width == w && s !in l
      ensures |l| < |Members(cfg, w)|
    {
      NoDupCard(l, Members(cfg, w) - {s});
    }
  }

  // ---- Byte layout of a data frame ----

  function TotalSize(cfg: Config, l: seq<nat>): nat {
    if l == [] then 0
    else TotalSize(cfg, l[..|l| - 1]) + (if l[|l| - 1] < |cfg| then cfg[l[|l| - 1]].memSize else 0)
  }

  /** mem holds the current value of every signal of the configuration. */
  ghost predicate ValidMemory(cfg: Config, mem: seq<seq<Byte>>) {
    |mem| == |cfg| && forall s :: 0 <= s < |cfg| ==> |mem[s]| == cfg[s].memSize
  }

  ghost predicate InRange(cfg: Config, l: seq<nat>) {
    forall i :: 0 <= i < |l| ==> l[i] < |cfg|
  }

  function Encode(mem: seq<seq<Byte>>, l: seq<nat>): seq<Byte>
    requires forall i :: 0 <= i < |l| ==> l[i] < |mem|
  {
    if l == [] then [] else Encode(mem, l[..|l| - 1]) + mem[l[|l| - 1]]
  }

  lemma {:induction false} EncodeLength(cfg: Config, mem: seq<seq<Byte>>, l: seq<nat>)
    requires ValidMemory(cfg, mem) && InRange(cfg, l)
    ensures |Encode(mem, l)| == TotalSize(cfg, l)
  {
    if l != [] {
      EncodeLength(cfg, mem, l[..|l| - 1]);
    }
  }

  /** The bytes of the i-th listed signal start where the sizes of its predecessors end. */
  lemma {:induction false} EncodeSlice(cfg: Config, mem: seq<seq<Byte>>, l: seq<nat>, i: nat)
    requires ValidMemory(cfg, mem) && InRange(cfg, l) && i < |l|
    ensures var o := TotalSize(cfg, l[..i]);
            o + cfg[l[i]].memSize <= |Encode(mem, l)|
            && Encode(mem, l)[o..o + cfg[l[i]].memSize] == mem[l[i]]
  {
    var init := l[..|l| - 1];
    EncodeLength(cfg, mem, init);
    if i == |l| - 1 {
    } else {
      assert init[..i] == l[..i];
      EncodeSlice(cfg, mem, init, i);
    }
  }

  /** The offset table that a session computes when it loads a list of signals. */
  function Positions(cfg: Config, l: seq<nat>): (p: seq<nat>)
    requires InRange(cfg, l)
    ensures |p| == |cfg|
  {
    if l == [] then seq(|cfg|, _ => NOT_TRANSFERRED)
    else Positions(cfg, l[..|l| - 1])[l[|l| - 1] := TotalSize(cfg, l[..|l| - 1])]
  }

  lemma {:induction false} PositionOf(cfg: Config, l: seq<nat>, i: nat)
    requires InRange(cfg, l) && NoDup(l) && i < |l|
    ensures Positions(cfg, l)[l[i]] == TotalSize(cfg, l[..i])
  {
    if i < |l| - 1 {
      assert l[..|l| - 1][..i] == l[..i];
      PositionOf(cfg, l[..|l| - 1], i);
    }
  }

  lemma {:induction false} PositionAbsent(cfg: Config, l: seq<nat>, s: nat)
    requires InRange(cfg, l) && s < |cfg| && s !in l
    ensures Positions(cfg, l)[s] == NOT_TRANSFERRED
  {
    if l != [] {
      assert l[|l| - 1] in l;
      PositionAbsent(cfg, l[..|l| - 1], s);
    }
  }

  /** Decoding inverts encoding: the bytes at a listed signal's position are the bytes
      that were read from the signal. */
  lemma DecodeEncode(cfg: Config, mem: seq<seq<Byte>>, l: seq<nat>, s: nat)
    requires ValidMemory(cfg, mem) && InRange(cfg, l) && NoDup(l) && s in l
    ensures var o := Positions(cfg, l)[s];
            o + cfg[s].memSize <= |Encode(mem, l)|
            && Encode(mem, l)[o..o + cfg[s].memSize] == mem[s]
  {
    var i :| 0 <= i < |l| && l[i] == s;
    PositionOf(cfg, l, i);
    EncodeSlice(cfg, mem, l, i);
  }
}
