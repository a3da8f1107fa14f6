/** The frames in the log of the protocol, as the allocator sees them: every run of the protocol
    emits frames as the real-time task may, so that they survive as long as those do. */
module ProtocolMemory {
  import opened Common
  import opened SignalLists
  import opened Protocol
  import opened ProtocolInvariant
  import ProtocolTheorems
  import PdoMemory
  import FrameSurvival

  function MemSizes(cfg: Config): seq<nat> {
    seq(|cfg|, s requires 0 <= s < |cfg| => cfg[s].memSize)
  }

  /** What a frame of the log takes in memory behind its header. */
  function FrameOf(p: Pdo): PdoMemory.Frame {
    match p
    case SignalListPdo(_, l) => PdoMemory.ListFrame(|l|)
    case DataPdo(_, _, data) => PdoMemory.DataFrame(|data|)
  }

  function FramesOf(log: seq<Pdo>): (fs: seq<PdoMemory.Frame>)
    ensures |fs| == |log|
  {
    seq(|log|, i requires 0 <= i < |log| => FrameOf(log[i]))
  }

  // ---- Subscribed signals and what they take ----

  function On(n: nat, l: seq<nat>): seq<bool> {
    seq(n, s => s in l)
  }

  lemma {:induction false} CountOneMore(on: seq<bool>, s: nat)
    requires s < |on| && !on[s]
    ensures FrameSurvival.Count(on[s := true]) == FrameSurvival.Count(on) + 1
  {
    var n := |on| - 1;
    if s == n {
      assert on[s := true][..n] == on[..n];
    } else {
      CountOneMore(on[..n], s);
      assert on[s := true][..n] == on[..n][s := true];
    }
  }

  lemma {:induction false} BytesOneMore(sizes: seq<nat>, on: seq<bool>, s: nat)
    requires s < |on| <= |sizes| && !on[s]
    ensures FrameSurvival.Bytes(sizes, on[s := true]) == FrameSurvival.Bytes(sizes, on) + sizes[s]
  {
    var n := |on| - 1;
    if s == n {
      assert on[s := true][..n] == on[..n];
    } else {
      BytesOneMore(sizes, on[..n], s);
      assert on[s := true][..n] == on[..n][s := true];
    }
  }

  /** A list without duplicates has as many signals as are subscribed, and their sizes. */
  lemma {:induction false} ListedSizes(cfg: Config, l: seq<nat>)
    requires NoDup(l) && InRange(cfg, l)
    ensures FrameSurvival.Count(On(|cfg|, l)) == |l|
    ensures FrameSurvival.Bytes(MemSizes(cfg), On(|cfg|, l)) == TotalSize(cfg, l)
  {
    var n := |cfg|;
    if l == [] {
      assert On(n, []) == FrameSurvival.NoneOn(n);
      FrameSurvival.NoBytes(MemSizes(cfg), n);
    } else {
      var before, s := l[..|l| - 1], l[|l| - 1];
      ListedSizes(cfg, before);
      assert l == before + [s] && s !in before;
      assert On(n, l) == On(n, before)[s := true];
      CountOneMore(On(n, before), s);
      BytesOneMore(MemSizes(cfg), On(n, before), s);
    }
  }

  // ---- The shape of the log ----

  /** Before the first frame, nothing is subscribed; it is a data frame; and data follows every
      list. */
  ghost predicate Shaped(st: State) {
    && |st.history| > 0 && st.history[0] == NO_SIGNALS
    && (st.log == [] ==> |st.history| == 1 && st.pending == [] && (st.rt.phase.Idle? || st.rt.phase.Copying?))
    && (st.log != [] ==> st.log[0].DataPdo? && st.log[0].listId == 0)
    && (forall i, j :: 0 <= i && j == i + 1 && j < |st.log| && st.log[i].SignalListPdo? ==> st.log[j].DataPdo?)
    && (st.log != [] && st.log[|st.log| - 1].SignalListPdo? ==> st.rt.phase.Copying?)
  }

  lemma ShapedOnEmit(cfg: Config, st: State, a: Action)
    requires ValidConfig(cfg) && Inv(cfg, st) && Enabled(cfg, st, a) && Shaped(st)
    requires a.RtEmitList? || a.RtEmitData?
    ensures Shaped(Next(cfg, st, a))
  {
  }

  lemma ShapedOnPublish(cfg: Config, st: State, a: Action)
    requires ValidConfig(cfg) && Inv(cfg, st) && Enabled(cfg, st, a) && Shaped(st)
    requires a.Subscribe? || a.Unsubscribe?
    ensures Shaped(Next(cfg, st, a))
  {
    assert SessionOk(cfg, st.nrt, st.log, st.history, a.sid, st.sessions[a.sid]);
  }

  lemma ShapedKeeps(cfg: Config, st: State, a: Action)
    requires ValidConfig(cfg) && Inv(cfg, st) && Enabled(cfg, st, a) && Shaped(st)
    ensures Shaped(Next(cfg, st, a))
  {
    if a.RtEmitList? || a.RtEmitData? {
      ShapedOnEmit(cfg, st, a);
    } else if a.Subscribe? || a.Unsubscribe? {
      ShapedOnPublish(cfg, st, a);
    }
  }

  lemma {:induction false} RunShaped(cfg: Config, steps: seq<Action>)
    requires ValidConfig(cfg) && Run(cfg, steps).Some?
    ensures Shaped(Run(cfg, steps).value)
  {
    if steps != [] {
      var before, a := steps[..|steps| - 1], steps[|steps| - 1];
      RunShaped(cfg, before);
      ShapedKeeps(cfg, Run(cfg, before).value, a);
    }
  }

  // ---- The log as emissions ----

  ghost function EmissionOf(cfg: Config, history: seq<Lists>, p: Pdo): FrameSurvival.Emission
    requires p.listId < |history|
  {
    FrameSurvival.Emission(p.SignalListPdo?, On(|cfg|, Flatten(history[p.listId])))
  }

  ghost function Emissions(cfg: Config, st: State, n: nat): (es: seq<FrameSurvival.Emission>)
    requires ValidConfig(cfg) && Inv(cfg, st) && n <= |st.log|
    ensures |es| == n
  {
    seq(n, i requires 0 <= i < n =>
      assert PdoOk(cfg, st.log, st.samples, st.history, i);
      EmissionOf(cfg, st.history, st.log[i]))
  }

  lemma FrameIsEmission(cfg: Config, st: State, i: nat)
    requires ValidConfig(cfg) && Inv(cfg, st) && i < |st.log|
    ensures st.log[i].listId < |st.history|
    ensures FrameSurvival.FrameOf(MemSizes(cfg), EmissionOf(cfg, st.history, st.log[i])) == FrameOf(st.log[i])
  {
    assert PdoOk(cfg, st.log, st.samples, st.history, i);
    var l := Flatten(st.history[st.log[i].listId]);
    FlattenListed(cfg, st.history[st.log[i].listId]);
    ListedSizes(cfg, l);
    if st.log[i].DataPdo? {
      EncodeLength(cfg, st.samples[i], l);
    }
  }

  lemma {:induction false} LogIsEmittable(cfg: Config, st: State, n: nat)
    requires ValidConfig(cfg) && Inv(cfg, st) && Shaped(st) && n <= |st.log|
    ensures FrameSurvival.Emittable(MemSizes(cfg), Emissions(cfg, st, n))
    decreases n
  {
    if n > 0 {
      LogIsEmittable(cfg, st, n - 1);
      var es := Emissions(cfg, st, n);
      assert es[..n - 1] == Emissions(cfg, st, n - 1);
      assert PdoOk(cfg, st.log, st.samples, st.history, n - 1);
      if n == 1 {
        assert On(|cfg|, Flatten(NO_SIGNALS)) == FrameSurvival.NoneOn(|cfg|);
      } else {
        assert PdoOk(cfg, st.log, st.samples, st.history, n - 2);
        assert FrameSurvival.Follows(es[n - 2], es[n - 1]);
      }
    }
  }

  lemma LogFrames(cfg: Config, st: State)
    requires ValidConfig(cfg) && Inv(cfg, st)
    ensures FrameSurvival.Frames(MemSizes(cfg), Emissions(cfg, st, |st.log|)) == FramesOf(st.log)
  {
    forall i | 0 <= i < |st.log|
      ensures FrameSurvival.Frames(MemSizes(cfg), Emissions(cfg, st, |st.log|))[i] == FramesOf(st.log)[i]
    {
      FrameIsEmission(cfg, st, i);
    }
  }

  /** In every run of the protocol, a frame of the log stays intact until minPdoCount - 2 more have
      been emitted, on the condition that is exact for the frames of the real-time task. */
  lemma {:induction false} LogSurvives(cfg: Config, steps: seq<Action>, shmem: nat, m: nat, i: nat, k: nat)
    requires ValidConfig(cfg) && Run(cfg, steps).Some? && FrameSurvival.Positive(MemSizes(cfg))
    requires shmem % PdoMemory.WORD == 0 && m >= 10
    requires FrameSurvival.EnoughRoom(|cfg|, FrameSurvival.Total(MemSizes(cfg)), m)
    requires i < k < |Run(cfg, steps).value.log| && k - i <= m - 2
    ensures var r := PdoMemory.Prepare(shmem, |cfg|, FrameSurvival.Total(MemSizes(cfg)), m);
            PdoMemory.Intact(r, FramesOf(Run(cfg, steps).value.log), i, k)
  {
    var st, sizes := Run(cfg, steps).value, MemSizes(cfg);
    RunShaped(cfg, steps);
    LogIsEmittable(cfg, st, |st.log|);
    LogFrames(cfg, st);
    FrameSurvival.Survive(shmem, sizes, m, Emissions(cfg, st, |st.log|), i, k);
  }
}
