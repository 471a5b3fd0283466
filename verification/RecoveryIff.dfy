/** Exactly which configurations recover from every crash, and in exactly which every logger keeps its bound. */
module RecoveryIff {
  import opened TidWords
  import opened System
  import C = CommitModel
  import CI = CommitInv
  import CT = CommitTheorems
  import EF = EpochFrontier
  import D = LogModel
  import DI = LogInv
  import DT = LogTheorems
  import FC = FirstCommit
  import R = Recovery
  import RB = RecoveryFromBytes
  import TW = TwoWorkers
  import WL = WorkerLoops
  import SR = SystemRuns
  import FB = FullBuffers
  import BlindRuns
  import LostWrites
  import LoneLoggers

  // ---- One logger with workers 0 and 1, in this order ---------------------------------------

  /** What worker w has in flight in the pipeline is the epoch it has loaded; for the leader, the current. */
  ghost predicate Loaded(s: State, w: nat) {
    && w < |s.c.ws| && w < |s.d.ws|
    && var e := TW.InFlight(s.d.ws[w]);
    e.Some? ==> e.value == EF.LoadedEpoch(s.c.ws[w]) && (w == 0 ==> e.value == s.c.ge)
  }

  ghost predicate AllLoaded(s: State) {
    forall w :: 0 <= w < |s.c.ws| ==> Loaded(s, w)
  }

  lemma LoadedSame(c: C.State, w: nat, a: C.Action)
    requires C.Enabled(c, w, a) && !a.EpochWork? && !(a.Next? && c.ws[w].pc.EpochLoad?)
    ensures w < |C.Apply(c, w, a).ws| && EF.LoadedEpoch(C.Apply(c, w, a).ws[w]) == EF.LoadedEpoch(c.ws[w])
  {
    if a.Next? { LoadedNext(c, w); }
  }

  lemma LoadedNext(c: C.State, w: nat)
    requires C.Enabled(c, w, C.Next) && !c.ws[w].pc.EpochLoad?
    ensures w < |C.NextStep(c, w).ws| && EF.LoadedEpoch(C.NextStep(c, w).ws[w]) == EF.LoadedEpoch(c.ws[w])
  {
  }

  /** Only a load of GlobalEpoch puts an epoch in flight. */
  lemma FlightSame(d: D.State, e: D.Action, w: nat)
    requires D.Enabled(d, e) && w < |d.ws| && !e.EpochLoaded? && !e.EwLoad?
    ensures |D.Apply(d, e).ws| == |d.ws|
    ensures var f := TW.InFlight(D.Apply(d, e).ws[w]); f == TW.InFlight(d.ws[w]) || f.None?
  {
    if e.LoggerStep? {
      LoggerFlight(d, e.l, w);
    } else if e.WorkerStep? {
      WorkerFlight(d, e.w, w);
    }
  }

  lemma LoggerFlight(d: D.State, l: nat, w: nat)
    requires D.Enabled(d, D.LoggerStep(l)) && w < |d.ws|
    ensures |D.LoggerStepOf(d, l).ws| == |d.ws| && D.LoggerStepOf(d, l).ws[w].pc == d.ws[w].pc
  {
    if d.ls[l].pc.WriteOut? {
      assert D.WriteOutStep(d, l).ws[w].pc == d.ws[w].pc;
    } else if d.ls[l].pc.StoreBound? {
      assert D.StoreBoundStep(d, l).ws == d.ws;
    } else {
      DT.LoggerPcOnly(d, l);
    }
  }

  lemma WorkerFlight(d: D.State, v: nat, w: nat)
    requires D.Enabled(d, D.WorkerStep(v)) && w < |d.ws|
    ensures |D.WorkerStepOf(d, v).ws| == |d.ws|
    ensures var f := TW.InFlight(D.WorkerStepOf(d, v).ws[w]); f == TW.InFlight(d.ws[w]) || f.None?
  {
    DT.WorkerStepFrame(d, v);
  }

  lemma OwnLoaded(s: State, w: nat, a: C.Action)
    requires Inv(s) && Enabled(s, Tx(w, a)) && Loaded(s, w)
    ensures Loaded(Apply(s, Tx(w, a)), w)
  {
    if a.EpochWork? {
      WorkLoaded(s, w);
    } else if a.Next? && s.c.ws[w].pc.EpochLoad? {
      WindowLoaded(s, w);
    } else {
      LoadedSame(s.c, w, a);
      EventFlight(s, w, a);
    }
  }

  lemma WorkLoaded(s: State, w: nat)
    requires Enabled(s, Tx(w, C.EpochWork)) && w < |s.d.ws| && s.c.ge == s.d.ge
    ensures Loaded(Apply(s, Tx(w, C.EpochWork)), w)
  {
  }

  lemma WindowLoaded(s: State, w: nat)
    requires Enabled(s, Tx(w, C.Next)) && s.c.ws[w].pc.EpochLoad? && w < |s.d.ws| && s.c.ge == s.d.ge
    ensures Loaded(Apply(s, Tx(w, C.Next)), w)
  {
  }

  lemma EventFlight(s: State, w: nat, a: C.Action)
    requires Inv(s) && Enabled(s, Tx(w, a)) && !a.EpochWork? && !(a.Next? && s.c.ws[w].pc.EpochLoad?)
    ensures var s' := Apply(s, Tx(w, a));
            && w < |s.d.ws| == |s'.d.ws|
            && (TW.InFlight(s'.d.ws[w]) == TW.InFlight(s.d.ws[w]) || TW.InFlight(s'.d.ws[w]).None?)
            && (TW.InFlight(s'.d.ws[w]).Some? ==> s'.c.ge == s.c.ge)
  {
    assert LinkOk(s, w);
    EF.ClockMoves(s.c, w, a);
    if Event(s.c, w, a).Some? {
      NoLoad(s.c, w, a);
      FlightSame(s.d, Event(s.c, w, a).value, w);
    }
  }

  lemma NoLoad(c: C.State, w: nat, a: C.Action)
    requires C.Enabled(c, w, a) && Event(c, w, a).Some? && !a.EpochWork? && !(a.Next? && c.ws[w].pc.EpochLoad?)
    ensures !Event(c, w, a).value.EpochLoaded? && !Event(c, w, a).value.EwLoad?
  {
  }

  lemma StepLoaded(s: State, a: Action)
    requires Inv(s) && Enabled(s, a) && AllLoaded(s)
    ensures AllLoaded(Apply(s, a))
  {
    match a {
      case Pipe(e) => PipeLoaded(s, e);
      case Tx(v, ca) => TxLoaded(s, v, ca);
    }
  }

  lemma PipeLoaded(s: State, e: D.Action)
    requires Inv(s) && Enabled(s, Pipe(e)) && AllLoaded(s)
    ensures AllLoaded(Apply(s, Pipe(e)))
  {
    PipeClock(s.d, e);
    forall w | 0 <= w < |s.c.ws| ensures Loaded(Apply(s, Pipe(e)), w) {
      assert Loaded(s, w);
      FlightSame(s.d, e, w);
    }
  }

  lemma TxLoaded(s: State, v: nat, a: C.Action)
    requires Inv(s) && Enabled(s, Tx(v, a)) && AllLoaded(s)
    ensures AllLoaded(Apply(s, Tx(v, a)))
  {
    var s' := Apply(s, Tx(v, a));
    EF.ClockMoves(s.c, v, a);
    forall w | 0 <= w < |s'.c.ws| ensures Loaded(s', w) {
      assert Loaded(s, w);
      if w == v { OwnLoaded(s, v, a); } else { OthersLoaded(s, v, a, w); }
    }
  }

  lemma OthersLoaded(s: State, v: nat, a: C.Action, w: nat)
    requires Inv(s) && Enabled(s, Tx(v, a)) && w != v && Loaded(s, w)
    ensures Loaded(Apply(s, Tx(v, a)), w)
  {
    OtherRecordKept(s, v, a, w);
    EF.ClockMoves(s.c, v, a);
    assert CI.WorkerOk(s.c, v);
  }

  lemma TimelyNow(s: State)
    requires Inv(s) && AllLoaded(s) && EF.Frontier(s.c) && TW.Sole(s.d)
    ensures TW.Timely(s.d)
  {
    assert Loaded(s, 0) && Loaded(s, 1) && EF.ClockOk(s.c, 1);
  }

  /** The invariant of such a configuration. */
  ghost predicate TwoInv(s: State) {
    TW.Two(s.d) && AllLoaded(s) && EF.Frontier(s.c)
  }

  lemma StepKeepsTwoInv(s: State, a: Action)
    requires Inv(s) && Bounded(s) && Enabled(s, a) && TwoInv(s)
    ensures TwoInv(Apply(s, a))
  {
    TimelyNow(s);
    StepLoaded(s, a);
    match a {
      case Pipe(e) =>
        TW.StepKeepsTwo(s.d, e);
      case Tx(w, ca) =>
        EF.StepKeepsFrontier(s.c, w, ca);
        if Event(s.c, w, ca).Some? { TW.StepKeepsTwo(s.d, Event(s.c, w, ca).value); }
    }
  }

  lemma {:induction false} RunKeepsTwoInv(s: State, trace: seq<Action>, s': State)
    requires Inv(s) && CT.SlotsPending(s.c) && Reaches(s, trace, s') && Bounded(s') && TwoInv(s)
    ensures TwoInv(s')
    decreases |trace|
  {
    if trace != [] {
      StepGrows(s, trace[0]);
      RunGrows(s, trace, s');
      RunGrows(Apply(s, trace[0]), trace[1..], s');
      StepKeepsInv(s, trace[0]);
      StepKeepsTwoInv(s, trace[0]);
      RunKeepsTwoInv(Apply(s, trace[0]), trace[1..], s');
    }
  }

  lemma InitTwo(g: Config)
    requires ValidConfig(g) && g.members == [[0, 1]]
    ensures TwoInv(InitState(g))
  {
    var d := InitState(g).d;
    TwoThreads(g);
    assert d.ls == [D.InitLogger([0, 1])];
    assert d.ws == [D.InitWorker(0), D.InitWorker(1)];
  }

  lemma TwoThreads(g: Config)
    requires ValidConfig(g) && g.members == [[0, 1]]
    ensures g.loggerOf == [0, 0]
  {
    assert g.members[0] == [0, 1] && g.members[0][1] < |g.loggerOf|;
    InFirst(g, 0);
    InFirst(g, 1);
    if |g.loggerOf| > 2 { InFirst(g, 2); }
  }

  lemma InFirst(g: Config, w: nat)
    requires ValidConfig(g) && g.members == [[0, 1]] && w < |g.loggerOf|
    ensures g.loggerOf[w] == 0 && w < 2
  {
    assert w in g.members[g.loggerOf[w]];
  }

  /** All that is not on disk lies above DurableEpoch. */
  lemma TwoKept(s: State)
    requires Inv(s) && TW.Two(s.d)
    ensures R.Kept(s, s.d.durable)
  {
    forall w | 0 <= w < |s.d.ws| ensures D.WorkerIn(s.d, w) && R.WorkerKept(s.d, w, s.d.durable) {
      OneKept(s.d, w);
    }
  }

  lemma OneKept(d: D.State, w: nat)
    requires DI.Inv(d) && TW.Two(d) && w < |d.ws|
    ensures D.WorkerIn(d, w) && R.WorkerKept(d, w, d.durable)
  {
    assert D.WorkerIn(d, w) && DI.WorkerOk(d.ws[w], w, d.ge);
    LaterAbove(d.ws[w], w, d.ge, d.durable);
    DT.DurableFrom(d, w, d.durable);
  }

  lemma LaterAbove(x: D.LogWorker, w: nat, ge: nat, e: nat)
    requires DI.WorkerOk(x, w, ge) && TW.Later(x, ge, e + 1)
    ensures DT.AllAbove(DI.CurOf(x), e) && (x.pc.Window? ==> x.pc.epoch > e)
    ensures Underway(x) != [] ==> DI.PushAbove(x.pc.push, e)
  {
    if x.cur.Some? {
      TW.CurrentLater(x, w, ge, e + 1);
      DT.BufferAbove(x.cur.value, e);
    }
  }

  lemma TwoComplete(g: Config, s: State, e: nat)
    requires Reachable(g, s) && g.members == [[0, 1]] && e <= s.d.durable
    ensures R.Complete(s, e)
  {
    ReachableInv(g, s);
    var trace :| Reaches(InitState(g), trace, s);
    InitInv(g);
    InitTwo(g);
    RunKeepsTwoInv(InitState(g), trace, s);
    TwoKept(s);
    R.KeptComplete(s, s.d.durable, e);
  }

  /** With one logger and workers 0 and 1, in this order, recovery is right in every reachable state. */
  lemma RecoveryTwoWorkers(g: Config, s: State, e: nat)
    requires Reachable(g, s) && g.members == [[0, 1]] && e <= s.d.durable
    ensures s.c.init == g.init && R.Recovered(s, e)
  {
    ReachableInv(g, s);
    TwoComplete(g, s, e);
    R.ReplayComplete(s, e);
  }

  // ---- The bounds of the loggers ------------------------------------------------------------

  /** In every state of every run each logger's bound is kept by all its workers. */
  ghost predicate BoundsKept(g: Config) {
    forall s, w: nat :: Reachable(g, s) && w < |s.d.ws| ==> FC.BoundKept(s.d, w)
  }

  ghost predicate BoundsKeptAsCoded(g: Config) {
    forall s, w: nat :: WL.CodedReachable(g, s) && w < |s.d.ws| ==> FC.BoundKept(s.d, w)
  }

  /** Once a logger has passed a worker by, its bound is not kept. */
  lemma BoundBroken(g: Config, l: nat, a: nat, b: nat) returns (s: State)
    requires BlindRuns.Pair(g, l, a, b)
    ensures WL.CodedReachable(g, s) && a < |s.d.ws| && !FC.BoundKept(s.d, a)
  {
    var t, p := BlindRuns.PassesBy(g, l, a, b);
    s := WL.Sys(t);
    SR.HereReachable(g, t, FB.ROOM - FB.FILL - 1);
    SR.ConfigOf(g, s);
    FB.Served(g, l, a);
    assert BlindRuns.BoundOne(g, t, l, a, 0, l);
    NotOnDisk(s.d, a);
  }

  lemma NotOnDisk(d: D.State, a: nat)
    requires D.WorkerIn(d, a) && d.ls[d.loggerOf[a]].durable == 1
    requires var file := d.ls[d.loggerOf[a]].file; forall i :: 0 <= i < |file| ==> file[i].owner != a
    requires |d.ws[a].hist| == 1 && |d.ws[a].hist[0]| == 1 && d.ws[a].hist[0][0].tid.epoch == 1
    ensures !FC.BoundKept(d, a)
  {
    var h, lg := d.ws[a].hist, d.ls[d.loggerOf[a]];
    NoBlocks(if lg.synced <= |lg.file| then lg.file[..lg.synced] else lg.file, a);
    assert DT.OnDisk(d.ls[d.loggerOf[a]], a) == [];
    assert h[0..] == h && !DI.PushAbove(h[0], 1);
  }

  lemma {:induction false} NoBlocks(file: seq<D.Block>, a: nat)
    requires forall i :: 0 <= i < |file| ==> file[i].owner != a
    ensures DI.FileOf(file, a) == []
  {
    if file != [] { NoBlocks(file[..|file| - 1], a); }
  }

  /** Two workers of one logger, the first of which is not the leader. */
  lemma TwoOf(g: Config, l: nat) returns (a: nat, b: nat)
    requires ValidConfig(g) && |g.init| > 0 && l < |g.members| && |g.members[l]| != 1
    ensures BlindRuns.Pair(g, l, a, b)
  {
    var x, y := g.members[l][0], g.members[l][1];
    assert x in g.members[l] && y in g.members[l] && x != y;
    if x == 0 { a, b := y, x; } else { a, b := x, y; }
  }

  /** Whatever EPOCH_DIFF is and however the worker threads pause: all bounds are kept in all runs exactly
      if no logger serves two workers. */
  lemma BoundsKeptIff(g: Config)
    requires ValidConfig(g) && |g.init| > 0
    ensures BoundsKept(g) <==> FC.OneWorkerEach(g.members)
    ensures BoundsKeptAsCoded(g) <==> FC.OneWorkerEach(g.members)
  {
    if FC.OneWorkerEach(g.members) {
      forall s, w: nat | Reachable(g, s) && w < |s.d.ws| ensures FC.BoundKept(s.d, w) { OneWorkerKept(g, s, w); }
      forall s | WL.CodedReachable(g, s) ensures Reachable(g, s) { WL.CodedIsReachable(g, s); }
    } else {
      var l :| 0 <= l < |g.members| && |g.members[l]| != 1;
      var a, b := TwoOf(g, l);
      var s := BoundBroken(g, l, a, b);
      WL.CodedIsReachable(g, s);
    }
  }

  lemma OneWorkerKept(g: Config, s: State, w: nat)
    requires Reachable(g, s) && FC.OneWorkerEach(g.members) && w < |s.d.ws|
    ensures FC.BoundKept(s.d, w)
  {
    PartsReachable(g, s);
    ReachableInv(g, s);
    FC.OneWorkerNeverBlind(g.epochDiff, g.loggerOf, g.members, s.d);
    DT.LoggerDurable(s.d, w);
  }

  /** The same of the pipeline under any behaviour of transactions and clock. */
  lemma PipelineBoundsKeptIff(epochDiff: nat, loggerOf: seq<nat>, members: seq<seq<nat>>)
    requires D.ValidConfig(loggerOf, members)
    ensures FC.BoundsKept(epochDiff, loggerOf, members) <==> FC.OneWorkerEach(members)
  {
    if FC.OneWorkerEach(members) {
      FC.OneWorkerBounds(epochDiff, loggerOf, members);
    } else {
      var g := Config(["aaaa"], seq(|loggerOf|, _ => "aaaa"), epochDiff, loggerOf, members);
      assert ValidConfig(g) by { SomeWorker(loggerOf, members); }
      var l :| 0 <= l < |g.members| && |g.members[l]| != 1;
      var a, b := TwoOf(g, l);
      var s := BoundBroken(g, l, a, b);
      WL.CodedIsReachable(g, s);
      PartsReachable(g, s);
    }
  }

  lemma SomeWorker(loggerOf: seq<nat>, members: seq<seq<nat>>)
    requires D.ValidConfig(loggerOf, members)
    ensures |loggerOf| > 0
  {
    assert members[0][0] < |loggerOf|;
  }

  // ---- Recovery -----------------------------------------------------------------------------

  /** Whatever the table and the values: after a crash in any state of any run, replay up to any durable
      epoch is right. */
  ghost predicate Recovers(epochDiff: nat, loggerOf: seq<nat>, members: seq<seq<nat>>) {
    forall init, wvals, s, e: nat ::
      Reachable(Config(init, wvals, epochDiff, loggerOf, members), s) && e <= s.d.durable ==> R.Recovered(s, e)
  }

  ghost predicate RecoversAsCoded(epochDiff: nat, loggerOf: seq<nat>, members: seq<seq<nat>>) {
    forall init, wvals, s, e: nat ::
      WL.CodedReachable(Config(init, wvals, epochDiff, loggerOf, members), s) && e <= s.d.durable ==> R.Recovered(s, e)
  }

  /** The logger of a and b is not the only one, or it asks b last. */
  predicate Losing(g: Config, l: nat, b: nat)
    requires l < |g.members|
  {
    |g.members| > 1 || (|g.members[l]| > 0 && b == g.members[l][|g.members[l]| - 1])
  }

  /** For every table and every EPOCH_DIFF: a run after which replay up to the durable epoch is wrong. */
  lemma RecoveryFails(g: Config, l: nat, a: nat, b: nat) returns (s: State)
    requires BlindRuns.Pair(g, l, a, b) && Losing(g, l, b) && LostWrites.Telling(g, a)
    requires |g.members| + FB.FILL + 5 < TID_LIMIT
    ensures WL.CodedReachable(g, s) && s.d.durable == 1 && s.c.init == g.init
    ensures R.Replay(g.init, R.DiskRecords(s.d.ls), 1) != CT.Serial(g.init, s.c.log, CT.PrefixLength(s.c.log, 1))
  {
    var p;
    if |g.members| > 1 {
      s, p := LostWrites.OtherLoggerLoses(g, l, a, b, if l == 0 then 1 else 0);
    } else {
      s, p := LoneLoggers.LoneLoggerLoses(g, a, b);
    }
    WL.CodedIsReachable(g, s);
    ReachableInv(g, s);
    LostWrites.LostIsWrong(g, s, a, p);
  }

  /** A table and values of which the value of a stands out. */
  function TellingConfig(a: nat, epochDiff: nat, loggerOf: seq<nat>, members: seq<seq<nat>>): Config {
    Config(["aaaa"], seq(|loggerOf|, v => if v == a then "zzzz" else "aaaa"), epochDiff, loggerOf, members)
  }

  lemma Tells(a: nat, epochDiff: nat, loggerOf: seq<nat>, members: seq<seq<nat>>)
    requires D.ValidConfig(loggerOf, members) && a < |loggerOf|
    ensures var g := TellingConfig(a, epochDiff, loggerOf, members);
            ValidConfig(g) && LostWrites.Telling(g, a) && RB.Loadable(g)
  {
    assert "aaaa"[0] != "zzzz"[0];
  }

  /** Two workers of one logger that lose a write, unless there is one logger with workers 0 and 1 only. */
  lemma TwoThatLose(epochDiff: nat, loggerOf: seq<nat>, members: seq<seq<nat>>, l: nat) returns (a: nat, b: nat)
    requires D.ValidConfig(loggerOf, members) && l < |members| && |members[l]| != 1 && members != [[0, 1]]
    ensures a < |loggerOf| && a != b && a != 0 && a in members[l] && b in members[l]
    ensures |members| > 1 || b == members[l][|members[l]| - 1]
  {
    var n := |members[l]|;
    b := members[l][n - 1];
    var i := if members[l][0] != 0 || n == 2 then 0 else 1;
    if members[l][i] == 0 {
      a, b := members[l][1], members[l][0];
      if |members| == 1 { OnlyTwo(loggerOf, members); }
    } else {
      a := members[l][i];
    }
    assert a in members[l] && b in members[l];
  }

  lemma OnlyTwo(loggerOf: seq<nat>, members: seq<seq<nat>>)
    requires D.ValidConfig(loggerOf, members) && |members| == 1 && |members[0]| == 2 && members[0][0] == 0
    ensures members == [[0, 1]]
  {
    var x := members[0][1];
    assert x < |loggerOf| && x != members[0][0];
    assert 1 in members[loggerOf[1]];
    assert members[0] == [0, 1];
  }

  /** The configurations that recover: no logger serves two workers, or there is one logger with two workers
      of which the leader registered first. */
  ghost predicate Safe(members: seq<seq<nat>>) {
    FC.OneWorkerEach(members) || members == [[0, 1]]
  }

  /** Every other has a run of the code after which replay is wrong. */
  lemma FailsUnlessSafe(epochDiff: nat, loggerOf: seq<nat>, members: seq<seq<nat>>) returns (g: Config, s: State)
    requires D.ValidConfig(loggerOf, members) && |members| + FB.FILL + 5 < TID_LIMIT && !Safe(members)
    ensures g == Config(g.init, g.wvals, epochDiff, loggerOf, members) && RB.Loadable(g)
    ensures WL.CodedReachable(g, s) && Reachable(g, s) && s.d.durable == 1 && s.c.init == g.init
    ensures R.Replay(g.init, R.DiskRecords(s.d.ls), 1) != CT.Serial(g.init, s.c.log, CT.PrefixLength(s.c.log, 1))
  {
    var l :| 0 <= l < |members| && |members[l]| != 1;
    var a, b := TwoThatLose(epochDiff, loggerOf, members, l);
    g := TellingConfig(a, epochDiff, loggerOf, members);
    Tells(a, epochDiff, loggerOf, members);
    s := RecoveryFails(g, l, a, b);
    WL.CodedIsReachable(g, s);
  }

  lemma SafeComplete(g: Config, s: State, e: nat)
    requires Reachable(g, s) && Safe(g.members) && e <= s.d.durable
    ensures R.Complete(s, e)
  {
    if FC.OneWorkerEach(g.members) {
      PartsReachable(g, s);
      ReachableInv(g, s);
      FC.OneWorkerNeverBlind(g.epochDiff, g.loggerOf, g.members, s.d);
      R.NeverBlindKept(s);
      R.KeptComplete(s, s.d.durable, e);
    } else {
      TwoComplete(g, s, e);
    }
  }

  /** Recovery is right after every crash exactly in these configurations. */
  lemma RecoversIff(epochDiff: nat, loggerOf: seq<nat>, members: seq<seq<nat>>)
    requires D.ValidConfig(loggerOf, members) && |members| + FB.FILL + 5 < TID_LIMIT
    ensures Recovers(epochDiff, loggerOf, members) <==> Safe(members)
    ensures RecoversAsCoded(epochDiff, loggerOf, members) <==> Safe(members)
  {
    if Safe(members) {
      forall init, wvals, s, e: nat |
        Reachable(Config(init, wvals, epochDiff, loggerOf, members), s) && e <= s.d.durable
        ensures R.Recovered(s, e)
      {
        RecoversIn(Config(init, wvals, epochDiff, loggerOf, members), s, e);
      }
      forall g, s | WL.CodedReachable(g, s) ensures Reachable(g, s) { WL.CodedIsReachable(g, s); }
    } else {
      var g, s := FailsUnlessSafe(epochDiff, loggerOf, members);
      var e: nat := 1;
      assert Reachable(Config(g.init, g.wvals, epochDiff, loggerOf, members), s) && !R.Recovered(s, e);
    }
  }

  lemma RecoversIn(g: Config, s: State, e: nat)
    requires Reachable(g, s) && e <= s.d.durable && Safe(g.members)
    ensures R.Recovered(s, e)
  {
    ReachableInv(g, s);
    SafeComplete(g, s, e);
    R.ReplayComplete(s, e);
  }

  /** Whatever the table and the values, and whatever a crash leaves of the files, torn blocks included:
      replaying their whole blocks up to any durable epoch is right. */
  ghost predicate CrashSafe(epochDiff: nat, loggerOf: seq<nat>, members: seq<seq<nat>>) {
    forall init, wvals, s, files, e: nat ::
      var g := Config(init, wvals, epochDiff, loggerOf, members);
      Reachable(g, s) && RB.Loadable(g) && RB.Left(s.d.ls, files) && e <= s.d.durable ==>
        R.Replay(init, RB.ReadWhole(files), e) == CT.Serial(init, s.c.log, CT.PrefixLength(s.c.log, e))
  }

  /** The same from bytes. */
  lemma CrashSafeIff(epochDiff: nat, loggerOf: seq<nat>, members: seq<seq<nat>>)
    requires D.ValidConfig(loggerOf, members) && |members| + FB.FILL + 5 < TID_LIMIT
    ensures CrashSafe(epochDiff, loggerOf, members) <==> Safe(members)
  {
    if Safe(members) {
      forall init, wvals, s, files, e: nat |
        Reachable(Config(init, wvals, epochDiff, loggerOf, members), s) && RB.Left(s.d.ls, files) && e <= s.d.durable
        ensures R.Replay(init, RB.ReadWhole(files), e) == CT.Serial(init, s.c.log, CT.PrefixLength(s.c.log, e))
      {
        var g := Config(init, wvals, epochDiff, loggerOf, members);
        SafeComplete(g, s, e);
        RB.CrashRecovers(g, s, files, e);
      }
    } else {
      var g, s := FailsUnlessSafe(epochDiff, loggerOf, members);
      RB.ImagesLeft(g, s);
      assert RB.Left(s.d.ls, RB.Images(s.d.ls));
    }
  }
}
