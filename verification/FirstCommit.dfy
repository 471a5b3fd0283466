/** When the durable bound can be trusted. CTIDW starts at ~0 (main.cpp:153), which find_min_epoch takes
    for "no transaction", so a worker whose first commit is under way does not hold its logger's bound
    back: if the logger serves this worker alone, or if all its workers have committed once. */
module FirstCommit {
  import opened TidWords
  import opened LogModel
  import opened LogInv
  import opened LogTheorems
  import LogSteps

  // ---- One worker for each logger -----------------------------------------------------------

  /** A scan that skipped the only worker found nothing. */
  predicate Sighted(lg: Logger) {
    && |lg.members| == 1 && !lg.blind
    && match lg.pc
       case ScanWorkers(_, k, min, skipped) => (k == 0 ==> min == ALL_ONES && !skipped) && (skipped ==> min == ALL_ONES)
       case ScanQueue(_, _, skipped) => !skipped
       case _ => BoundOf(lg.pc).Some? ==> !BoundOf(lg.pc).value.1
  }

  ghost predicate AllSighted(s: State) {
    forall l :: 0 <= l < |s.ls| ==> Sighted(s.ls[l])
  }

  lemma ScanSighted(s: State, l: nat)
    requires Enabled(s, LoggerStep(l)) && Sighted(s.ls[l]) && s.ls[l].pc.ScanWorkers?
    ensures |LoggerStepOf(s, l).ls| == |s.ls| && Sighted(LoggerStepOf(s, l).ls[l])
  {
    var c := s.ws[s.ls[l].members[0]].ctidw;
    assert c == ALL_ONES ==> !Less(c, ALL_ONES);
  }

  lemma StepSighted(s: State, a: Action)
    requires Enabled(s, a) && AllSighted(s)
    ensures AllSighted(Apply(s, a))
  {
    if a.LoggerStep? {
      LoggerStepSighted(s, a.l);
    } else if a.WorkerStep? {
      WorkerStepFrame(s, a.w);
    }
  }

  lemma LoggerStepSighted(s: State, l: nat)
    requires Enabled(s, LoggerStep(l)) && AllSighted(s)
    ensures AllSighted(LoggerStepOf(s, l))
  {
    assert Sighted(s.ls[l]);
    if s.ls[l].pc.ScanWorkers? {
      ScanSighted(s, l);
      LoggerPcOnly(s, l);
    } else if s.ls[l].pc.WriteOut? {
      assert AllSighted(WriteOutStep(s, l));
    } else if s.ls[l].pc.StoreBound? {
      assert AllSighted(StoreBoundStep(s, l));
    } else {
      LoggerPcOnly(s, l);
    }
  }

  lemma {:induction false} RunSighted(s: State, trace: seq<Action>, s': State)
    requires AllSighted(s) && Reaches(s, trace, s')
    ensures AllSighted(s')
    decreases |trace|
  {
    if trace != [] {
      StepSighted(s, trace[0]);
      RunSighted(Apply(s, trace[0]), trace[1..], s');
    }
  }

  predicate OneWorkerEach(members: seq<seq<nat>>) {
    forall l :: 0 <= l < |members| ==> |members[l]| == 1
  }

  /** Loggers that serve one worker each never store a bound over a skipped worker. */
  lemma OneWorkerNeverBlind(epochDiff: nat, loggerOf: seq<nat>, members: seq<seq<nat>>, s: State)
    requires Reachable(epochDiff, loggerOf, members, s) && OneWorkerEach(members)
    ensures forall l :: 0 <= l < |s.ls| ==> !s.ls[l].blind
  {
    var init := InitState(epochDiff, loggerOf, members);
    var trace :| Reaches(init, trace, s);
    RunSighted(init, trace, s);
  }

  // ---- Workers that have committed once -----------------------------------------------------

  /** The logger has not stored a bound over a skipped worker, nor is it about to. */
  predicate Sure(lg: Logger) {
    && !lg.blind
    && match lg.pc
       case ScanWorkers(_, _, _, skipped) => !skipped
       case ScanQueue(_, _, skipped) => !skipped
       case _ => BoundOf(lg.pc).Some? ==> !BoundOf(lg.pc).value.1
  }

  ghost predicate AllReal(s: State, members: seq<nat>) {
    forall i :: 0 <= i < |members| ==> members[i] < |s.ws| && Real(s.ws[members[i]].ctidw)
  }

  /** Every worker of logger l has stored a real CTIDW, and no scan under way began before. */
  ghost predicate Settled(s: State, l: nat) {
    l < |s.ls| && Sure(s.ls[l]) && AllReal(s, s.ls[l].members)
  }

  lemma RealKept(s: State, a: Action, v: nat)
    requires Inv(s) && Bounded(s) && Enabled(s, a) && v < |s.ws| && Real(s.ws[v].ctidw)
    ensures |Apply(s, a).ws| == |s.ws| && Real(Apply(s, a).ws[v].ctidw)
  {
    if a.WorkerStep? {
      WorkerStepFrame(s, a.w);
      if a.w == v { OwnRealKept(s, v); }
    } else if a.LoggerStep? {
      LoggerKeepsCtidw(s, a.l, v);
    } else {
      OthersKeepCtidw(s, a, v);
    }
  }

  lemma OthersKeepCtidw(s: State, a: Action, v: nat)
    requires Enabled(s, a) && !a.WorkerStep? && !a.LoggerStep? && v < |s.ws|
    ensures |Apply(s, a).ws| == |s.ws| && Apply(s, a).ws[v].ctidw == s.ws[v].ctidw
  {
  }

  lemma OwnRealKept(s: State, w: nat)
    requires Inv(s) && Bounded(s) && Enabled(s, WorkerStep(w)) && Real(s.ws[w].ctidw)
    ensures |WorkerStepOf(s, w).ws| == |s.ws| && Real(WorkerStepOf(s, w).ws[w].ctidw)
  {
    assert WorkerOk(s.ws[w], w, s.ge);
    if !s.ws[w].pc.WalStore? && !s.ws[w].pc.EwStored? { CtidwSame(s, w); }
  }

  lemma CtidwSame(s: State, w: nat)
    requires Enabled(s, WorkerStep(w)) && !s.ws[w].pc.WalStore? && !s.ws[w].pc.EwStored?
    ensures |WorkerStepOf(s, w).ws| == |s.ws| && WorkerStepOf(s, w).ws[w].ctidw == s.ws[w].ctidw
  {
  }

  lemma LoggerKeepsCtidw(s: State, l: nat, v: nat)
    requires Enabled(s, LoggerStep(l)) && v < |s.ws|
    ensures |LoggerStepOf(s, l).ws| == |s.ws| && LoggerStepOf(s, l).ws[v].ctidw == s.ws[v].ctidw
  {
    if s.ls[l].pc.WriteOut? {
      assert WriteOutStep(s, l).ws[v].ctidw == s.ws[v].ctidw;
    } else if s.ls[l].pc.StoreBound? {
      assert StoreBoundStep(s, l).ws == s.ws;
    } else {
      LoggerPcOnly(s, l);
    }
  }

  /** The step of the logger itself skips nobody. */
  lemma OwnStepSure(s: State, l: nat)
    requires Enabled(s, LoggerStep(l)) && Sure(s.ls[l]) && AllReal(s, s.ls[l].members)
    ensures |LoggerStepOf(s, l).ls| == |s.ls| && Sure(LoggerStepOf(s, l).ls[l])
  {
    if s.ls[l].pc.ScanWorkers? { ScanStepSure(s, l); } else { LaterStepSure(s, l); }
  }

  lemma ScanStepSure(s: State, l: nat)
    requires Enabled(s, LoggerStep(l)) && Sure(s.ls[l]) && AllReal(s, s.ls[l].members) && s.ls[l].pc.ScanWorkers?
    ensures |LoggerStepOf(s, l).ls| == |s.ls| && Sure(LoggerStepOf(s, l).ls[l])
  {
  }

  lemma LaterStepSure(s: State, l: nat)
    requires Enabled(s, LoggerStep(l)) && Sure(s.ls[l]) && !s.ls[l].pc.ScanWorkers?
    ensures |LoggerStepOf(s, l).ls| == |s.ls| && Sure(LoggerStepOf(s, l).ls[l])
  {
    if Storing(s.ls[l].pc) {
      StoringSure(s, l);
    } else if s.ls[l].pc.WriteOut? {
      assert Sure(WriteOutStep(s, l).ls[l]);
    } else {
      EarlySure(s, l);
    }
  }

  lemma StoringSure(s: State, l: nat)
    requires Enabled(s, LoggerStep(l)) && Sure(s.ls[l]) && Storing(s.ls[l].pc)
    ensures |LoggerStepOf(s, l).ls| == |s.ls| && Sure(LoggerStepOf(s, l).ls[l])
  {
  }

  lemma EarlySure(s: State, l: nat)
    requires Enabled(s, LoggerStep(l)) && Sure(s.ls[l])
    requires !s.ls[l].pc.ScanWorkers? && !s.ls[l].pc.WriteOut? && !Storing(s.ls[l].pc)
    ensures |LoggerStepOf(s, l).ls| == |s.ls| && Sure(LoggerStepOf(s, l).ls[l])
  {
  }

  lemma StepSure(s: State, a: Action, l: nat)
    requires Enabled(s, a) && Settled(s, l)
    ensures l < |Apply(s, a).ls| && Sure(Apply(s, a).ls[l])
  {
    if a.LoggerStep? {
      if a.l == l { OwnStepSure(s, l); } else { OtherLoggerSame(s, a.l, l); }
    } else if a.WorkerStep? {
      WorkerStepFrame(s, a.w);
    }
  }

  lemma StepSettled(s: State, a: Action, l: nat)
    requires Inv(s) && Bounded(s) && Enabled(s, a) && Settled(s, l)
    ensures Settled(Apply(s, a), l)
  {
    StepSure(s, a, l);
    StepGrows(s, a);
    assert LoggerGrows(s.ls[l], Apply(s, a).ls[l]);
    forall i | 0 <= i < |s.ls[l].members| ensures Real(Apply(s, a).ws[s.ls[l].members[i]].ctidw) {
      RealKept(s, a, s.ls[l].members[i]);
    }
  }

  lemma OtherLoggerSame(s: State, l: nat, k: nat)
    requires Enabled(s, LoggerStep(l)) && k < |s.ls| && k != l
    ensures |LoggerStepOf(s, l).ls| == |s.ls| && LoggerStepOf(s, l).ls[k] == s.ls[k]
  {
    if s.ls[l].pc.WriteOut? {
      assert WriteOutStep(s, l).ls[k] == s.ls[k];
    } else if !s.ls[l].pc.StoreBound? {
      LoggerPcOnly(s, l);
    }
  }

  /** Once every worker of a logger has stored a real CTIDW before the logger advanced over a missing
      one, its bound is safe for the rest of the run. */
  lemma {:induction false} SettledStays(s: State, trace: seq<Action>, s': State, l: nat)
    requires Inv(s) && Settled(s, l) && Reaches(s, trace, s') && Bounded(s')
    ensures l < |s'.ls| && !s'.ls[l].blind
    decreases |trace|
  {
    if trace != [] {
      RunGrows(s, trace, s');
      RunGrows(Apply(s, trace[0]), trace[1..], s');
      StepSettled(s, trace[0], l);
      LogSteps.StepKeepsInv(s, trace[0]);
      SettledStays(Apply(s, trace[0]), trace[1..], s', l);
    }
  }

  // ---- The bounds ---------------------------------------------------------------------------

  /** Everything of worker w that is not on disk lies above the bound of its logger. */
  ghost predicate BoundKept(s: State, w: nat) {
    WorkerIn(s, w) && |s.ws| == |s.loggerOf| && DurableUpTo(s, w, s.ls[s.loggerOf[w]].durable)
  }

  /** In every state of every run the bound of each logger is kept by all its workers. */
  ghost predicate BoundsKept(epochDiff: nat, loggerOf: seq<nat>, members: seq<seq<nat>>) {
    forall s, w: nat :: Reachable(epochDiff, loggerOf, members, s) && w < |s.ws| ==> BoundKept(s, w)
  }

  /** They are if no logger serves two workers. RecoveryIff shows that this is necessary. */
  lemma OneWorkerBounds(epochDiff: nat, loggerOf: seq<nat>, members: seq<seq<nat>>)
    requires ValidConfig(loggerOf, members) && OneWorkerEach(members)
    ensures BoundsKept(epochDiff, loggerOf, members)
  {
    forall s, w: nat | Reachable(epochDiff, loggerOf, members, s) && w < |s.ws| ensures BoundKept(s, w) {
      OneWorkerNeverBlind(epochDiff, loggerOf, members, s);
      ReachableInv(epochDiff, loggerOf, members, s);
      LoggerDurable(s, w);
    }
  }
}
