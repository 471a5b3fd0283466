/** The epoch clock (util.cpp, include/atomic_tool.h): GlobalEpoch never runs ahead of a worker by more
    than one. The load of GlobalEpoch, the store of ThLocalEpoch and each look of the leader's scan are
    separate steps; nothing here depends on the field widths. */
module EpochFrontier {
  import opened CommitModel
  import opened CommitInv

  /** The epoch a worker has loaded, from the load on. */
  function LoadedEpoch(wk: Worker): nat {
    if wk.pc.EwStore? || wk.pc.EpochStore? then wk.pc.epoch else wk.localEpoch
  }

  ghost predicate ClockOk(s: State, w: nat)
    requires w < |s.ws|
  {
    var wk := s.ws[w];
    && wk.localEpoch <= LoadedEpoch(wk) <= s.ge
    && (w >= 1 ==> s.ge <= wk.localEpoch + 1)
    && (w == 0 && (wk.pc.EwStore? || InWindow(wk.pc)) ==> LoadedEpoch(wk) == s.ge)
    && (wk.pc.Scan? ==> w == 0 && wk.pc.now == s.ge &&
                        forall j :: 1 <= j < wk.pc.i && j < |s.ws| ==> s.ws[j].localEpoch == s.ge)
  }

  ghost predicate Frontier(s: State) {
    forall w :: 0 <= w < |s.ws| ==> ClockOk(s, w)
  }

  /** Only the leader's last step moves the clock; a step changes one worker. */
  lemma ClockMoves(s: State, w: nat, a: Action)
    requires Enabled(s, w, a)
    ensures var s' := Apply(s, w, a);
            && |s'.ws| == |s.ws| && s'.ws == s.ws[w := s'.ws[w]]
            && (s'.ge == s.ge || (a.Next? && s.ws[w].pc.Scan? && s.ws[w].pc.i >= |s.ws| && s'.ge == s.ge + 1))
  {
  }

  /** What a step does to the clock registers of the worker that takes it. */
  ghost predicate OwnMove(s: State, wk: Worker, wk': Worker) {
    || (wk'.localEpoch == wk.localEpoch && LoadedEpoch(wk') == LoadedEpoch(wk))
    || (!wk.pc.Scan? && wk'.localEpoch == wk.localEpoch && LoadedEpoch(wk') == s.ge)
    || (!wk.pc.Scan? && wk'.localEpoch == LoadedEpoch(wk) == LoadedEpoch(wk'))
  }

  lemma OwnClock(s: State, w: nat, a: Action)
    requires Enabled(s, w, a) && ClockOk(s, w)
    ensures OwnMove(s, s.ws[w], Apply(s, w, a).ws[w])
  {
    if a.Next? { OwnNext(s, w); }
  }

  lemma OwnNext(s: State, w: nat)
    requires Enabled(s, w, Next) && ClockOk(s, w)
    ensures OwnMove(s, s.ws[w], NextStep(s, w).ws[w])
  {
  }

  lemma StepKeepsFrontier(s: State, w: nat, a: Action)
    requires Frontier(s) && Enabled(s, w, a)
    ensures Frontier(Apply(s, w, a))
  {
    var s' := Apply(s, w, a);
    assert ClockOk(s, w);
    ClockMoves(s, w, a);
    OwnClock(s, w, a);
    forall v | 0 <= v < |s'.ws| ensures ClockOk(s', v) {
      assert ClockOk(s, v);
      if v == w { OwnClockOk(s, w, a); }
    }
  }

  lemma OwnClockOk(s: State, w: nat, a: Action)
    requires Frontier(s) && Enabled(s, w, a)
    ensures w < |Apply(s, w, a).ws| && ClockOk(Apply(s, w, a), w)
  {
    assert ClockOk(s, w);
    if a.Next? {
      if s.ws[w].pc.Scan? { OwnScanOk(s, w); } else { OwnNextOk(s, w); }
    }
  }

  lemma OwnScanOk(s: State, w: nat)
    requires Frontier(s) && Enabled(s, w, Next) && s.ws[w].pc.Scan?
    ensures w < |NextStep(s, w).ws| && ClockOk(NextStep(s, w), w)
  {
    assert ClockOk(s, w);
  }

  predicate OnClock(pc: Pc) {
    pc.EpochLoad? || pc.EpochStore? || pc.EwStore?
  }

  lemma OwnNextOk(s: State, w: nat)
    requires Enabled(s, w, Next) && ClockOk(s, w) && !s.ws[w].pc.Scan?
    ensures w < |NextStep(s, w).ws| && ClockOk(NextStep(s, w), w)
  {
    if !OnClock(s.ws[w].pc) { OffClock(s, w); }
  }

  /** Away from the epoch registers a step leaves them alone and does not enter the window. */
  lemma OffClock(s: State, w: nat)
    requires Enabled(s, w, Next) && !s.ws[w].pc.Scan? && !OnClock(s.ws[w].pc)
    ensures var s' := NextStep(s, w); var wk, wk' := s.ws[w], s'.ws[w];
            && s'.ge == s.ge && wk'.localEpoch == wk.localEpoch && LoadedEpoch(wk') == LoadedEpoch(wk)
            && !wk'.pc.Scan? && !wk'.pc.EwStore? && (InWindow(wk'.pc) ==> InWindow(wk.pc))
  {
  }

  lemma {:induction false} RunKeepsFrontier(s: State, trace: seq<Label>, s': State)
    requires Frontier(s) && Reaches(s, trace, s')
    ensures Frontier(s')
    decreases |trace|
  {
    if trace != [] {
      StepKeepsFrontier(s, trace[0].worker, trace[0].action);
      RunKeepsFrontier(Apply(s, trace[0].worker, trace[0].action), trace[1..], s');
    }
  }

  /** In every run the clock is at most one ahead of every worker but the leader's own, whose epoch is
      current from its load to its last install; so no commit in flight is more than one epoch behind. */
  lemma EpochLag(init: seq<Value>, wvals: seq<Value>, trace: seq<Label>, s: State, w: nat)
    requires Reaches(InitState(init, wvals), trace, s) && w < |s.ws|
    ensures s.ws[w].localEpoch <= s.ge
    ensures w >= 1 ==> s.ge <= s.ws[w].localEpoch + 1
    ensures InWindow(s.ws[w].pc) ==> LoadedEpoch(s.ws[w]) <= s.ge <= LoadedEpoch(s.ws[w]) + 1
    ensures InWindow(s.ws[w].pc) && w == 0 ==> LoadedEpoch(s.ws[w]) == s.ge
  {
    RunKeepsFrontier(InitState(init, wvals), trace, s);
    assert ClockOk(s, w);
  }
}
