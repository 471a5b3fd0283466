/** The word in the pepoch file may step back: check_durable writes it after its compare-and-swap of DurableEpoch
    (notifier.cpp:55-62), and another logger can do both in between. */
module PepochBacks {
  import opened TidWords
  import opened LogRuns
  import opened LoggerRuns
  import L = Loggers
  import D = LogModel
  import DI = LogInv
  import DT = LogTheorems

  // ---- Two loggers with one worker each -----------------------------------------------------

  /** CTIDW, bound and phase of each; all else is as at the start. */
  datatype Side = Side(ctidw: TidWord, durable: nat, pc: D.LoggerPc, blind: bool)

  function WorkerOf(w: nat, x: Side): D.LogWorker {
    D.InitWorker(w).(ctidw := x.ctidw)
  }

  function LoggerOf(l: nat, x: Side): D.Logger {
    D.InitLogger([l]).(pc := x.pc, durable := x.durable, blind := x.blind)
  }

  function Both(ge: nat, xs: seq<Side>, durable: nat, pepoch: nat): D.State
    requires |xs| == 2
  {
    D.State(1, [0, 1], ge, [WorkerOf(0, xs[0]), WorkerOf(1, xs[1])], [LoggerOf(0, xs[0]), LoggerOf(1, xs[1])], durable,
            pepoch)
  }

  const NEW := Side(D.ALL_ONES, 0, D.Wait, false)

  ghost predicate Gets(d: D.State) {
    exists trace :: D.Reaches(D.InitState(1, [0, 1], [[0], [1]]), trace, d)
  }

  lemma GetsNew()
    ensures Gets(Both(1, [NEW, NEW], 0, 0))
  {
    var d := D.InitState(1, [0, 1], [[0], [1]]);
    assert d.ws == [WorkerOf(0, NEW), WorkerOf(1, NEW)];
    assert D.InitLogger([0]) == LoggerOf(0, NEW) && D.InitLogger([1]) == LoggerOf(1, NEW);
    assert d.ls == [LoggerOf(0, NEW), LoggerOf(1, NEW)];
    assert D.Reaches(d, [], Both(1, [NEW, NEW], 0, 0));
  }

  lemma GetsNext(d: D.State, a: D.Action) returns (d': D.State)
    requires Gets(d) && D.Enabled(d, a)
    ensures d' == D.Apply(d, a) && Gets(d')
  {
    var init := D.InitState(1, [0, 1], [[0], [1]]);
    var trace :| D.Reaches(init, trace, d);
    DT.ReachesOneMore(init, trace, d, a);
    d' := D.Apply(d, a);
  }

  lemma GetsOn(d: D.State, who: Thread, d': D.State)
    requires Gets(d) && Ran(d, who, d')
    ensures Gets(d')
  {
    var states := iset t | Gets(t);
    forall t, a | t in states && By(a, who) && D.Enabled(t, a) ensures D.Apply(t, a) in states {
      var u := GetsNext(t, a);
    }
    assert Closed(states, who);
  }

  // ---- What they do -------------------------------------------------------------------------

  lemma Clock(ge: nat, xs: seq<Side>, durable: nat, pepoch: nat)
    requires |xs| == 2 && Gets(Both(ge, xs, durable, pepoch))
    ensures Gets(Both(ge + 1, xs, durable, pepoch))
  {
    var d := GetsNext(Both(ge, xs, durable, pepoch), D.Advance);
  }

  /** Worker w raises its CTIDW in epochWork. */
  lemma Works(ge: nat, xs: seq<Side>, durable: nat, pepoch: nat, w: nat) returns (xs': seq<Side>)
    requires |xs| == 2 && w < 2 && Gets(Both(ge, xs, durable, pepoch)) && xs[w].ctidw.epoch != ge
    ensures xs' == xs[w := xs[w].(ctidw := D.EpochTid(ge))] && Gets(Both(ge, xs', durable, pepoch))
  {
    xs' := xs[w := xs[w].(ctidw := D.EpochTid(ge))];
    var d1 := GetsNext(Both(ge, xs, durable, pepoch), D.EwLoad(w));
    var d2 := GetsNext(d1, D.EwStore(w));
    var d3 := GetsNext(d2, D.WorkerStep(w));
    assert d3.ws == Both(ge, xs', durable, pepoch).ws;
  }

  /** Logger l waits, and its worker has CTIDW e. */
  lemma SeesEpoch(ge: nat, xs: seq<Side>, durable: nat, pepoch: nat, l: nat, e: nat)
    requires |xs| == 2 && l < 2 && xs[l].ctidw == D.EpochTid(e) && 1 <= e < 10
    ensures AtEpoch(Both(ge, xs, durable, pepoch), l, e) && DI.Real(xs[l].ctidw)
  {
    var d := Both(ge, xs, durable, pepoch);
    assert d.ls[l].members == [l] && d.ws[l].ctidw == xs[l].ctidw;
  }

  lemma LeastOf(ge: nat, xs: seq<Side>, durable: nat, pepoch: nat, l: nat, j: nat)
    requires |xs| == 2 && l < 2 && j < 2 && xs[j].durable <= xs[1 - j].durable
    ensures var d := Both(ge, xs, durable, pepoch); L.Fit(d, l) && Least(d, j, xs[j].durable)
  {
    assert Both(ge, xs, durable, pepoch).ls[l].members == [l];
  }

  /** Logger l advances its bound to e - 1, and the least bound m becomes durable. */
  lemma Rises(ge: nat, xs: seq<Side>, durable: nat, pepoch: nat, l: nat, e: nat, j: nat, m: nat)
    returns (xs': seq<Side>, durable': nat, pepoch': nat)
    requires |xs| == 2 && l < 2 && Gets(Both(ge, xs, durable, pepoch))
    requires xs[l].ctidw == D.EpochTid(e) && xs[l].pc.Wait? && xs[l].durable + 1 < e < 10
    requires j < 2 && xs[j].durable == m <= xs[1 - j].durable
    ensures |xs'| == 2 && Gets(Both(ge, xs', durable', pepoch')) && xs'[1 - l] == xs[1 - l]
    ensures xs'[l] == xs[l].(durable := e - 1, blind := xs'[l].blind)
    ensures if durable < m then durable' == pepoch' == m else durable' == durable && pepoch' == pepoch
  {
    var d := Both(ge, xs, durable, pepoch);
    SeesEpoch(ge, xs, durable, pepoch, l, e);
    assert l in d.ls[l].members;
    LeastOf(ge, xs, durable, pepoch, l, j);
    var d' := BoundRises(d, l, e, l, j, m);
    var d1 := GetsNext(d, D.Timeout(l));
    GetsOn(d1, LoggerThread(l), d');
    durable', pepoch' := d'.durable, d'.pepoch;
    xs' := Moves(ge, xs, durable, pepoch, l, xs[l].(durable := e - 1, blind := d'.ls[l].blind), d');
  }

  /** Only the logger of one side has moved. */
  lemma Moves(ge: nat, xs: seq<Side>, durable: nat, pepoch: nat, l: nat, x: Side, d: D.State) returns (xs': seq<Side>)
    requires |xs| == 2 && l < 2 && x.ctidw == xs[l].ctidw
    requires |d.ls| == 2 && d.ls[l] == LoggerOf(l, x)
    requires var b := Both(ge, xs, durable, pepoch);
             d == b.(ls := b.ls[l := d.ls[l]], durable := d.durable, pepoch := d.pepoch)
    ensures xs' == xs[l := x] && d == Both(ge, xs', d.durable, d.pepoch)
  {
    xs' := xs[l := x];
    assert d.ls == Both(ge, xs', d.durable, d.pepoch).ls;
  }

  /** Logger l begins to fold. */
  lemma StartsFold(ge: nat, xs: seq<Side>, durable: nat, pepoch: nat, l: nat, e: nat) returns (after: D.After)
    requires |xs| == 2 && l < 2 && Gets(Both(ge, xs, durable, pepoch))
    requires xs[l].ctidw == D.EpochTid(e) && xs[l].pc.Wait? && xs[l].durable + 1 < e < 10
    ensures Gets(D.To(Both(ge, xs, durable, pepoch), l, D.Fold(after, 0, 0)))
  {
    var d := Both(ge, xs, durable, pepoch);
    SeesEpoch(ge, xs, durable, pepoch, l, e);
    assert l in d.ls[l].members;
    var skipped := Sees(d, l, e, l);
    var d1 := GetsNext(d, D.Timeout(l));
    GetsOn(d1, LoggerThread(l), D.To(d, l, D.Send(e, skipped)));
    after := D.StoreNext(e, skipped);
    L.SendStarts(d, l, e, skipped);
    GetsOn(D.To(d, l, D.Send(e, skipped)), LoggerThread(l), D.To(d, l, D.Fold(after, 0, 0)));
  }

  /** It stops between the compare-and-swap and the write. */
  lemma RisesHalf(ge: nat, xs: seq<Side>, durable: nat, pepoch: nat, l: nat, e: nat, j: nat, m: nat)
    returns (xs': seq<Side>)
    requires |xs| == 2 && l < 2 && Gets(Both(ge, xs, durable, pepoch))
    requires xs[l].ctidw == D.EpochTid(e) && xs[l].pc.Wait? && xs[l].durable + 1 < e < 10
    requires j < 2 && xs[j].durable == m <= xs[1 - j].durable && durable < m
    ensures |xs'| == 2 && Gets(Both(ge, xs', m, pepoch)) && xs'[1 - l] == xs[1 - l]
    ensures xs'[l] == xs[l].(pc := xs'[l].pc) && xs'[l].pc.FoldWrite? && xs'[l].pc.low == m
  {
    var d := Both(ge, xs, durable, pepoch);
    var after := StartsFold(ge, xs, durable, pepoch, l, e);
    LeastOf(ge, xs, durable, pepoch, l, j);
    var d' := FoldsHalf(d, l, after, j, m);
    GetsOn(D.To(d, l, D.Fold(after, 0, 0)), LoggerThread(l), d');
    var x := xs[l].(pc := D.FoldWrite(after, m));
    assert d'.ls[l] == LoggerOf(l, x);
    xs' := Moves(ge, xs, durable, pepoch, l, x, d');
  }

  /** check_durable up to the write. */
  lemma FoldsHalf(d: D.State, l: nat, after: D.After, j: nat, m: nat) returns (d': D.State)
    requires L.Fit(d, l) && Least(d, j, m) && d.durable < m
    ensures Ran(D.To(d, l, D.Fold(after, 0, 0)), LoggerThread(l), d') && |d'.ls| == |d.ls|
    ensures d' == d.(ls := d.ls[l := d'.ls[l]], durable := m) && d'.ls[l] == d.ls[l].(pc := D.FoldWrite(after, m))
  {
    var s0 := D.To(d, l, D.Fold(after, 0, 0));
    var low := Folds(d, l, after, j, m, |d.ls|);
    L.FoldEnds(s0, d, l, after, m);
    var t := D.To(d, l, D.FoldCas(after, m, d.durable));
    L.RanStep(s0, l, D.To(d, l, D.FoldLoad(after, m)), t);
    d' := D.To(d, l, D.FoldWrite(after, m)).(durable := m);
    L.RanStep(s0, l, t, d');
  }

  // ---- The run ------------------------------------------------------------------------------

  /** The workers have CTIDWs of epochs 3 and 2. */
  lemma TwoEpochs() returns (xs: seq<Side>)
    ensures xs == [NEW.(ctidw := D.EpochTid(3)), NEW.(ctidw := D.EpochTid(2))] && Gets(Both(3, xs, 0, 0))
  {
    GetsNew();
    Clock(1, [NEW, NEW], 0, 0);
    var ys := Works(2, [NEW, NEW], 0, 0, 1);
    Clock(2, ys, 0, 0);
    xs := Works(3, ys, 0, 0, 0);
  }

  /** Bounds 2 and 1, DurableEpoch and pepoch still 0. */
  lemma TwoBounds() returns (xs: seq<Side>)
    ensures |xs| == 2 && Gets(Both(4, xs, 0, 0)) && xs[0].durable == 2 && xs[1].durable == 1
    ensures xs[0].pc.Wait? && xs[1].pc.Wait? && xs[0].ctidw == xs[1].ctidw == D.EpochTid(4)
  {
    var ys := TwoEpochs();
    var durable, pepoch;
    ys, durable, pepoch := Rises(3, ys, 0, 0, 0, 3, 0, 0);
    ys, durable, pepoch := Rises(3, ys, 0, 0, 1, 2, 1, 0);
    Clock(3, ys, 0, 0);
    ys := Works(4, ys, 0, 0, 0);
    xs := Works(4, ys, 0, 0, 1);
  }

  /** DurableEpoch and pepoch are 2, and logger 0 is about to write 1. */
  lemma AboutToWrite() returns (xs: seq<Side>)
    ensures |xs| == 2 && Gets(Both(5, xs, 2, 2)) && xs[0].pc.FoldWrite? && xs[0].pc.low == 1
  {
    var ys := TwoBounds();
    ys := RisesHalf(4, ys, 0, 0, 0, 4, 1, 1);
    var durable, pepoch;
    ys, durable, pepoch := Rises(4, ys, 1, 0, 1, 4, 1, 1);
    Clock(4, ys, 1, 0);
    ys := Works(5, ys, 1, 0, 1);
    xs, durable, pepoch := Rises(5, ys, 1, 0, 1, 5, 0, 2);
  }

  /** A reachable step of a logger that takes pepoch from 2 back to 1, while DurableEpoch stays 2. */
  lemma PepochStepsBack() returns (d: D.State)
    ensures DT.Reachable(1, [0, 1], [[0], [1]], d) && D.Enabled(d, D.LoggerStep(0))
    ensures d.pepoch == 2 && D.Apply(d, D.LoggerStep(0)).pepoch == 1
    ensures d.durable == D.Apply(d, D.LoggerStep(0)).durable == 2
  {
    var xs := AboutToWrite();
    d := Both(5, xs, 2, 2);
    TwoReachable(d);
    assert d.ls[0].members == [0];
    Writes(d);
  }

  lemma Writes(d: D.State)
    requires L.Fit(d, 0) && d.ls[0].pc.FoldWrite?
    ensures D.Enabled(d, D.LoggerStep(0)) && D.Apply(d, D.LoggerStep(0)).pepoch == d.ls[0].pc.low
    ensures D.Apply(d, D.LoggerStep(0)).durable == d.durable
  {
  }

  lemma TwoReachable(d: D.State)
    requires Gets(d) && d.ge < 10
    ensures DT.Reachable(1, [0, 1], [[0], [1]], d)
  {
    var members: seq<seq<nat>> := [[0], [1]];
    assert 0 in members[0] && 1 in members[1];
  }
}
