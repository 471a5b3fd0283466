/** What the durability pipeline guarantees in every run. */
module LogTheorems {
  import opened TidWords
  import opened LogModel
  import opened LogInv
  import opened LogSteps

  // ---- Runs ---------------------------------------------------------------------------------

  /** What never goes back, whatever step is taken. */
  ghost predicate Grows(s: State, s': State) {
    && s.ge <= s'.ge && |s'.ls| == |s.ls| && |s'.ws| == |s.ws| && s'.loggerOf == s.loggerOf
    && (forall l :: 0 <= l < |s.ls| ==> LoggerGrows(s.ls[l], s'.ls[l]))
  }

  ghost predicate LoggerGrows(lg: Logger, lg': Logger) {
    lg'.members == lg.members && (lg.blind ==> lg'.blind)
  }

  lemma StepGrows(s: State, a: Action)
    requires Enabled(s, a)
    ensures Grows(s, Apply(s, a))
  {
    if a.LoggerStep? {
      LoggerStepGrows(s, a.l);
    } else if a.WorkerStep? {
      WorkerStepGrows(s, a.w);
    }
  }

  lemma LoggerStepGrows(s: State, l: nat)
    requires Enabled(s, LoggerStep(l))
    ensures Grows(s, LoggerStepOf(s, l))
  {
    if s.ls[l].pc.WriteOut? {
      assert Grows(s, WriteOutStep(s, l));
    } else if s.ls[l].pc.StoreBound? {
      assert Grows(s, StoreBoundStep(s, l));
    } else {
      LoggerPcOnly(s, l);
    }
  }

  /** What the other steps of a logger leave alone: the workers, its bound and its file. */
  ghost predicate PcStep(s: State, s': State, l: nat)
    requires l < |s.ls|
  {
    && |s'.ls| == |s.ls| && s'.ls == s.ls[l := s'.ls[l]] && s'.ws == s.ws && s'.ge == s.ge && s'.loggerOf == s.loggerOf
    && s'.ls[l].members == s.ls[l].members && s'.ls[l].blind == s.ls[l].blind
    && s'.ls[l].durable == s.ls[l].durable && s'.ls[l].file == s.ls[l].file
    && s'.ls[l].synced == (if s.ls[l].pc.Sync? then |s.ls[l].file| else s.ls[l].synced)
    && s'.durable == (if s.ls[l].pc.FoldCas? && s.durable == s.ls[l].pc.seen then s.ls[l].pc.low else s.durable)
  }

  lemma LoggerPcOnly(s: State, l: nat)
    requires Enabled(s, LoggerStep(l)) && !s.ls[l].pc.WriteOut? && !s.ls[l].pc.StoreBound?
    ensures PcStep(s, LoggerStepOf(s, l), l)
  {
    if Storing(s.ls[l].pc) { StoringPcOnly(s, l); } else { EarlyPcOnly(s, l); }
  }

  lemma StoringPcOnly(s: State, l: nat)
    requires Enabled(s, LoggerStep(l)) && Storing(s.ls[l].pc) && !s.ls[l].pc.StoreBound?
    ensures PcStep(s, LoggerStepOf(s, l), l)
  {
  }

  lemma EarlyPcOnly(s: State, l: nat)
    requires Enabled(s, LoggerStep(l)) && !s.ls[l].pc.WriteOut? && !Storing(s.ls[l].pc)
    ensures PcStep(s, LoggerStepOf(s, l), l)
  {
  }

  lemma WorkerStepGrows(s: State, w: nat)
    requires Enabled(s, WorkerStep(w))
    ensures Grows(s, WorkerStepOf(s, w))
  {
    WorkerStepFrame(s, w);
  }

  /** A worker's step touches its own record and, of its logger, only queue, running set and quit flag. */
  lemma WorkerStepFrame(s: State, w: nat)
    requires Enabled(s, WorkerStep(w))
    ensures var s' := WorkerStepOf(s, w); var l := s.loggerOf[w];
            && |s'.ls| == |s.ls| && s'.ge == s.ge && s'.loggerOf == s.loggerOf && s'.durable == s.durable
            && |s'.ws| == |s.ws| && s'.ws == s.ws[w := s'.ws[w]]
            && s'.ls == s.ls[l := s.ls[l].(queue := s'.ls[l].queue, running := s'.ls[l].running, quit := s'.ls[l].quit)]
            && (!s.ws[w].pc.WalAppend? ==> s'.ws[w].hist == s.ws[w].hist)
  {
  }

  lemma {:induction false} RunGrows(s: State, trace: seq<Action>, s': State)
    requires Reaches(s, trace, s')
    ensures Grows(s, s')
    decreases |trace|
  {
    if trace != [] {
      StepGrows(s, trace[0]);
      RunGrows(Apply(s, trace[0]), trace[1..], s');
    }
  }

  lemma {:induction false} RunKeepsInv(s: State, trace: seq<Action>, s': State)
    requires Inv(s) && Reaches(s, trace, s') && Bounded(s')
    ensures Inv(s')
    decreases |trace|
  {
    if trace != [] {
      RunGrows(s, trace, s');
      RunGrows(Apply(s, trace[0]), trace[1..], s');
      StepKeepsInv(s, trace[0]);
      RunKeepsInv(Apply(s, trace[0]), trace[1..], s');
    }
  }

  lemma {:induction false} ReachesOneMore(s: State, trace: seq<Action>, t: State, a: Action)
    requires Reaches(s, trace, t) && Enabled(t, a)
    ensures Reaches(s, trace + [a], Apply(t, a))
    decreases |trace|
  {
    if trace == [] {
      assert Reaches(Apply(t, a), [], Apply(t, a));
    } else {
      ReachesOneMore(Apply(s, trace[0]), trace[1..], t, a);
      assert (trace + [a])[1..] == trace[1..] + [a];
    }
  }

  ghost predicate Reachable(epochDiff: nat, loggerOf: seq<nat>, members: seq<seq<nat>>, s: State) {
    && ValidConfig(loggerOf, members) && Bounded(s)
    && exists trace :: Reaches(InitState(epochDiff, loggerOf, members), trace, s)
  }

  lemma ReachableInv(epochDiff: nat, loggerOf: seq<nat>, members: seq<seq<nat>>, s: State)
    requires Reachable(epochDiff, loggerOf, members, s)
    ensures Inv(s) && s.loggerOf == loggerOf && |s.ls| == |members|
  {
    var init := InitState(epochDiff, loggerOf, members);
    var trace :| Reaches(init, trace, s);
    InitInv(epochDiff, loggerOf, members);
    RunKeepsInv(init, trace, s);
    RunGrows(init, trace, s);
  }

  // ---- What is on disk ----------------------------------------------------------------------

  /** The pushes of w that its logger has fsynced. */
  function OnDisk(lg: Logger, w: nat): seq<Push> {
    FileOf(if lg.synced <= |lg.file| then lg.file[..lg.synced] else lg.file, w)
  }

  ghost predicate AllAbove(ps: seq<Push>, d: nat) {
    forall i :: 0 <= i < |ps| ==> PushAbove(ps[i], d)
  }

  /** Everything of w that is not on disk lies above d. */
  ghost predicate DurableUpTo(s: State, w: nat, d: nat)
    requires w < |s.ws| == |s.loggerOf| && s.loggerOf[w] < |s.ls|
  {
    var disk := OnDisk(s.ls[s.loggerOf[w]], w);
    disk <= s.ws[w].hist && AllAbove(s.ws[w].hist[|disk|..], d)
  }

  lemma {:induction false} FileSplit(f: seq<Block>, n: nat, w: nat)
    requires n <= |f|
    ensures FileOf(f, w) == FileOf(f[..n], w) + FileOf(f[n..], w)
  {
    if n < |f| {
      var m := |f| - 1;
      FileSplit(f[..m], n, w);
      assert f[..m][..n] == f[..n] && f[..m][n..] == f[n..][..m - n];
      assert f[n..][..|f[n..]| - 1] == f[..m][n..];
    } else {
      assert f[..n] == f;
    }
  }

  lemma {:induction false} FileAbove(f: seq<Block>, w: nat, d: nat)
    requires forall i :: 0 <= i < |f| ==> BlockAbove(f[i], d)
    ensures AllAbove(FileOf(f, w), d)
  {
    if f != [] { FileAbove(f[..|f| - 1], w, d); }
  }

  lemma {:induction false} BufsAbove(q: seq<Buffer>, w: nat, d: nat)
    requires AtLeast(q, d + 1) && forall i :: 0 <= i < |q| ==> BufferOk(q[i])
    ensures AllAbove(BufsOf(q, w), d)
  {
    if q != [] {
      var n := |q| - 1;
      BufsAbove(q[..n], w, d);
      BufferAbove(q[n], d);
    }
  }

  lemma BufferAbove(b: Buffer, d: nat)
    requires BufferOk(b) && (Clean(b) || d < b.minEpoch)
    ensures AllAbove(b.pushes, d)
  {
    forall i | 0 <= i < |b.pushes| ensures PushAbove(b.pushes[i], d) {
      assert PushOk(b.pushes[i], b.minEpoch);
    }
  }

  /** Every worker of a logger that was never blind has published a CTIDW above the logger's bound. */
  lemma WorkerCovered(s: State, w: nat)
    requires Inv(s) && WorkerIn(s, w) && !s.ls[s.loggerOf[w]].blind && s.ls[s.loggerOf[w]].durable > 0
    ensures Covered(s.ws[w], s.ls[s.loggerOf[w]].durable + 1)
  {
    var lg := s.ls[s.loggerOf[w]];
    assert SafeOk(s, s.loggerOf[w]);
    var k :| 0 <= k < |lg.members| && lg.members[k] == w;
    assert Covered(s.ws[lg.members[k]], lg.durable + 1);
  }

  /** The current buffer of a worker of a logger that was never blind lies above the logger's bound. */
  lemma CurrentAbove(s: State, w: nat)
    requires Inv(s) && WorkerIn(s, w) && !s.ls[s.loggerOf[w]].blind
    ensures AllAbove(CurOf(s.ws[w]), s.ls[s.loggerOf[w]].durable)
  {
    var x := s.ws[w];
    var d := s.ls[s.loggerOf[w]].durable;
    assert WorkerOk(x, w, s.ge);
    if d > 0 { WorkerCovered(s, w); }
    if x.cur.Some? { BufferAbove(x.cur.value, d); }
  }

  /** Logger durability: the bound of a logger that never skipped a worker is kept by all its workers.
      What a worker pushed is, in order, what is on disk followed by pushes of later epochs only. */
  lemma LoggerDurable(s: State, w: nat)
    requires Inv(s) && WorkerIn(s, w) && !s.ls[s.loggerOf[w]].blind
    ensures DurableUpTo(s, w, s.ls[s.loggerOf[w]].durable)
  {
    assert SafeOk(s, s.loggerOf[w]);
    CurrentAbove(s, w);
    DurableFrom(s, w, s.ls[s.loggerOf[w]].durable);
  }

  /** So is any epoch d that all the logger holds outside its synced file, and the current buffer, exceed. */
  lemma DurableFrom(s: State, w: nat, d: nat)
    requires Inv(s) && WorkerIn(s, w) && AllAbove(CurOf(s.ws[w]), d)
    requires var lg := s.ls[s.loggerOf[w]];
             UnsyncedAbove(lg, d) && AtLeast(lg.queue, d + 1) && AtLeast(Batch(lg), d + 1)
    ensures DurableUpTo(s, w, d)
  {
    var l := s.loggerOf[w];
    var lg := s.ls[l];
    assert LoggerOk(s, l) && StreamOk(s, w);
    FileSplit(lg.file, lg.synced, w);
    FileAbove(lg.file[lg.synced..], w, d);
    QueuedBuffersOk(s, l, lg.queue);
    QueuedBuffersOk(s, l, Batch(lg));
    BufsAbove(lg.queue, w, d);
    BufsAbove(Batch(lg), w, d);
    RestAbove(s.ws[w].hist, OnDisk(lg, w), FileOf(lg.file[lg.synced..], w), BufsOf(Batch(lg), w),
              BufsOf(lg.queue, w), CurOf(s.ws[w]), d);
  }

  lemma QueuedBuffersOk(s: State, l: nat, q: seq<Buffer>)
    requires AllQueuedOk(s, l, q)
    ensures forall i :: 0 <= i < |q| ==> BufferOk(q[i])
  {
    forall i | 0 <= i < |q| ensures BufferOk(q[i]) { assert QueuedOk(s, l, q[i]); }
  }

  lemma RestAbove(h: seq<Push>, f: seq<Push>, u: seq<Push>, b: seq<Push>, q: seq<Push>, c: seq<Push>, d: nat)
    requires h == f + u + b + q + c && AllAbove(u, d) && AllAbove(b, d) && AllAbove(q, d) && AllAbove(c, d)
    ensures f <= h && AllAbove(h[|f|..], d)
  {
    assert h == f + (u + b + q + c);
    assert h[|f|..] == u + b + q + c;
  }

  // ---- Nothing late -------------------------------------------------------------------------

  /** A step extends a worker's history by at most one push, of an epoch above its logger's bound. */
  lemma StepPushesLate(s: State, a: Action, w: nat)
    requires Inv(s) && Bounded(s) && Enabled(s, a) && WorkerIn(s, w)
    ensures |Apply(s, a).ws| == |s.ws|
    ensures var h, h' := s.ws[w].hist, Apply(s, a).ws[w].hist;
            h <= h' && (!s.ls[s.loggerOf[w]].blind ==> AllAbove(h'[|h|..], s.ls[s.loggerOf[w]].durable))
  {
    if a.WorkerStep? && a.w == w && s.ws[w].pc.WalAppend? {
      AppendLate(s, w);
    } else {
      HistSame(s, a, w);
    }
  }

  lemma AppendLate(s: State, w: nat)
    requires Inv(s) && WorkerIn(s, w) && s.ws[w].pc.WalAppend? && (s.ws[w].cur.Some? || s.ws[w].free != [])
    ensures var h, h' := s.ws[w].hist, WalAppendStep(s, w).ws[w].hist;
            h <= h' && (!s.ls[s.loggerOf[w]].blind ==> AllAbove(h'[|h|..], s.ls[s.loggerOf[w]].durable))
  {
    if !s.ls[s.loggerOf[w]].blind { PushLate(s, w); }
  }

  lemma HistSame(s: State, a: Action, w: nat)
    requires Enabled(s, a) && w < |s.ws| && !(a.WorkerStep? && a.w == w && s.ws[w].pc.WalAppend?)
    ensures |Apply(s, a).ws| == |s.ws| && Apply(s, a).ws[w].hist == s.ws[w].hist
  {
    if a.WorkerStep? {
      WorkerStepFrame(s, a.w);
    } else if a.LoggerStep? {
      if s.ls[a.l].pc.WriteOut? {
        assert WriteOutStep(s, a.l).ws[w].hist == s.ws[w].hist;
      } else if s.ls[a.l].pc.StoreBound? {
        assert StoreBoundStep(s, a.l).ws == s.ws;
      } else {
        LoggerPcOnly(s, a.l);
      }
    }
  }

  /** What wal has not appended yet lies above the bound of a logger that was never blind. */
  lemma PushLate(s: State, w: nat)
    requires Inv(s) && WorkerIn(s, w) && !s.ls[s.loggerOf[w]].blind
    requires s.ws[w].pc.WalPublish? || s.ws[w].pc.WalAppend?
    ensures PushAbove(s.ws[w].pc.push, s.ls[s.loggerOf[w]].durable)
  {
    var x := s.ws[w];
    assert WorkerOk(x, w, s.ge);
    if s.ls[s.loggerOf[w]].durable > 0 { WorkerCovered(s, w); }
  }

  /** So does the epoch of a transaction that is validating. */
  lemma WindowLate(s: State, w: nat)
    requires Inv(s) && WorkerIn(s, w) && !s.ls[s.loggerOf[w]].blind && s.ws[w].pc.Window?
    ensures s.ws[w].pc.epoch > s.ls[s.loggerOf[w]].durable
  {
    assert WorkerOk(s.ws[w], w, s.ge);
    if s.ls[s.loggerOf[w]].durable > 0 { WorkerCovered(s, w); }
  }

  /** Bounds and files only grow. */
  ghost predicate Raises(s: State, s': State) {
    && |s'.ls| == |s.ls| && s.durable <= s'.durable
    && (forall l :: 0 <= l < |s.ls| ==> RaisesLogger(s.ls[l], s'.ls[l]))
  }

  ghost predicate RaisesLogger(lg: Logger, lg': Logger) {
    lg.durable <= lg'.durable && lg.file <= lg'.file && lg.synced <= lg'.synced
  }

  lemma StepRaises(s: State, a: Action)
    requires Inv(s) && Enabled(s, a)
    ensures Raises(s, Apply(s, a))
  {
    if a.LoggerStep? {
      LoggerStepRaises(s, a.l);
    } else if a.WorkerStep? {
      WorkerStepFrame(s, a.w);
    }
  }

  lemma LoggerStepRaises(s: State, l: nat)
    requires Inv(s) && Enabled(s, LoggerStep(l))
    ensures Raises(s, LoggerStepOf(s, l))
  {
    assert ScanOk(s, l) && FoldOk(s, l) && LoggerOk(s, l);
    if s.ls[l].pc.WriteOut? {
      assert Raises(s, WriteOutStep(s, l));
    } else if s.ls[l].pc.StoreBound? {
      assert Raises(s, StoreBoundStep(s, l));
    } else {
      LoggerPcOnly(s, l);
      PcRaises(s, LoggerStepOf(s, l), l);
    }
  }

  lemma PcRaises(s: State, s': State, l: nat)
    requires l < |s.ls| && PcStep(s, s', l) && FoldOk(s, l) && s.ls[l].synced <= |s.ls[l].file|
    ensures Raises(s, s')
  {
  }

  /** Once a bound is stored, no later step of the run produces a record at or below it. */
  lemma {:induction false} NothingLate(s: State, trace: seq<Action>, s': State, w: nat)
    requires Inv(s) && Reaches(s, trace, s') && Bounded(s') && WorkerIn(s, w)
    requires |s'.ls| == |s.ls| && !s'.ls[s.loggerOf[w]].blind
    ensures |s'.ws| == |s.ws| && s.ws[w].hist <= s'.ws[w].hist
    ensures AllAbove(s'.ws[w].hist[|s.ws[w].hist|..], s.ls[s.loggerOf[w]].durable)
    decreases |trace|
  {
    if trace != [] {
      var t := Apply(s, trace[0]);
      RunGrows(s, trace, s');
      RunGrows(t, trace[1..], s');
      StepGrows(s, trace[0]);
      StepKeepsInv(s, trace[0]);
      StepPushesLate(s, trace[0], w);
      StepRaises(s, trace[0]);
      assert RaisesLogger(s.ls[s.loggerOf[w]], t.ls[s.loggerOf[w]]);
      assert LoggerGrows(s.ls[s.loggerOf[w]], t.ls[s.loggerOf[w]]);
      assert LoggerGrows(t.ls[s.loggerOf[w]], s'.ls[s.loggerOf[w]]);
      NothingLate(t, trace[1..], s', w);
      ChainAbove(s.ws[w].hist, t.ws[w].hist, s'.ws[w].hist, s.ls[s.loggerOf[w]].durable, t.ls[s.loggerOf[w]].durable);
    }
  }

  lemma ChainAbove(h: seq<Push>, t: seq<Push>, h': seq<Push>, d: nat, e: nat)
    requires h <= t <= h' && d <= e && AllAbove(t[|h|..], d) && AllAbove(h'[|t|..], e)
    ensures h <= h' && AllAbove(h'[|h|..], d)
  {
    forall i | 0 <= i < |h'| - |h| ensures PushAbove(h'[|h|..][i], d) {
      if |h| + i < |t| {
        assert h'[|h|..][i] == t[|h|..][i];
      } else {
        assert h'[|h|..][i] == h'[|t|..][|h| + i - |t|];
      }
    }
  }

  // ---- The durable epoch --------------------------------------------------------------------

  /** DurableEpoch is at most every logger's bound, every bound is below GlobalEpoch, and the epoch on
      disk never exceeds DurableEpoch. */
  lemma DurableEpochBounds(epochDiff: nat, loggerOf: seq<nat>, members: seq<seq<nat>>, s: State, l: nat)
    requires Reachable(epochDiff, loggerOf, members, s) && l < |s.ls|
    ensures s.pepoch <= s.durable <= s.ls[l].durable < s.ge
  {
    ReachableInv(epochDiff, loggerOf, members, s);
    assert LoggerOk(s, l);
  }

  /** Neither DurableEpoch nor a logger's bound ever decreases along a run. */
  lemma {:induction false} DurableEpochMonotone(s: State, trace: seq<Action>, s': State, l: nat)
    requires Inv(s) && Reaches(s, trace, s') && Bounded(s') && l < |s.ls|
    ensures |s'.ls| == |s.ls| && s.durable <= s'.durable && s.ls[l].durable <= s'.ls[l].durable
    decreases |trace|
  {
    if trace != [] {
      var t := Apply(s, trace[0]);
      RunGrows(s, trace, s');
      RunGrows(t, trace[1..], s');
      StepGrows(s, trace[0]);
      StepKeepsInv(s, trace[0]);
      StepRaises(s, trace[0]);
      assert RaisesLogger(s.ls[l], t.ls[l]);
      DurableEpochMonotone(t, trace[1..], s', l);
    }
  }

  // ---- Order, epochs, completeness ----------------------------------------------------------

  /** The file holds each worker's pushes in the order it made them, each once and in one piece. */
  lemma FileInPushOrder(epochDiff: nat, loggerOf: seq<nat>, members: seq<seq<nat>>, s: State, w: nat)
    requires Reachable(epochDiff, loggerOf, members, s) && WorkerIn(s, w)
    ensures FileOf(s.ls[s.loggerOf[w]].file, w) <= s.ws[w].hist
  {
    ReachableInv(epochDiff, loggerOf, members, s);
    assert StreamOk(s, w);
    var lg := s.ls[s.loggerOf[w]];
    Associate(FileOf(lg.file, w), BufsOf(Batch(lg), w), BufsOf(lg.queue, w), CurOf(s.ws[w]));
  }

  lemma Associate(f: seq<Push>, b: seq<Push>, q: seq<Push>, c: seq<Push>)
    ensures f + b + q + c == f + (b + q + c)
  {
  }

  /** Buffers hold a single epoch; outside wal the current buffer's is that of the worker's CTIDW,
      also after epochWork raised CTIDW; and no buffer is ever filled beyond its capacity. */
  lemma SingleEpochBuffers(epochDiff: nat, loggerOf: seq<nat>, members: seq<seq<nat>>, s: State, w: nat)
    requires Reachable(epochDiff, loggerOf, members, s) && WorkerIn(s, w) && s.ws[w].cur.Some?
    ensures var x := s.ws[w]; var b := x.cur.value;
            && Size(b) <= LOG_BUFFER_SIZE
            && (b.minEpoch != NO_EPOCH ==> b.minEpoch == b.maxEpoch)
            && (forall i, j :: 0 <= i < |b.pushes| && 0 <= j < |b.pushes[i]| ==> b.pushes[i][j].tid.epoch == b.minEpoch)
            && (b.pushes != [] && (x.pc.Free? || x.pc.InTx? || x.pc.Window? || x.pc.WalDone? || x.pc.Tail?) ==>
                  b.minEpoch == x.ctidw.epoch && Real(x.ctidw))
            && (x.pc.WalAppend? ==> Size(b) + |x.pc.push| <= LOG_BUFFER_SIZE)
  {
    ReachableInv(epochDiff, loggerOf, members, s);
    var x := s.ws[w];
    var b := x.cur.value;
    assert WorkerOk(x, w, s.ge);
    forall i, j | 0 <= i < |b.pushes| && 0 <= j < |b.pushes[i]| ensures b.pushes[i][j].tid.epoch == b.minEpoch {
      assert PushOk(b.pushes[i], b.minEpoch);
    }
  }

  /** When a logger has left its loop its file holds, on disk, everything its workers ever pushed. */
  lemma ShutdownComplete(epochDiff: nat, loggerOf: seq<nat>, members: seq<seq<nat>>, s: State, w: nat)
    requires Reachable(epochDiff, loggerOf, members, s) && WorkerIn(s, w) && Ended(s.ls[s.loggerOf[w]].pc)
    ensures OnDisk(s.ls[s.loggerOf[w]], w) == s.ws[w].hist
  {
    ReachableInv(epochDiff, loggerOf, members, s);
    var l := s.loggerOf[w];
    var lg := s.ls[l];
    assert LoggerOk(s, l) && StreamOk(s, w) && WorkerOk(s.ws[w], w, s.ge);
    var k :| 0 <= k < |lg.members| && lg.members[k] == w;
    assert s.ws[lg.members[k]].pc.Stopped?;
    assert lg.file[..lg.synced] == lg.file;
  }
}
