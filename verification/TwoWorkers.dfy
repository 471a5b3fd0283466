/** One logger and two workers of which the leader registered first. The logger may skip a worker here, too,
    and its bound may then pass a write, but never by as much as DurableEpoch lags behind the bound: what
    worker 0 has in flight is of the current epoch, and what worker 1 has is at most one epoch older than
    the CTIDW of worker 0 that the scan read before. */
module TwoWorkers {
  import opened TidWords
  import opened LogModel
  import opened LogInv
  import opened LogTheorems
  import LS = LogSteps

  ghost predicate Sole(d: State) {
    |d.ws| == 2 && |d.ls| == 1 && d.loggerOf == [0, 0] && d.ls[0].members == [0, 1]
  }

  // ---- What a worker may still publish ------------------------------------------------------

  /** The epoch a worker has loaded and not yet left behind. */
  function InFlight(x: LogWorker): Option<nat> {
    match x.pc
    case Window(e) => Some(e)
    case WalPublish(ctid, _, _) => Some(ctid.epoch)
    case WalAppend(ctid, _, _) => Some(ctid.epoch)
    case WalFull(ctid, _) => Some(ctid.epoch)
    case WalStore(ctid, _) => Some(ctid.epoch)
    case EwLoaded(e) => Some(e)
    case EwStored(e) => Some(e)
    case _ => None
  }

  /** Whatever the worker holds or will produce is of epoch e or later. */
  predicate Later(x: LogWorker, ge: nat, e: nat) {
    || x.pc.Stopped?
    || (if Real(x.ctidw) then e <= x.ctidw.epoch else e <= ge && (InFlight(x).Some? ==> e <= InFlight(x).value))
  }

  ghost predicate BothLater(d: State, e: nat) {
    forall w :: 0 <= w < |d.ws| ==> Later(d.ws[w], d.ge, e)
  }

  /** How a step changes what a worker has in flight. */
  predicate Turns(x: LogWorker, x': LogWorker, ge: nat) {
    && (x.pc.Stopped? ==> x'.pc.Stopped?)
    && (InFlight(x') == InFlight(x) || InFlight(x').None? || InFlight(x') == Some(ge))
    && (x'.ctidw == x.ctidw || (Real(x'.ctidw) && InFlight(x) == Some(x'.ctidw.epoch)))
  }

  lemma TurnsLater(x: LogWorker, x': LogWorker, w: nat, ge: nat, ge': nat, e: nat)
    requires WorkerOk(x, w, ge) && Turns(x, x', ge) && ge <= ge' && Later(x, ge, e)
    requires InFlight(x) == Some(x'.ctidw.epoch) && Real(x.ctidw) ==> x.ctidw.epoch <= x'.ctidw.epoch
    ensures Later(x', ge', e)
  {
  }

  lemma WorkerTurns(d: State, a: Action, w: nat)
    requires Inv(d) && Bounded(d) && Enabled(d, a) && w < |d.ws|
    ensures |Apply(d, a).ws| == |d.ws| && Turns(d.ws[w], Apply(d, a).ws[w], d.ge)
    ensures InFlight(d.ws[w]) == Some(Apply(d, a).ws[w].ctidw.epoch) && Real(d.ws[w].ctidw) ==>
              d.ws[w].ctidw.epoch <= Apply(d, a).ws[w].ctidw.epoch
  {
    assert WorkerOk(d.ws[w], w, d.ge);
    if a.WorkerStep? {
      WorkerStepFrame(d, a.w);
      if a.w == w { OwnTurns(d, w); }
    } else if a.LoggerStep? {
      LoggerTurns(d, a.l, w);
    } else {
      DrivenTurns(d, a, w);
    }
  }

  lemma OwnTurns(d: State, w: nat)
    requires Bounded(d) && Enabled(d, WorkerStep(w)) && WorkerOk(d.ws[w], w, d.ge)
    ensures |WorkerStepOf(d, w).ws| == |d.ws| && Turns(d.ws[w], WorkerStepOf(d, w).ws[w], d.ge)
  {
  }

  lemma LoggerTurns(d: State, l: nat, w: nat)
    requires Enabled(d, LoggerStep(l)) && w < |d.ws|
    ensures |LoggerStepOf(d, l).ws| == |d.ws| && Turns(d.ws[w], LoggerStepOf(d, l).ws[w], d.ge)
    ensures LoggerStepOf(d, l).ws[w].ctidw == d.ws[w].ctidw
  {
    if d.ls[l].pc.WriteOut? {
      assert Turns(d.ws[w], WriteOutStep(d, l).ws[w], d.ge);
    } else if d.ls[l].pc.StoreBound? {
      assert StoreBoundStep(d, l).ws == d.ws;
    } else {
      LoggerPcOnly(d, l);
    }
  }

  lemma DrivenTurns(d: State, a: Action, w: nat)
    requires Enabled(d, a) && !a.WorkerStep? && !a.LoggerStep? && w < |d.ws|
    ensures |Apply(d, a).ws| == |d.ws| && Turns(d.ws[w], Apply(d, a).ws[w], d.ge)
    ensures Apply(d, a).ws[w].ctidw == d.ws[w].ctidw
  {
  }

  lemma LaterKept(d: State, a: Action, w: nat, e: nat)
    requires Inv(d) && Bounded(d) && Enabled(d, a) && w < |d.ws| && Later(d.ws[w], d.ge, e)
    ensures |Apply(d, a).ws| == |d.ws| && Later(Apply(d, a).ws[w], Apply(d, a).ge, e)
  {
    assert WorkerOk(d.ws[w], w, d.ge);
    WorkerTurns(d, a, w);
    StepGrows(d, a);
    TurnsLater(d.ws[w], Apply(d, a).ws[w], w, d.ge, Apply(d, a).ge, e);
  }

  lemma BothKept(d: State, a: Action, e: nat)
    requires Inv(d) && Bounded(d) && Enabled(d, a) && BothLater(d, e)
    ensures BothLater(Apply(d, a), e)
  {
    forall w | 0 <= w < |d.ws| ensures |Apply(d, a).ws| == |d.ws| && Later(Apply(d, a).ws[w], Apply(d, a).ge, e) {
      LaterKept(d, a, w, e);
    }
    StepGrows(d, a);
  }

  /** So is what it has in its current buffer. */
  lemma CurrentLater(x: LogWorker, w: nat, ge: nat, e: nat)
    requires WorkerOk(x, w, ge) && Later(x, ge, e) && x.cur.Some?
    ensures Clean(x.cur.value) || e <= x.cur.value.minEpoch
  {
  }

  // ---- What the logger holds ----------------------------------------------------------------

  /** Nothing outside the synced file is of an epoch up to e. */
  ghost predicate HoldsLater(lg: Logger, e: nat) {
    AtLeast(lg.queue, e + 1) && AtLeast(Batch(lg), e + 1) && UnsyncedAbove(lg, e)
  }

  lemma EnqueuedLater(q: seq<Buffer>, b: Buffer, e: nat)
    requires AtLeast(q, e) && (Clean(b) || e <= b.minEpoch)
    ensures AtLeast(Enq(q, b), e)
  {
    forall i | 0 <= i < |Enq(q, b)| ensures Clean(Enq(q, b)[i]) || e <= Enq(q, b)[i].minEpoch {
      LS.EnqueuedFrom(q, b, i);
    }
  }

  /** What a worker's step may do to a logger: put its current buffer into the queue. */
  ghost predicate Feeds(x: LogWorker, lg: Logger, lg': Logger) {
    && lg' == lg.(queue := lg'.queue, running := lg'.running, quit := lg'.quit)
    && (lg'.queue == lg.queue || (x.cur.Some? && lg'.queue == Enq(lg.queue, x.cur.value)))
  }

  predicate ByWorker(a: Action) {
    a.WorkerStep? || LS.Driven(a) || a.Stop? || a.Take? || a.Pause?
  }

  lemma WorkerFeeds(d: State, a: Action)
    requires Sole(d) && Enabled(d, a) && ByWorker(a)
    ensures a.w < 2 && |Apply(d, a).ls| == 1 && Feeds(d.ws[a.w], d.ls[0], Apply(d, a).ls[0])
    ensures Apply(d, a).durable == d.durable
  {
    if a.WorkerStep? { StepFeeds(d, a.w); }
  }

  lemma StepFeeds(d: State, w: nat)
    requires Sole(d) && Enabled(d, WorkerStep(w))
    ensures w < 2 && |WorkerStepOf(d, w).ls| == 1 && Feeds(d.ws[w], d.ls[0], WorkerStepOf(d, w).ls[0])
    ensures WorkerStepOf(d, w).durable == d.durable
  {
  }

  lemma FedLater(x: LogWorker, w: nat, ge: nat, lg: Logger, lg': Logger, e: nat)
    requires WorkerOk(x, w, ge) && Later(x, ge, e) && Feeds(x, lg, lg') && AtLeast(lg.queue, e)
    ensures AtLeast(lg'.queue, e)
  {
    if lg'.queue != lg.queue {
      CurrentLater(x, w, ge, e);
      EnqueuedLater(lg.queue, x.cur.value, e);
    }
  }

  // ---- The bound under way ------------------------------------------------------------------

  /** What a scan that came to epoch e says for the bound in force: the next fold makes that one durable. */
  function Low(durable: nat, e: nat): nat {
    if 1 <= e <= durable + 1 then e - 1 else durable + 1
  }

  /** Of each worker asked, all is later than the bound in force if the scan leads to a new one. */
  ghost predicate Coming(d: State)
    requires Sole(d)
  {
    var lg := d.ls[0];
    match lg.pc
    case ScanWorkers(_, k, min, _) =>
      && (k >= 1 ==> Later(d.ws[0], d.ge, Low(lg.durable, min.epoch)))
      && (k >= 2 && min != ALL_ONES ==> Later(d.ws[1], d.ge, Low(lg.durable, min.epoch)))
    case ScanQueue(_, e, _) => BothLater(d, Low(lg.durable, e))
    case _ =>
      BoundOf(lg.pc).Some? ==>
        var e := Low(lg.durable, BoundOf(lg.pc).value.0);
        BothLater(d, e) && AtLeast(lg.queue, e)
  }

  /** Everything that is not on disk, and everything to come, is later than DurableEpoch. */
  ghost predicate Two(d: State) {
    Sole(d) && BothLater(d, d.durable + 1) && HoldsLater(d.ls[0], d.durable) && Coming(d)
  }

  /** What worker 0 has in flight is of the current epoch; what worker 1 has is at most one older. */
  ghost predicate Timely(d: State) {
    && |d.ws| == 2
    && (InFlight(d.ws[0]).Some? ==> InFlight(d.ws[0]).value == d.ge)
    && (InFlight(d.ws[1]).Some? ==> d.ge <= InFlight(d.ws[1]).value + 1)
  }

  lemma SoleKept(d: State, a: Action)
    requires Sole(d) && Enabled(d, a)
    ensures Sole(Apply(d, a))
  {
    StepGrows(d, a);
    assert LoggerGrows(d.ls[0], Apply(d, a).ls[0]);
  }

  lemma WorkerStepTwo(d: State, a: Action)
    requires Inv(d) && Bounded(d) && Two(d) && Enabled(d, a) && ByWorker(a)
    ensures Two(Apply(d, a))
  {
    SoleKept(d, a);
    WorkerFeeds(d, a);
    assert WorkerOk(d.ws[a.w], a.w, d.ge);
    BothKept(d, a, d.durable + 1);
    FedHolds(d.ws[a.w], a.w, d.ge, d.ls[0], Apply(d, a).ls[0], d.durable);
    ComingFed(d, a, Apply(d, a));
  }

  lemma FedHolds(x: LogWorker, w: nat, ge: nat, lg: Logger, lg': Logger, e: nat)
    requires WorkerOk(x, w, ge) && Later(x, ge, e + 1) && Feeds(x, lg, lg') && HoldsLater(lg, e)
    ensures HoldsLater(lg', e)
  {
    FedLater(x, w, ge, lg, lg', e + 1);
  }

  lemma ComingFed(d: State, a: Action, d': State)
    requires Inv(d) && Bounded(d) && Two(d) && Enabled(d, a) && ByWorker(a) && a.w < 2 && d' == Apply(d, a)
    requires Sole(d') && Feeds(d.ws[a.w], d.ls[0], d'.ls[0])
    ensures Coming(d')
  {
    var lg, x := d.ls[0], d.ws[a.w];
    assert WorkerOk(x, a.w, d.ge);
    if lg.pc.ScanWorkers? {
      var e := Low(lg.durable, lg.pc.min.epoch);
      if lg.pc.k >= 1 { LaterKept(d, a, 0, e); }
      if lg.pc.k >= 2 && lg.pc.min != ALL_ONES { LaterKept(d, a, 1, e); }
    } else if lg.pc.ScanQueue? {
      BothKept(d, a, Low(lg.durable, lg.pc.epoch));
    } else if BoundOf(lg.pc).Some? {
      var e := Low(lg.durable, BoundOf(lg.pc).value.0);
      BothKept(d, a, e);
      FedLater(x, a.w, d.ge, lg, d'.ls[0], e);
    }
  }

  // ---- Steps of the logger ------------------------------------------------------------------

  lemma LowLess(durable: nat, e: nat, f: nat, x: LogWorker, ge: nat)
    requires Later(x, ge, Low(durable, e)) && 1 <= f <= e
    ensures Later(x, ge, Low(durable, f))
  {
  }

  /** The look at one worker. */
  lemma LookTwo(d: State)
    requires Sole(d) && Coming(d) && Timely(d) && Enabled(d, LoggerStep(0)) && d.ls[0].durable < d.ge
    requires d.ls[0].pc.ScanWorkers? && d.ls[0].pc.k < 2 && ScanOk(d, 0) && Bounded(d)
    requires WorkerOk(d.ws[d.ls[0].pc.k], d.ls[0].pc.k, d.ge)
    ensures Sole(ScanWorkersStep(d, 0)) && Coming(ScanWorkersStep(d, 0))
  {
    var lg := d.ls[0];
    var k, min := lg.pc.k, lg.pc.min;
    var c := d.ws[k].ctidw;
    var min' := if c.Obj() > 0 && Less(c, min) then c else min;
    LS.ScanMin(c, min);
    if k == 1 { LowLess(lg.durable, min.epoch, min'.epoch, d.ws[0], d.ge); }
  }

  lemma ScanTwo(d: State)
    requires Sole(d) && Coming(d) && Timely(d) && Enabled(d, LoggerStep(0)) && d.ls[0].durable < d.ge
    requires d.ls[0].pc.ScanWorkers? && ScanOk(d, 0) && Bounded(d)
    requires forall w :: 0 <= w < 2 ==> WorkerOk(d.ws[w], w, d.ge)
    ensures Sole(ScanWorkersStep(d, 0)) && Coming(ScanWorkersStep(d, 0))
  {
    if d.ls[0].pc.k < 2 { LookTwo(d); }
  }

  lemma ScanQueueTwo(d: State)
    requires Sole(d) && Coming(d) && d.ls[0].pc.ScanQueue? && d.ls[0].pc.epoch >= 1
    requires MinEpoch(d.ls[0].queue) >= 1
    requires forall e :: 0 <= e <= MinEpoch(d.ls[0].queue) ==> AtLeast(d.ls[0].queue, e)
    ensures Sole(ScanQueueStep(d, 0)) && Coming(ScanQueueStep(d, 0))
  {
    var lg := d.ls[0];
    var qe := MinEpoch(lg.queue);
    var bound := if lg.pc.epoch > qe then qe else lg.pc.epoch;
    LowLess(lg.durable, lg.pc.epoch, bound, d.ws[0], d.ge);
    LowLess(lg.durable, lg.pc.epoch, bound, d.ws[1], d.ge);
    assert AtLeast(lg.queue, bound);
  }

  /** The steps that only move the logger's program counter on, or sync. */
  ghost predicate Onward(lg: Logger, lg': Logger) {
    && lg'.queue == lg.queue && lg'.durable == lg.durable && lg'.file == lg.file && Batch(lg') == Batch(lg)
    && (lg'.synced == lg.synced || lg'.synced == |lg.file|)
  }

  lemma OnwardHolds(lg: Logger, lg': Logger, e: nat)
    requires Onward(lg, lg') && HoldsLater(lg, e)
    ensures HoldsLater(lg', e)
  {
  }

  predicate Plain(pc: LoggerPc) {
    !pc.Dequeue? && !pc.WriteOut? && !pc.FoldCas? && !pc.StoreBound?
  }

  lemma PlainOnward(d: State)
    requires Sole(d) && Enabled(d, LoggerStep(0)) && Plain(d.ls[0].pc)
    ensures var d' := LoggerStepOf(d, 0);
            Sole(d') && d'.ws == d.ws && d'.ge == d.ge && d'.durable == d.durable && Onward(d.ls[0], d'.ls[0])
  {
    LoggerPcOnly(d, 0);
    PlainQueue(d);
  }

  lemma PlainQueue(d: State)
    requires Sole(d) && Enabled(d, LoggerStep(0)) && Plain(d.ls[0].pc)
    ensures |LoggerStepOf(d, 0).ls| == 1
    ensures LoggerStepOf(d, 0).ls[0].queue == d.ls[0].queue && !LoggerStepOf(d, 0).ls[0].pc.WriteOut?
  {
  }

  lemma PlainTwo(d: State)
    requires Inv(d) && Bounded(d) && Two(d) && Timely(d) && Enabled(d, LoggerStep(0)) && Plain(d.ls[0].pc)
    ensures Two(LoggerStepOf(d, 0))
  {
    PlainOnward(d);
    if d.ls[0].pc.ScanWorkers? || d.ls[0].pc.ScanQueue? {
      ScanComing(d);
    } else {
      PlainComing(d);
    }
    OnwardTwo(d, LoggerStepOf(d, 0));
  }

  lemma OnwardTwo(d: State, d': State)
    requires Two(d) && Sole(d') && d'.ws == d.ws && d'.ge == d.ge && d'.durable == d.durable
    requires Onward(d.ls[0], d'.ls[0]) && Coming(d')
    ensures Two(d')
  {
    OnwardHolds(d.ls[0], d'.ls[0], d.durable);
  }

  lemma ScanComing(d: State)
    requires Inv(d) && Bounded(d) && Sole(d) && Coming(d) && Timely(d) && Enabled(d, LoggerStep(0))
    requires d.ls[0].pc.ScanWorkers? || d.ls[0].pc.ScanQueue?
    ensures Sole(LoggerStepOf(d, 0)) && Coming(LoggerStepOf(d, 0))
  {
    assert ScanOk(d, 0) && LoggerOk(d, 0);
    if d.ls[0].pc.ScanWorkers? {
      ScanTwo(d);
    } else {
      LS.QueueFloor(d, 0);
      ScanQueueTwo(d);
    }
  }

  lemma PlainComing(d: State)
    requires Two(d) && Enabled(d, LoggerStep(0)) && Plain(d.ls[0].pc)
    requires !d.ls[0].pc.ScanWorkers? && !d.ls[0].pc.ScanQueue?
    ensures Sole(LoggerStepOf(d, 0)) && Coming(LoggerStepOf(d, 0))
  {
    PlainOnward(d);
    SameBound(d);
  }

  lemma SameBound(d: State)
    requires Sole(d) && Enabled(d, LoggerStep(0)) && Plain(d.ls[0].pc)
    requires !d.ls[0].pc.ScanWorkers? && !d.ls[0].pc.ScanQueue?
    ensures |LoggerStepOf(d, 0).ls| == 1
    ensures var pc := LoggerStepOf(d, 0).ls[0].pc;
            if pc.ScanWorkers? then pc.k == 0
            else !pc.ScanQueue? && (BoundOf(pc) == BoundOf(d.ls[0].pc) || BoundOf(pc).None?)
  {
  }

  lemma DequeueTwo(d: State)
    requires Two(d) && d.ls[0].pc.Dequeue?
    ensures Two(DequeueStep(d, 0))
  {
    var d' := DequeueStep(d, 0);
    assert HoldsLater(d'.ls[0], d.durable) by { DequeueHolds(d.ls[0], d'.ls[0], d.durable); }
    assert AtLeast([], Low(d.ls[0].durable, d.ls[0].pc.bound));
  }

  lemma DequeueHolds(lg: Logger, lg': Logger, e: nat)
    requires HoldsLater(lg, e) && lg.pc.Dequeue?
    requires lg' == lg.(pc := WriteOut(lg.pc.bound, lg.pc.skipped, lg.queue), queue := [])
    ensures HoldsLater(lg', e)
  {
  }

  lemma WriteOutTwo(d: State)
    requires Inv(d) && Bounded(d) && Two(d) && Enabled(d, LoggerStep(0)) && d.ls[0].pc.WriteOut?
    ensures Two(Apply(d, LoggerStep(0)))
  {
    var lg, d' := d.ls[0], Apply(d, LoggerStep(0));
    SoleKept(d, LoggerStep(0));
    BothKept(d, LoggerStep(0), d.durable + 1);
    BothKept(d, LoggerStep(0), Low(lg.durable, lg.pc.bound));
    FirstOk(d);
    WriteOutLogger(d);
    WrittenTwo(d, d');
  }

  lemma WrittenTwo(d: State, d': State)
    requires Two(d) && Sole(d') && Writes(d.ls[0], d'.ls[0]) && d'.durable == d.durable
    requires BothLater(d', d.durable + 1) && BothLater(d', Low(d.ls[0].durable, d.ls[0].pc.bound))
    requires d.ls[0].synced <= |d.ls[0].file| && (d.ls[0].pc.batch != [] ==> BufferOk(d.ls[0].pc.batch[0]))
    ensures Two(d')
  {
    WrittenHolds(d.ls[0], d'.ls[0], d.durable);
  }

  lemma FirstOk(d: State)
    requires Inv(d) && Sole(d) && d.ls[0].pc.WriteOut?
    ensures d.ls[0].synced <= |d.ls[0].file| && (d.ls[0].pc.batch != [] ==> BufferOk(d.ls[0].pc.batch[0]))
  {
    assert LoggerOk(d, 0);
    if d.ls[0].pc.batch != [] { assert QueuedOk(d, 0, Batch(d.ls[0])[0]); }
  }

  ghost predicate Writes(lg: Logger, lg': Logger) {
    && lg.pc.WriteOut? && lg'.queue == lg.queue && lg'.synced == lg.synced && lg'.durable == lg.durable
    && if lg.pc.batch == [] then lg' == lg.(pc := Sync(lg.pc.bound, lg.pc.skipped))
       else lg'.pc == lg.pc.(batch := lg.pc.batch[1..]) &&
            (lg'.file == lg.file || lg'.file == lg.file + [Block(lg.pc.batch[0].owner, lg.pc.batch[0].pushes)])
  }

  lemma WriteOutLogger(d: State)
    requires Sole(d) && Enabled(d, LoggerStep(0)) && d.ls[0].pc.WriteOut?
    ensures var d' := Apply(d, LoggerStep(0)); |d'.ls| == 1 && Writes(d.ls[0], d'.ls[0]) && d'.durable == d.durable
  {
  }

  lemma WrittenHolds(lg: Logger, lg': Logger, e: nat)
    requires HoldsLater(lg, e) && Writes(lg, lg') && lg.synced <= |lg.file|
    requires lg.pc.batch != [] ==> BufferOk(lg.pc.batch[0])
    ensures HoldsLater(lg', e)
  {
    if lg.pc.batch != [] {
      LS.WrittenAbove(lg, lg', lg.pc.batch[0], e);
      assert AtLeast(lg.pc.batch[1..], e + 1);
    }
  }

  /** Once a logger is about to store a bound, all is later than the one in force; so it may become durable. */
  lemma SettledNow(d: State)
    requires Two(d) && Storing(d.ls[0].pc) && ScanOk(d, 0) && LoggerOk(d, 0)
    ensures BothLater(d, d.ls[0].durable + 1) && HoldsLater(d.ls[0], d.ls[0].durable)
  {
    var lg := d.ls[0];
    if Ended(lg.pc) {
      forall w | 0 <= w < 2 ensures d.ws[w].pc.Stopped? { assert lg.members[w] == w; }
    }
  }

  lemma FoldCasTwo(d: State)
    requires Inv(d) && Two(d) && Enabled(d, LoggerStep(0)) && d.ls[0].pc.FoldCas?
    ensures Two(Apply(d, LoggerStep(0)))
  {
    assert FoldOk(d, 0) && ScanOk(d, 0) && LoggerOk(d, 0);
    SettledNow(d);
    FoldCasMoves(d);
    FoldedTwo(d, Apply(d, LoggerStep(0)));
  }

  lemma FoldCasMoves(d: State)
    requires Sole(d) && Enabled(d, LoggerStep(0)) && d.ls[0].pc.FoldCas? && d.ls[0].pc.low <= d.ls[0].durable
    ensures var d' := Apply(d, LoggerStep(0));
            && Sole(d') && d'.ws == d.ws && d'.ge == d.ge && Onward(d.ls[0], d'.ls[0])
            && (d'.durable == d.durable || d'.durable <= d.ls[0].durable)
            && !d'.ls[0].pc.ScanWorkers? && !d'.ls[0].pc.ScanQueue?
            && (BoundOf(d'.ls[0].pc) == BoundOf(d.ls[0].pc) || BoundOf(d'.ls[0].pc).None?)
  {
  }

  lemma FoldedTwo(d: State, d': State)
    requires Two(d) && Sole(d') && d'.ws == d.ws && d'.ge == d.ge && Onward(d.ls[0], d'.ls[0])
    requires !d.ls[0].pc.ScanWorkers? && !d.ls[0].pc.ScanQueue? && !d'.ls[0].pc.ScanWorkers? && !d'.ls[0].pc.ScanQueue?
    requires BoundOf(d'.ls[0].pc) == BoundOf(d.ls[0].pc) || BoundOf(d'.ls[0].pc).None?
    requires d'.durable == d.durable || d'.durable <= d.ls[0].durable
    requires BothLater(d, d.ls[0].durable + 1) && HoldsLater(d.ls[0], d.ls[0].durable)
    ensures Two(d')
  {
    if d'.durable != d.durable { LessHeld(d.ls[0], d'.durable, d.ls[0].durable); }
    OnwardHolds(d.ls[0], d'.ls[0], d'.durable);
  }

  lemma LessHeld(lg: Logger, e: nat, f: nat)
    requires HoldsLater(lg, f) && e <= f
    ensures HoldsLater(lg, e)
  {
    forall i | lg.synced <= i < |lg.file| ensures BlockAbove(lg.file[i], e) {
      assert BlockAbove(lg.file[i], f);
      forall j | 0 <= j < |lg.file[i].pushes| ensures PushAbove(lg.file[i].pushes[j], e) {
        assert PushAbove(lg.file[i].pushes[j], f);
      }
    }
  }

  lemma StoreBoundTwo(d: State)
    requires Two(d) && Enabled(d, LoggerStep(0)) && d.ls[0].pc.StoreBound?
    ensures Two(StoreBoundStep(d, 0))
  {
    OnlyBound(d.ls[0], StoreBoundStep(d, 0).ls[0], d.durable);
  }

  lemma OnlyBound(lg: Logger, lg': Logger, e: nat)
    requires HoldsLater(lg, e) && lg'.queue == lg.queue && Batch(lg') == Batch(lg)
    requires lg'.file == lg.file && lg'.synced == lg.synced
    ensures HoldsLater(lg', e)
  {
  }

  lemma LoggerStepTwo(d: State)
    requires Inv(d) && Bounded(d) && Two(d) && Timely(d) && Enabled(d, LoggerStep(0))
    ensures Two(Apply(d, LoggerStep(0)))
  {
    if d.ls[0].pc.Dequeue? {
      DequeueTwo(d);
    } else if d.ls[0].pc.WriteOut? {
      WriteOutTwo(d);
    } else if d.ls[0].pc.FoldCas? {
      FoldCasTwo(d);
    } else if d.ls[0].pc.StoreBound? {
      StoreBoundTwo(d);
    } else {
      PlainTwo(d);
    }
  }

  lemma AdvanceTwo(d: State)
    requires Two(d)
    ensures Two(Apply(d, Advance))
  {
  }

  lemma TimeoutTwo(d: State)
    requires Two(d) && Enabled(d, Timeout(0))
    ensures Two(Apply(d, Timeout(0)))
  {
    OnlyBound(d.ls[0], Apply(d, Timeout(0)).ls[0], d.durable);
  }

  /** Every step keeps it, as long as what is in flight is timely. */
  lemma StepKeepsTwo(d: State, a: Action)
    requires Inv(d) && Bounded(d) && Two(d) && Timely(d) && Enabled(d, a)
    ensures Two(Apply(d, a))
  {
    if ByWorker(a) {
      WorkerStepTwo(d, a);
    } else if a.LoggerStep? {
      LoggerStepTwo(d);
    } else if a.Timeout? {
      TimeoutTwo(d);
    } else {
      assert a == Advance;
      AdvanceTwo(d);
    }
  }
}
