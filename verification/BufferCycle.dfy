/** The cycle of log buffers: current, queue, logger, pool. No buffer is lost or doubled, and a worker that
    waits for one gets it from its logger's next pass. */
module BufferCycles {
  import opened TidWords
  import opened LogModel
  import opened LogInv
  import LogSteps
  import opened LogTheorems
  import opened LogRuns
  import Loggers

  // ---- Where the buffers of a worker are ----------------------------------------------------

  predicate Is(b: Buffer, w: nat, id: nat) {
    b.owner == w && b.id == id
  }

  /** How often buffer id of worker w occurs. */
  function Count(q: seq<Buffer>, w: nat, id: nat): nat {
    if q == [] then 0 else Count(q[..|q| - 1], w, id) + One(q[|q| - 1], w, id)
  }

  function One(b: Buffer, w: nat, id: nat): nat {
    if Is(b, w, id) then 1 else 0
  }

  function InHand(x: LogWorker, w: nat, id: nat): nat {
    (if x.cur.Some? then One(x.cur.value, w, id) else 0) + Count(x.free, w, id)
  }

  /** Published and not yet returned: in the queue or with the logger. */
  function Out(lg: Logger, w: nat, id: nat): nat {
    Count(lg.queue, w, id) + Count(Batch(lg), w, id)
  }

  function Places(s: State, w: nat, id: nat): nat
    requires WorkerIn(s, w)
  {
    InHand(s.ws[w], w, id) + Out(s.ls[s.loggerOf[w]], w, id)
  }

  lemma {:induction false} CountConcat(p: seq<Buffer>, q: seq<Buffer>, w: nat, id: nat)
    ensures Count(p + q, w, id) == Count(p, w, id) + Count(q, w, id)
  {
    if q == [] {
      assert p + q == p;
    } else {
      var n := |q| - 1;
      CountConcat(p, q[..n], w, id);
      assert (p + q)[..|p + q| - 1] == p + q[..n] && (p + q)[|p + q| - 1] == q[n];
    }
  }

  lemma {:induction false} CountEnq(q: seq<Buffer>, b: Buffer, w: nat, id: nat)
    ensures Count(Enq(q, b), w, id) == Count(q, w, id) + One(b, w, id)
  {
    if q == [] || q[|q| - 1].minEpoch <= b.minEpoch {
      assert (q + [b])[..|q|] == q;
    } else {
      var n := |q| - 1;
      CountEnq(q[..n], b, w, id);
      var e := Enq(q[..n], b);
      assert (e + [q[n]])[..|e|] == e;
    }
  }

  lemma CountFirst(q: seq<Buffer>, w: nat, id: nat)
    requires q != []
    ensures Count(q, w, id) == One(q[0], w, id) + Count(q[1..], w, id)
  {
    assert q == [q[0]] + q[1..];
    CountConcat([q[0]], q[1..], w, id);
    assert [q[0]][..0] == [];
  }

  lemma CountSnoc(q: seq<Buffer>, b: Buffer, w: nat, id: nat)
    ensures Count(q + [b], w, id) == Count(q, w, id) + One(b, w, id)
  {
    assert (q + [b])[..|q|] == q;
  }

  // ---- Steps keep every buffer in one place -------------------------------------------------

  /** What a step may do to a worker's hand and to what is out: move buffers between the two. */
  ghost predicate Kept(s: State, s': State, v: nat, id: nat) {
    WorkerIn(s, v) && WorkerIn(s', v) && s'.loggerOf == s.loggerOf && Places(s', v, id) == Places(s, v, id)
  }

  lemma PublishPlaces(s: State, w: nat, pc: LogPc, v: nat, id: nat)
    requires Inv(s) && WorkerIn(s, w) && WorkerIn(s, v)
    ensures Kept(s, Publish(s, w, pc), v, id)
  {
    assert WorkerOk(s.ws[w], w, s.ge);
    EnqueuePlaces(s, w, pc, v, id);
  }

  lemma EnqueuePlaces(s: State, w: nat, pc: LogPc, v: nat, id: nat)
    requires WorkerIn(s, w) && WorkerIn(s, v) && (s.ws[w].cur.Some? ==> s.ws[w].cur.value.owner == w)
    ensures Kept(s, Publish(s, w, pc), v, id)
  {
    var x, l := s.ws[w], s.loggerOf[w];
    if x.cur.Some? && x.cur.value.used {
      var s' := Publish(s, w, pc);
      CountEnq(s.ls[l].queue, x.cur.value, v, id);
      assert Out(s'.ls[l], v, id) == Out(s.ls[l], v, id) + One(x.cur.value, v, id);
      assert v == w ==> InHand(s'.ws[v], v, id) + One(x.cur.value, v, id) == InHand(s.ws[v], v, id);
      assert v != w ==> One(x.cur.value, v, id) == 0 && s'.ws[v] == s.ws[v];
    }
  }

  lemma AppendPlaces(s: State, w: nat, v: nat, id: nat)
    requires WorkerIn(s, w) && WorkerIn(s, v) && s.ws[w].pc.WalAppend? && (s.ws[w].cur.Some? || s.ws[w].free != [])
    ensures Kept(s, WalAppendStep(s, w), v, id)
  {
    assert v == w ==> InHand(WalAppendStep(s, w).ws[w], w, id) == InHand(s.ws[w], w, id);
  }

  lemma WorkerStepPlaces(s: State, w: nat, v: nat, id: nat)
    requires Inv(s) && Enabled(s, WorkerStep(w)) && WorkerIn(s, v)
    ensures Kept(s, WorkerStepOf(s, w), v, id)
  {
    if s.ws[w].pc.WalPublish? {
      PublishPlaces(s, w, WalAppend(s.ws[w].pc.ctid, s.ws[w].pc.push, s.ws[w].pc.begins), v, id);
    } else if s.ws[w].pc.WalFull? {
      PublishPlaces(s, w, WalStore(s.ws[w].pc.ctid, s.ws[w].pc.begins), v, id);
    } else if s.ws[w].pc.WalAppend? {
      AppendPlaces(s, w, v, id);
    } else {
      StillPlaces(s, w, v, id);
    }
  }

  lemma StillPlaces(s: State, w: nat, v: nat, id: nat)
    requires Enabled(s, WorkerStep(w)) && WorkerIn(s, v)
    requires s.ws[w].pc.WalStore? || s.ws[w].pc.EwStored? || s.ws[w].pc.Ending?
    ensures Kept(s, WorkerStepOf(s, w), v, id)
  {
  }

  lemma WriteOutPlaces(s: State, l: nat, v: nat, id: nat)
    requires Inv(s) && Enabled(s, LoggerStep(l)) && s.ls[l].pc.WriteOut? && WorkerIn(s, v)
    ensures Kept(s, WriteOutStep(s, l), v, id)
  {
    var batch := s.ls[l].pc.batch;
    FirstOwner(s, l);
    if batch != [] { ReturnPlaces(s, l, v, id); }
  }

  /** The first buffer of the batch goes from the logger to its owner's pool. */
  lemma ReturnPlaces(s: State, l: nat, v: nat, id: nat)
    requires l < |s.ls| && s.ls[l].pc.WriteOut? && s.ls[l].pc.batch != [] && WorkerIn(s, v)
    requires WorkerIn(s, s.ls[l].pc.batch[0].owner) && s.loggerOf[s.ls[l].pc.batch[0].owner] == l
    ensures Kept(s, WriteOutStep(s, l), v, id)
  {
    var batch := s.ls[l].pc.batch;
    var b := batch[0];
    var s' := WriteOutStep(s, l);
    CountFirst(batch, v, id);
    assert Out(s'.ls[l], v, id) + One(b, v, id) == Out(s.ls[l], v, id);
    if b.owner == v {
      CountSnoc(s.ws[v].free, CleanBuffer(b.owner, b.id, b.used), v, id);
    } else {
      assert s'.ws[v] == s.ws[v];
    }
  }

  lemma DequeuePlaces(s: State, l: nat, v: nat, id: nat)
    requires l < |s.ls| && s.ls[l].pc.Dequeue? && WorkerIn(s, v)
    ensures Kept(s, DequeueStep(s, l), v, id)
  {
    assert Out(DequeueStep(s, l).ls[l], v, id) == Out(s.ls[l], v, id);
  }

  lemma LoggerStepPlaces(s: State, l: nat, v: nat, id: nat)
    requires Inv(s) && Enabled(s, LoggerStep(l)) && WorkerIn(s, v)
    ensures Kept(s, LoggerStepOf(s, l), v, id)
  {
    if s.ls[l].pc.WriteOut? {
      assert LoggerStepOf(s, l) == WriteOutStep(s, l);
      WriteOutPlaces(s, l, v, id);
    } else if s.ls[l].pc.Dequeue? {
      assert LoggerStepOf(s, l) == DequeueStep(s, l);
      DequeuePlaces(s, l, v, id);
    } else {
      QuietStepPlaces(s, l, v, id);
    }
  }

  lemma QuietStepPlaces(s: State, l: nat, v: nat, id: nat)
    requires Enabled(s, LoggerStep(l)) && !s.ls[l].pc.WriteOut? && !s.ls[l].pc.Dequeue? && WorkerIn(s, v)
    ensures Kept(s, LoggerStepOf(s, l), v, id)
  {
    QuietLogger(s, l);
    QuietPlaces(s, LoggerStepOf(s, l), l, v, id);
  }

  ghost predicate Quiet(s: State, s': State, l: nat)
    requires l < |s.ls|
  {
    && |s'.ls| == |s.ls| && s'.ls == s.ls[l := s'.ls[l]] && s'.ws == s.ws && s'.loggerOf == s.loggerOf
    && s'.ls[l].queue == s.ls[l].queue && Batch(s'.ls[l]) == Batch(s.ls[l])
  }

  lemma QuietPlaces(s: State, s': State, l: nat, v: nat, id: nat)
    requires l < |s.ls| && Quiet(s, s', l) && WorkerIn(s, v)
    ensures Kept(s, s', v, id)
  {
  }

  /** The other steps of a logger move no buffer. */
  lemma QuietLogger(s: State, l: nat)
    requires Enabled(s, LoggerStep(l)) && !s.ls[l].pc.WriteOut? && !s.ls[l].pc.Dequeue?
    ensures Quiet(s, LoggerStepOf(s, l), l)
  {
    if s.ls[l].pc.StoreBound? {
      assert Quiet(s, StoreBoundStep(s, l), l);
    } else {
      LoggerPcOnly(s, l);
      QuietQueue(s, l);
    }
  }

  lemma QuietQueue(s: State, l: nat)
    requires Enabled(s, LoggerStep(l)) && !s.ls[l].pc.WriteOut? && !s.ls[l].pc.Dequeue? && !s.ls[l].pc.StoreBound?
    ensures |LoggerStepOf(s, l).ls| == |s.ls|
    ensures LoggerStepOf(s, l).ls[l].queue == s.ls[l].queue && !LoggerStepOf(s, l).ls[l].pc.WriteOut?
  {
  }

  lemma TakePlaces(s: State, w: nat, v: nat, id: nat)
    requires Enabled(s, Take(w)) && WorkerIn(s, v)
    ensures Kept(s, Apply(s, Take(w)), v, id)
  {
    assert v == w ==> InHand(TakeBuffer(s.ws[w]), w, id) == InHand(s.ws[w], w, id);
  }

  /** Actions of the worker that leave its buffers and all loggers alone. */
  lemma DrivenPlaces(s: State, a: Action, v: nat, id: nat)
    requires Enabled(s, a) && LogSteps.Driven(a) && WorkerIn(s, v)
    ensures Kept(s, Apply(s, a), v, id)
  {
    DrivenHand(s, a);
  }

  lemma DrivenHand(s: State, a: Action)
    requires Enabled(s, a) && LogSteps.Driven(a)
    ensures var s' := Apply(s, a);
            && |s'.ws| == |s.ws| && s'.ws == s.ws[a.w := s'.ws[a.w]] && s'.ls == s.ls && s'.loggerOf == s.loggerOf
            && s'.ws[a.w].cur == s.ws[a.w].cur && s'.ws[a.w].free == s.ws[a.w].free
  {
  }

  lemma TimeoutPlaces(s: State, l: nat, v: nat, id: nat)
    requires Enabled(s, Timeout(l)) && WorkerIn(s, v)
    ensures Kept(s, Apply(s, Timeout(l)), v, id)
  {
    QuietPlaces(s, To(s, l, ScanWorkers(true, 0, ALL_ONES, false)), l, v, id);
  }

  lemma StepPlaces(s: State, a: Action, v: nat, id: nat)
    requires Inv(s) && Enabled(s, a) && WorkerIn(s, v)
    ensures Kept(s, Apply(s, a), v, id)
  {
    if a.WorkerStep? {
      WorkerStepPlaces(s, a.w, v, id);
    } else if a.LoggerStep? {
      LoggerStepPlaces(s, a.l, v, id);
    } else if a.Stop? {
      PublishPlaces(s, a.w, Ending, v, id);
    } else if a.Pause? {
      PublishPlaces(s, a.w, Free, v, id);
    } else if a.Take? {
      TakePlaces(s, a.w, v, id);
    } else if a.Timeout? {
      TimeoutPlaces(s, a.l, v, id);
    } else if LogSteps.Driven(a) {
      DrivenPlaces(s, a, v, id);
    }
  }

  lemma {:induction false} RunPlaces(s: State, trace: seq<Action>, s': State, v: nat, id: nat)
    requires Inv(s) && Reaches(s, trace, s') && Bounded(s') && WorkerIn(s, v)
    ensures Kept(s, s', v, id)
    decreases |trace|
  {
    if trace != [] {
      RunGrows(s, trace, s');
      RunGrows(Apply(s, trace[0]), trace[1..], s');
      StepPlaces(s, trace[0], v, id);
      LogSteps.StepKeepsInv(s, trace[0]);
      RunPlaces(Apply(s, trace[0]), trace[1..], s', v, id);
    }
  }

  lemma InitPlaces(epochDiff: nat, loggerOf: seq<nat>, members: seq<seq<nat>>, w: nat, id: nat)
    requires ValidConfig(loggerOf, members) && w < |loggerOf|
    ensures Places(InitState(epochDiff, loggerOf, members), w, id) == if id < BUFFER_NUM then 1 else 0
  {
    var x := InitWorker(w);
    assert x.free == [CleanBuffer(w, 1, false)];
    assert x.free[..0] == [];
  }

  /** In every reachable state each buffer of a worker's pool is in exactly one place: it is current, in
      the pool, in the queue, or in the logger's batch. */
  lemma BuffersConserved(epochDiff: nat, loggerOf: seq<nat>, members: seq<seq<nat>>, s: State, w: nat, id: nat)
    requires Reachable(epochDiff, loggerOf, members, s) && w < |loggerOf|
    ensures WorkerIn(s, w) && Places(s, w, id) == if id < BUFFER_NUM then 1 else 0
  {
    var init := InitState(epochDiff, loggerOf, members);
    var trace :| Reaches(init, trace, s);
    LogSteps.InitInv(epochDiff, loggerOf, members);
    RunPlaces(init, trace, s, w, id);
    InitPlaces(epochDiff, loggerOf, members, w, id);
  }

  // ---- A worker that waits has a CTIDW ------------------------------------------------------

  ghost predicate NothingOut(lg: Logger, w: nat) {
    && (forall i :: 0 <= i < |lg.queue| ==> lg.queue[i].owner != w)
    && (forall i :: 0 <= i < |Batch(lg)| ==> Batch(lg)[i].owner != w)
  }

  /** Until a worker stores its first CTIDW it has its first buffer in hand and has published nothing,
      save at the end of its first wal. */
  ghost predicate Seasoned(s: State, w: nat) {
    && WorkerIn(s, w)
    && var x := s.ws[w];
    Real(x.ctidw) || x.pc.WalStore? ||
      (x.cur.Some? && NothingOut(s.ls[s.loggerOf[w]], w) && (x.pc.WalFull? || !x.cur.value.used))
  }

  lemma StillNothingOut(lg: Logger, lg': Logger, w: nat)
    requires NothingOut(lg, w) && lg'.queue == lg.queue && Batch(lg') == Batch(lg)
    ensures NothingOut(lg', w)
  {
  }

  lemma StoreSeasoned(s: State, w: nat)
    requires Inv(s) && Bounded(s) && Enabled(s, WorkerStep(w)) && (s.ws[w].pc.WalStore? || s.ws[w].pc.EwStored?)
    ensures Seasoned(WorkerStepOf(s, w), w)
  {
    assert WorkerOk(s.ws[w], w, s.ge);
  }

  lemma OwnStepSeasoned(s: State, w: nat)
    requires Inv(s) && Bounded(s) && Enabled(s, WorkerStep(w)) && Seasoned(s, w)
    ensures Seasoned(WorkerStepOf(s, w), w)
  {
    if s.ws[w].pc.WalStore? || s.ws[w].pc.EwStored? {
      StoreSeasoned(s, w);
    } else if s.ws[w].pc.WalAppend? {
      assert Seasoned(WalAppendStep(s, w), w);
    } else {
      PublishSeasoned(s, w);
    }
  }

  lemma PublishSeasoned(s: State, w: nat)
    requires Enabled(s, WorkerStep(w)) && Seasoned(s, w)
    requires s.ws[w].pc.WalPublish? || s.ws[w].pc.WalFull? || s.ws[w].pc.Ending?
    ensures Seasoned(WorkerStepOf(s, w), w)
  {
    var x := s.ws[w];
    if x.pc.Ending? {
      var l := s.loggerOf[w];
      if NothingOut(s.ls[l], w) { StillNothingOut(s.ls[l], WorkerEndStep(s, w).ls[l], w); }
    } else if x.pc.WalPublish? {
      assert Seasoned(Publish(s, w, WalAppend(x.pc.ctid, x.pc.push, x.pc.begins)), w);
    }
  }

  lemma EnqueueElsewhere(q: seq<Buffer>, b: Buffer, w: nat)
    requires b.owner != w && forall i :: 0 <= i < |q| ==> q[i].owner != w
    ensures forall i :: 0 <= i < |Enq(q, b)| ==> Enq(q, b)[i].owner != w
  {
    EnqMembers(q, b);
    forall i | 0 <= i < |Enq(q, b)| ensures Enq(q, b)[i].owner != w { assert Enq(q, b)[i] in Enq(q, b); }
  }

  /** Another worker's publishing. */
  lemma PublishElsewhere(s: State, w: nat, pc: LogPc, v: nat)
    requires Inv(s) && WorkerIn(s, w) && v != w && Seasoned(s, v)
    ensures Seasoned(Publish(s, w, pc), v)
  {
    assert WorkerOk(s.ws[w], w, s.ge);
    var x, lg := s.ws[w], s.ls[s.loggerOf[w]];
    if x.cur.Some? && NothingOut(lg, v) { EnqueueElsewhere(lg.queue, x.cur.value, v); }
  }

  lemma WorkerElsewhere(s: State, w: nat, v: nat)
    requires Inv(s) && Enabled(s, WorkerStep(w)) && v != w && Seasoned(s, v)
    ensures Seasoned(WorkerStepOf(s, w), v)
  {
    if s.ws[w].pc.WalPublish? {
      PublishElsewhere(s, w, WalAppend(s.ws[w].pc.ctid, s.ws[w].pc.push, s.ws[w].pc.begins), v);
    } else if s.ws[w].pc.WalFull? {
      PublishElsewhere(s, w, WalStore(s.ws[w].pc.ctid, s.ws[w].pc.begins), v);
    } else {
      QuietWorker(s, w, v);
    }
  }

  lemma QuietWorker(s: State, w: nat, v: nat)
    requires Enabled(s, WorkerStep(w)) && v != w && Seasoned(s, v) && !s.ws[w].pc.WalPublish? && !s.ws[w].pc.WalFull?
    ensures Seasoned(WorkerStepOf(s, w), v)
  {
    WorkerStepFrame(s, w);
    QuietWorkerQueue(s, w);
    var l := s.loggerOf[v];
    if NothingOut(s.ls[l], v) { StillNothingOut(s.ls[l], WorkerStepOf(s, w).ls[l], v); }
  }

  lemma QuietWorkerQueue(s: State, w: nat)
    requires Enabled(s, WorkerStep(w)) && !s.ws[w].pc.WalPublish? && !s.ws[w].pc.WalFull?
    ensures |WorkerStepOf(s, w).ls| == |s.ls|
    ensures WorkerStepOf(s, w).ls[s.loggerOf[w]].queue == s.ls[s.loggerOf[w]].queue
    ensures WorkerStepOf(s, w).ls[s.loggerOf[w]].pc == s.ls[s.loggerOf[w]].pc
  {
  }

  lemma LoggerSeasoned(s: State, l: nat, v: nat)
    requires Inv(s) && Enabled(s, LoggerStep(l)) && Seasoned(s, v)
    ensures Seasoned(LoggerStepOf(s, l), v)
  {
    if s.ls[l].pc.WriteOut? {
      FirstOwner(s, l);
      WriteOutSeasoned(s, l, v);
    } else if s.ls[l].pc.Dequeue? {
      DequeueSeasoned(s, l, v);
    } else {
      QuietLogger(s, l);
      QuietSeasoned(s, LoggerStepOf(s, l), l, v);
    }
  }

  lemma FirstOwner(s: State, l: nat)
    requires Inv(s) && l < |s.ls| && s.ls[l].pc.WriteOut?
    ensures s.ls[l].pc.batch != [] ==> s.ls[l].pc.batch[0].owner < |s.ws| == |s.loggerOf|
    ensures s.ls[l].pc.batch != [] ==> s.loggerOf[s.ls[l].pc.batch[0].owner] == l
  {
    assert LoggerOk(s, l);
    if s.ls[l].pc.batch != [] { assert QueuedOk(s, l, Batch(s.ls[l])[0]); }
  }

  lemma QuietSeasoned(s: State, s': State, l: nat, v: nat)
    requires l < |s.ls| && Quiet(s, s', l) && Seasoned(s, v)
    ensures Seasoned(s', v)
  {
    var k := s.loggerOf[v];
    if NothingOut(s.ls[k], v) { StillNothingOut(s.ls[k], s'.ls[k], v); }
  }

  lemma DequeueSeasoned(s: State, l: nat, v: nat)
    requires l < |s.ls| && s.ls[l].pc.Dequeue? && Seasoned(s, v)
    ensures Seasoned(DequeueStep(s, l), v)
  {
    assert NothingOut(s.ls[l], v) ==> NothingOut(DequeueStep(s, l).ls[l], v);
  }

  lemma WriteOutSeasoned(s: State, l: nat, v: nat)
    requires Enabled(s, LoggerStep(l)) && s.ls[l].pc.WriteOut? && Seasoned(s, v)
    requires s.ls[l].pc.batch != [] ==>
               s.ls[l].pc.batch[0].owner < |s.loggerOf| && s.loggerOf[s.ls[l].pc.batch[0].owner] == l
    ensures Seasoned(WriteOutStep(s, l), v)
  {
    var lg, lg' := s.ls[l], WriteOutStep(s, l).ls[l];
    if NothingOut(lg, v) && lg.pc.batch != [] {
      assert Batch(lg') == lg.pc.batch[1..] && lg'.queue == lg.queue;
      forall i | 0 <= i < |Batch(lg')| ensures Batch(lg')[i].owner != v {
        assert Batch(lg')[i] == Batch(lg)[i + 1];
      }
      assert NothingOut(lg', v);
    }
  }

  lemma DrivenSeasoned(s: State, a: Action, v: nat)
    requires Enabled(s, a) && LogSteps.Driven(a) && Seasoned(s, v)
    ensures Seasoned(Apply(s, a), v)
  {
    DrivenHand(s, a);
    DrivenPhase(s, a);
  }

  lemma DrivenPhase(s: State, a: Action)
    requires Enabled(s, a) && LogSteps.Driven(a)
    ensures a.w < |Apply(s, a).ws| && Apply(s, a).ws[a.w].ctidw == s.ws[a.w].ctidw
    ensures !s.ws[a.w].pc.WalStore? && !s.ws[a.w].pc.WalFull?
  {
  }

  lemma StepSeasoned(s: State, a: Action, v: nat)
    requires Inv(s) && Bounded(s) && Enabled(s, a) && Seasoned(s, v)
    ensures Seasoned(Apply(s, a), v)
  {
    if a.WorkerStep? {
      if a.w == v { OwnStepSeasoned(s, v); } else { WorkerElsewhere(s, a.w, v); }
    } else if a.LoggerStep? {
      LoggerSeasoned(s, a.l, v);
    } else if a.Stop? {
      if a.w != v { PublishElsewhere(s, a.w, Ending, v); }
    } else if a.Pause? {
      if a.w != v { PublishElsewhere(s, a.w, Free, v); }
    } else if LogSteps.Driven(a) {
      DrivenSeasoned(s, a, v);
    }
  }

  lemma {:induction false} RunSeasoned(s: State, trace: seq<Action>, s': State, v: nat)
    requires Inv(s) && Reaches(s, trace, s') && Bounded(s') && Seasoned(s, v)
    ensures Seasoned(s', v)
    decreases |trace|
  {
    if trace != [] {
      RunGrows(s, trace, s');
      RunGrows(Apply(s, trace[0]), trace[1..], s');
      StepSeasoned(s, trace[0], v);
      LogSteps.StepKeepsInv(s, trace[0]);
      RunSeasoned(Apply(s, trace[0]), trace[1..], s', v);
    }
  }

  // ---- The logger's next pass returns a buffer ----------------------------------------------

  /** What the scan knows after k workers. */
  ghost predicate Scanned(s: State, l: nat, pc: LoggerPc)
    requires l < |s.ls|
  {
    && pc.ScanWorkers? && !pc.timeout && pc.k <= |s.ls[l].members|
    && pc.min.Valid() && (pc.min == ALL_ONES || 1 <= pc.min.epoch < EPOCH_LIMIT - 1)
    && forall i :: 0 <= i < pc.k && s.ls[l].members[i] < |s.ws| && Real(s.ws[s.ls[l].members[i]].ctidw) ==>
        pc.min != ALL_ONES
  }

  lemma {:induction false} ScansTo(s0: State, s: State, l: nat, k: nat) returns (pc: LoggerPc)
    requires Inv(s) && Bounded(s) && l < |s.ls| && k <= |s.ls[l].members|
    requires Ran(s0, LoggerThread(l), To(s, l, ScanWorkers(false, 0, ALL_ONES, false)))
    ensures Scanned(s, l, pc) && pc.k == k && Ran(s0, LoggerThread(l), To(s, l, pc))
  {
    if k == 0 {
      pc := ScanWorkers(false, 0, ALL_ONES, false);
    } else {
      pc := ScansTo(s0, s, l, k - 1);
      Loggers.ScanMore(s0, s, l, pc);
      pc := ScansOne(s, l, pc);
    }
  }

  lemma ScansOne(s: State, l: nat, pc: LoggerPc) returns (pc': LoggerPc)
    requires Inv(s) && Bounded(s) && l < |s.ls| && Scanned(s, l, pc) && pc.k < |s.ls[l].members|
    ensures var c := s.ws[s.ls[l].members[pc.k]].ctidw;
            pc' == ScanWorkers(pc.timeout, pc.k + 1, if c.Obj() > 0 && Less(c, pc.min) then c else pc.min,
                               pc.skipped || c == ALL_ONES)
    ensures Scanned(s, l, pc')
  {
    var v := s.ls[l].members[pc.k];
    assert WorkerOk(s.ws[v], v, s.ge);
    var c := s.ws[v].ctidw;
    LogSteps.ScanMin(c, pc.min);
    pc' := ScanWorkers(pc.timeout, pc.k + 1, if c.Obj() > 0 && Less(c, pc.min) then c else pc.min,
                       pc.skipped || c == ALL_ONES);
  }

  /** Writing a batch in which w has a buffer fills its pool. */
  lemma {:induction false} WritesTo(s0: State, s: State, l: nat, w: nat, i: nat) returns (t: State)
    requires Loggers.Fit(s, l) && s.ls[l].pc.WriteOut? && Ran(s0, LoggerThread(l), s) && w < |s.ws|
    requires i < |s.ls[l].pc.batch| && s.ls[l].pc.batch[i].owner == w
    requires forall k :: 0 <= k < |s.ls[l].pc.batch| ==> s.ls[l].pc.batch[k].owner < |s.ws|
    ensures Ran(s0, LoggerThread(l), t) && w < |t.ws| && t.ws[w].free != []
    decreases i
  {
    t := Loggers.Wrote(s0, s, l);
    if i > 0 {
      assert t.ls[l].pc.batch[i - 1] == s.ls[l].pc.batch[i];
      t := WritesTo(s0, t, l, w, i - 1);
    }
  }

  lemma {:induction false} OneInQueue(q: seq<Buffer>, w: nat, id: nat) returns (i: nat)
    requires Count(q, w, id) > 0
    ensures i < |q| && q[i].owner == w
  {
    var n := |q| - 1;
    if q[n].owner == w { i := n; } else { i := OneInQueue(q[..n], w, id); }
  }

  /** A worker without a buffer and with none in its pool. */
  predicate Waiting(x: LogWorker) {
    (x.pc.WalAppend? || x.pc.Free?) && x.cur.None? && x.free == []
  }

  /** A logger that begins its next pass has the worker's buffers in its queue; by its own steps alone it
      gets past the test for epoch 0 and returns one of them. */
  lemma PassReturns(epochDiff: nat, loggerOf: seq<nat>, members: seq<seq<nat>>, s: State, w: nat) returns (t: State)
    requires Reachable(epochDiff, loggerOf, members, s) && w < |loggerOf| && WorkerIn(s, w) && Waiting(s.ws[w])
    requires s.ls[s.loggerOf[w]].pc.Wait?
    ensures var l := s.loggerOf[w];
            && !s.ls[l].quit && s.ls[l].queue != []
            && Ran(s, LoggerThread(l), t) && w < |t.ws| && t.ws[w].free != []
  {
    var l := s.loggerOf[w];
    ReachableInv(epochDiff, loggerOf, members, s);
    BuffersConserved(epochDiff, loggerOf, members, s, w, 0);
    var i := OneInQueue(s.ls[l].queue, w, 0);
    LogSteps.StillRunning(s, w);
    WaitingSeasoned(epochDiff, loggerOf, members, s, w);
    t := PassFrom(s, w, i);
  }

  /** How far a logger is from waiting again: the phase it is in, and what is left of its loop. */
  function Phase(pc: LoggerPc): nat {
    match pc
    case ScanWorkers(_, _, _, _) => 12
    case ScanQueue(_, _, _) => 11
    case Dequeue(_, _) => 10
    case WriteOut(_, _, _) => 9
    case Sync(_, _) => 8
    case Send(_, _) => 7
    case Fold(_, _, _) => 6
    case FoldLoad(_, _) => 5
    case FoldCas(_, _, _) => 4
    case FoldWrite(_, _) => 3
    case StoreBound(_, _) => 2
    case Wait => 1
    case Done => 0
  }

  function Rounds(s: State, l: nat): nat
    requires l < |s.ls|
  {
    match s.ls[l].pc
    case ScanWorkers(_, k, _, _) => if k <= |s.ls[l].members| then |s.ls[l].members| - k else 0
    case WriteOut(_, _, batch) => |batch|
    case Fold(_, k, _) => if k <= |s.ls| then |s.ls| - k else 0
    case _ => 0
  }

  predicate Nearer(s: State, t: State, l: nat)
    requires l < |s.ls| && l < |t.ls|
  {
    || Phase(t.ls[l].pc) < Phase(s.ls[l].pc)
    || (Phase(t.ls[l].pc) == Phase(s.ls[l].pc) && Rounds(t, l) < Rounds(s, l))
  }

  /** A step within a pass brings its end nearer. */
  lemma StepNearer(s: State, l: nat)
    requires Enabled(s, LoggerStep(l)) && !s.ls[l].pc.Wait?
    ensures |LoggerStepOf(s, l).ls| == |s.ls| && Nearer(s, LoggerStepOf(s, l), l)
  {
    if Storing(s.ls[l].pc) { StoringNearer(s, l); } else { EarlyNearer(s, l); }
  }

  lemma StoringNearer(s: State, l: nat)
    requires Enabled(s, LoggerStep(l)) && Storing(s.ls[l].pc)
    ensures |LoggerStepOf(s, l).ls| == |s.ls| && Nearer(s, LoggerStepOf(s, l), l)
  {
  }

  lemma EarlyNearer(s: State, l: nat)
    requires Enabled(s, LoggerStep(l)) && !s.ls[l].pc.Wait? && !Storing(s.ls[l].pc)
    ensures |LoggerStepOf(s, l).ls| == |s.ls| && Nearer(s, LoggerStepOf(s, l), l)
  {
  }

  /** To a worker a logger's step does nothing, or it gives it a buffer. */
  lemma StepGives(s: State, l: nat, w: nat)
    requires Enabled(s, LoggerStep(l)) && w < |s.ws|
    ensures var t := LoggerStepOf(s, l);
            |t.ws| == |s.ws| && t.ge == s.ge && t.loggerOf == s.loggerOf && (t.ws[w] == s.ws[w] || t.ws[w].free != [])
  {
    if s.ls[l].pc.WriteOut? {
      assert WriteOutStep(s, l).ws[w] == s.ws[w] || WriteOutStep(s, l).ws[w].free != [];
    } else if s.ls[l].pc.StoreBound? {
      assert StoreBoundStep(s, l).ws == s.ws;
    } else {
      LoggerPcOnly(s, l);
    }
  }

  /** The logger of a worker that has not stopped is in its loop, and can take its next step. */
  lemma InLoop(s: State, w: nat)
    requires Inv(s) && WorkerIn(s, w) && !s.ws[w].pc.Stopped?
    ensures var l := s.loggerOf[w]; !Ended(s.ls[l].pc) && (!s.ls[l].pc.Wait? ==> Enabled(s, LoggerStep(l)))
  {
    var l := s.loggerOf[w];
    LogSteps.StillRunning(s, w);
    assert LoggerOk(s, l) && ScanOk(s, l);
    if s.ls[l].pc.WriteOut? { FirstOwner(s, l); }
  }

  lemma StepReachable(epochDiff: nat, loggerOf: seq<nat>, members: seq<seq<nat>>, s: State, a: Action)
    requires Reachable(epochDiff, loggerOf, members, s) && Enabled(s, a) && Bounded(Apply(s, a))
    ensures Reachable(epochDiff, loggerOf, members, Apply(s, a))
  {
    var init := InitState(epochDiff, loggerOf, members);
    var trace :| Reaches(init, trace, s);
    ReachesOneMore(init, trace, s, a);
  }

  /** While a worker waits for a buffer its logger is alive, and whatever it is doing, by its own steps alone
      it returns one of the worker's buffers. */
  lemma {:induction false} NextPassReturns(epochDiff: nat, loggerOf: seq<nat>, members: seq<seq<nat>>, s: State, w: nat)
    returns (t: State)
    requires Reachable(epochDiff, loggerOf, members, s) && w < |loggerOf| && WorkerIn(s, w) && Waiting(s.ws[w])
    ensures !Ended(s.ls[s.loggerOf[w]].pc)
    ensures Ran(s, LoggerThread(s.loggerOf[w]), t) && w < |t.ws| && t.ws[w].free != []
    decreases Phase(s.ls[s.loggerOf[w]].pc), Rounds(s, s.loggerOf[w])
  {
    var l := s.loggerOf[w];
    ReachableInv(epochDiff, loggerOf, members, s);
    InLoop(s, w);
    if s.ls[l].pc.Wait? {
      t := PassReturns(epochDiff, loggerOf, members, s, w);
    } else {
      RanNone(s, LoggerThread(l));
      var s1 := Extend(s, LoggerThread(l), s, LoggerStep(l));
      StepGives(s, l, w);
      StepNearer(s, l);
      StepReachable(epochDiff, loggerOf, members, s, LoggerStep(l));
      if s1.ws[w].free != [] {
        t := s1;
      } else {
        t := NextPassReturns(epochDiff, loggerOf, members, s1, w);
        RanThen(s, LoggerThread(l), s1, t);
      }
    }
  }

  lemma WaitingSeasoned(epochDiff: nat, loggerOf: seq<nat>, members: seq<seq<nat>>, s: State, w: nat)
    requires Reachable(epochDiff, loggerOf, members, s) && w < |loggerOf| && WorkerIn(s, w) && Waiting(s.ws[w])
    ensures Real(s.ws[w].ctidw)
  {
    var init := InitState(epochDiff, loggerOf, members);
    var trace :| Reaches(init, trace, s);
    LogSteps.InitInv(epochDiff, loggerOf, members);
    assert Seasoned(init, w);
    RunSeasoned(init, trace, s, w);
  }

  lemma PassFrom(s: State, w: nat, i: nat) returns (t: State)
    requires Inv(s) && Bounded(s) && WorkerIn(s, w) && Real(s.ws[w].ctidw) && s.ls[s.loggerOf[w]].pc.Wait?
    requires i < |s.ls[s.loggerOf[w]].queue| && s.ls[s.loggerOf[w]].queue[i].owner == w
    ensures Ran(s, LoggerThread(s.loggerOf[w]), t) && w < |t.ws| && t.ws[w].free != []
  {
    var l := s.loggerOf[w];
    var pc := PassScans(s, w);
    var s1 := To(s, l, pc);
    var s2 := Loggers.Dequeued(s, s1, l);
    OwnersIn(s, l);
    t := WritesTo(s, s2, l, w, i);
  }

  lemma OwnersIn(s: State, l: nat)
    requires Inv(s) && l < |s.ls|
    ensures forall k :: 0 <= k < |s.ls[l].queue| ==> s.ls[l].queue[k].owner < |s.ws|
  {
    assert LoggerOk(s, l);
    forall k | 0 <= k < |s.ls[l].queue| ensures s.ls[l].queue[k].owner < |s.ws| {
      assert QueuedOk(s, l, s.ls[l].queue[k]);
    }
  }

  /** The scan of the pass ends with a bound. */
  lemma PassScans(s: State, w: nat) returns (pc: LoggerPc)
    requires Inv(s) && Bounded(s) && WorkerIn(s, w) && Real(s.ws[w].ctidw) && s.ls[s.loggerOf[w]].pc.Wait?
    requires s.ls[s.loggerOf[w]].queue != []
    ensures pc.Dequeue? && Ran(s, LoggerThread(s.loggerOf[w]), To(s, s.loggerOf[w], pc))
  {
    var l := s.loggerOf[w];
    RanNone(s, LoggerThread(l));
    Loggers.RanStep(s, l, s, To(s, l, ScanWorkers(false, 0, ALL_ONES, false)));
    var pc0 := ScansTo(s, s, l, |s.ls[l].members|);
    var k :| 0 <= k < |s.ls[l].members| && s.ls[l].members[k] == w;
    assert LoggerOk(s, l);
    LogSteps.QueueFloor(s, l);
    Loggers.ScanEnds(s, s, l, pc0);
    pc := Loggers.ScanResult(s, l, pc0);
  }
}
