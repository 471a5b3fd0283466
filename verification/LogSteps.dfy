/** Every step of the durability pipeline keeps the invariant. */
module LogSteps {
  import opened TidWords
  import opened LogModel
  import opened LogInv
  import C = CommitModel

  // ---- A worker moves -----------------------------------------------------------------------

  lemma OwnerAhead(s: State, s': State, w: nat, v: nat)
    requires w < |s.ws| == |s'.ws| && v < |s.ws| && s'.ws == s.ws[w := s'.ws[w]] && Ahead(s.ws[w], s'.ws[w])
    ensures Ahead(s.ws[v], s'.ws[v])
  {
  }

  lemma QueuedKept(s: State, s': State, w: nat, l: nat, q: seq<Buffer>)
    requires AllQueuedOk(s, l, q) && s'.loggerOf == s.loggerOf
    requires w < |s.ws| == |s'.ws| && s'.ws == s.ws[w := s'.ws[w]] && Ahead(s.ws[w], s'.ws[w])
    ensures AllQueuedOk(s', l, q)
  {
    forall i | 0 <= i < |q| ensures QueuedOk(s', l, q[i]) {
      assert QueuedOk(s, l, q[i]);
      OwnerAhead(s, s', w, q[i].owner);
    }
  }

  lemma CoveredKept(s: State, s': State, w: nat, l: nat, n: nat, e: nat)
    requires l < |s.ls| == |s'.ls| && s'.ls[l].members == s.ls[l].members && AllCovered(s, l, n, e)
    requires w < |s.ws| == |s'.ws| && s'.ws == s.ws[w := s'.ws[w]] && Ahead(s.ws[w], s'.ws[w])
    ensures AllCovered(s', l, n, e)
  {
    forall i | 0 <= i < n && i < |s.ls[l].members| && s.ls[l].members[i] < |s.ws|
      ensures Covered(s'.ws[s.ls[l].members[i]], e)
    {
      assert Covered(s.ws[s.ls[l].members[i]], e);
      OwnerAhead(s, s', w, s.ls[l].members[i]);
    }
  }

  /** A logger whose own record did not change. */
  lemma LoggerKept(s: State, s': State, w: nat, l: nat)
    requires Inv(s) && l < |s.ls| == |s'.ls| && s'.ls[l] == s.ls[l]
    requires s'.loggerOf == s.loggerOf && s'.ge == s.ge && s'.durable == s.durable
    requires forall k :: 0 <= k < |s.ls| ==> s'.ls[k].durable == s.ls[k].durable
    requires w < |s.ws| == |s'.ws| && s'.ws == s.ws[w := s'.ws[w]] && Ahead(s.ws[w], s'.ws[w])
    ensures LoggerOk(s', l) && SafeOk(s', l) && ScanOk(s', l) && FoldOk(s', l)
  {
    assert LoggerOk(s, l) && SafeOk(s, l) && ScanOk(s, l) && FoldOk(s, l);
    RecordKept(s, s', w, l);
    ScanKept(s, s', w, l);
  }

  lemma RecordKept(s: State, s': State, w: nat, l: nat)
    requires l < |s.ls| == |s'.ls| && s'.ls[l] == s.ls[l] && s'.loggerOf == s.loggerOf && s'.ge == s.ge
    requires LoggerOk(s, l) && SafeOk(s, l)
    requires w < |s.ws| == |s'.ws| && s'.ws == s.ws[w := s'.ws[w]] && Ahead(s.ws[w], s'.ws[w])
    ensures LoggerOk(s', l) && SafeOk(s', l)
  {
    var lg := s.ls[l];
    QueuedKept(s, s', w, l, lg.queue);
    QueuedKept(s, s', w, l, Batch(lg));
    if !lg.blind && lg.durable > 0 { CoveredKept(s, s', w, l, |lg.members|, lg.durable + 1); }
  }

  lemma ScanKept(s: State, s': State, w: nat, l: nat)
    requires l < |s.ls| == |s'.ls| && s'.ls[l] == s.ls[l] && s'.ge == s.ge && ScanOk(s, l)
    requires w < |s.ws| == |s'.ws| && s'.ws == s.ws[w := s'.ws[w]] && Ahead(s.ws[w], s'.ws[w])
    ensures ScanOk(s', l)
  {
    var lg := s.ls[l];
    if lg.pc.ScanWorkers? {
      if !lg.pc.skipped { CoveredKept(s, s', w, l, lg.pc.k, lg.pc.min.epoch); }
    } else if lg.pc.ScanQueue? {
      if !lg.pc.skipped { CoveredKept(s, s', w, l, |lg.members|, lg.pc.epoch); }
    } else if BoundOf(lg.pc).Some? {
      var (b, skipped) := BoundOf(lg.pc).value;
      if !skipped { CoveredKept(s, s', w, l, |lg.members|, b); }
    }
  }

  /** A worker changes itself; `p` is what it appends to its buffer. */
  lemma WorkerMoves(s: State, w: nat, x': LogWorker, p: seq<Push>)
    requires Inv(s) && w < |s.ws| && WorkerOk(x', w, s.ge) && Ahead(s.ws[w], x')
    requires x'.hist == s.ws[w].hist + p && CurOf(x') == CurOf(s.ws[w]) + p
    ensures Inv(SetW(s, w, x'))
  {
    var s' := SetW(s, w, x');
    forall l | 0 <= l < |s'.ls|
      ensures LoggerOk(s', l) && SafeOk(s', l) && ScanOk(s', l) && FoldOk(s', l)
    {
      LoggerKept(s, s', w, l);
    }
    forall v | 0 <= v < |s'.ws| ensures WorkerOk(s'.ws[v], v, s'.ge) && StreamOk(s', v) {
      assert WorkerOk(s.ws[v], v, s.ge) && StreamOk(s, v);
      if v == w { AppendRight(Holding(s.ls[s.loggerOf[w]], w), CurOf(s.ws[w]), p); }
    }
  }

  lemma AppendRight(h: seq<Push>, c: seq<Push>, p: seq<Push>)
    ensures h + c + p == h + (c + p)
  {
  }

  /** A worker changes neither its buffer's contents nor its history. */
  lemma WorkerTurns(s: State, w: nat, x': LogWorker)
    requires Inv(s) && w < |s.ws| && WorkerOk(x', w, s.ge) && Ahead(s.ws[w], x')
    requires x'.hist == s.ws[w].hist && CurOf(x') == CurOf(s.ws[w])
    ensures Inv(SetW(s, w, x'))
  {
    WorkerMoves(s, w, x', []);
  }

  // ---- Publishing ---------------------------------------------------------------------------

  /** What publishing a used buffer needs: it ranks with everything its worker published before, and
      above every bound that is being settled. */
  ghost predicate MayPublish(s: State, w: nat, b: Buffer)
    requires w < |s.ws|
  {
    && BufferOk(b) && b.owner == w
    && (Clean(b) || (b.minEpoch == Top(s.ws[w]) && (Real(s.ws[w].ctidw) ==> s.ws[w].ctidw.epoch <= b.minEpoch)))
  }

  /** The state once worker w has enqueued b and kept no buffer. */
  function Enqueued(s: State, w: nat, x': LogWorker, b: Buffer): State
    requires WorkerIn(s, w)
  {
    var l := s.loggerOf[w];
    SetL(SetW(s, w, x'), l, s.ls[l].(queue := Enq(s.ls[l].queue, b)))
  }

  /** Enqueueing the current buffer of w moves its records behind those already queued. */
  lemma EnqueueMoves(s: State, w: nat, x': LogWorker, b: Buffer)
    requires Inv(s) && WorkerIn(s, w) && s.ws[w].cur == Some(b) && MayPublish(s, w, b)
    requires x'.cur == None && x'.hist == s.ws[w].hist && x'.ctidw == s.ws[w].ctidw
    requires WorkerOk(x', w, s.ge) && Ahead(s.ws[w], x') && !s.ws[w].pc.Stopped?
    ensures Inv(Enqueued(s, w, x', b))
  {
    var s' := Enqueued(s, w, x', b);
    EnqueuedLoggers(s, s', w, b);
    EnqueuedWorkers(s, s', w, b);
  }

  lemma EnqueuedLoggers(s: State, s': State, w: nat, b: Buffer)
    requires Inv(s) && WorkerIn(s, w) && s.ws[w].cur == Some(b) && MayPublish(s, w, b)
    requires w < |s'.ws| && s' == Enqueued(s, w, s'.ws[w], b) && Ahead(s.ws[w], s'.ws[w]) && !s.ws[w].pc.Stopped?
    ensures forall l :: 0 <= l < |s'.ls| ==> LoggerOk(s', l) && SafeOk(s', l) && ScanOk(s', l) && FoldOk(s', l)
  {
    forall l | 0 <= l < |s'.ls| ensures LoggerOk(s', l) && SafeOk(s', l) && ScanOk(s', l) && FoldOk(s', l) {
      if l == s.loggerOf[w] { EnqueuedLogger(s, s', w, b); } else { LoggerKept(s, s', w, l); }
    }
  }

  lemma EnqueuedWorkers(s: State, s': State, w: nat, b: Buffer)
    requires Inv(s) && WorkerIn(s, w) && s.ws[w].cur == Some(b) && MayPublish(s, w, b)
    requires w < |s'.ws| && s' == Enqueued(s, w, s'.ws[w], b) && s'.ws[w].cur == None && s'.ws[w].hist == s.ws[w].hist
    requires WorkerOk(s'.ws[w], w, s.ge)
    ensures forall v :: 0 <= v < |s'.ws| ==> WorkerOk(s'.ws[v], v, s'.ge) && StreamOk(s', v)
  {
    forall v | 0 <= v < |s'.ws| ensures WorkerOk(s'.ws[v], v, s'.ge) && StreamOk(s', v) {
      EnqueuedWorker(s, s', w, b, v);
    }
  }

  lemma EnqueuedWorker(s: State, s': State, w: nat, b: Buffer, v: nat)
    requires Inv(s) && WorkerIn(s, w) && s.ws[w].cur == Some(b) && MayPublish(s, w, b)
    requires w < |s'.ws| && s' == Enqueued(s, w, s'.ws[w], b) && s'.ws[w].cur == None && s'.ws[w].hist == s.ws[w].hist
    requires v < |s.ws| && WorkerOk(s'.ws[w], w, s.ge)
    ensures WorkerOk(s'.ws[v], v, s'.ge) && StreamOk(s', v)
  {
    assert WorkerOk(s.ws[v], v, s.ge) && StreamOk(s, v);
    if s.loggerOf[v] == s.loggerOf[w] { EnqueuedStream(s, s', w, b, v); }
  }

  lemma EnqueuedStream(s: State, s': State, w: nat, b: Buffer, v: nat)
    requires Inv(s) && WorkerIn(s, w) && s.ws[w].cur == Some(b) && MayPublish(s, w, b)
    requires w < |s'.ws| && s' == Enqueued(s, w, s'.ws[w], b) && s'.ws[w].cur == None && s'.ws[w].hist == s.ws[w].hist
    requires v < |s.ws| && s.loggerOf[v] == s.loggerOf[w]
    ensures StreamOk(s', v)
  {
    assert StreamOk(s, v);
    if v == w { OwnStream(s, s', w, b); } else { OtherStream(s, s', w, b, v); }
  }

  lemma OwnStream(s: State, s': State, w: nat, b: Buffer)
    requires Inv(s) && WorkerIn(s, w) && s.ws[w].cur == Some(b) && MayPublish(s, w, b) && StreamOk(s, w)
    requires w < |s'.ws| && s' == Enqueued(s, w, s'.ws[w], b) && s'.ws[w].cur == None && s'.ws[w].hist == s.ws[w].hist
    ensures StreamOk(s', w)
  {
    var lg := s.ls[s.loggerOf[w]];
    if b.pushes != [] { QueueBelow(s, w, b); }
    EnqStream(lg.queue, b, w);
    ShiftRight(s.ws[w].hist, FileOf(lg.file, w) + BufsOf(Batch(lg), w), BufsOf(lg.queue, w), b.pushes);
  }

  lemma OtherStream(s: State, s': State, w: nat, b: Buffer, v: nat)
    requires WorkerIn(s, w) && b.owner == w && v < |s.ws| == |s.loggerOf| && v != w && s.loggerOf[v] == s.loggerOf[w]
    requires w < |s'.ws| && s' == Enqueued(s, w, s'.ws[w], b) && StreamOk(s, v)
    ensures StreamOk(s', v)
  {
    var lg := s.ls[s.loggerOf[w]];
    EnqStream(lg.queue, b, v);
    assert BufsOf(Enq(lg.queue, b), v) == BufsOf(lg.queue, v);
  }

  lemma ShiftRight(h: seq<Push>, p: seq<Push>, q: seq<Push>, c: seq<Push>)
    requires h == p + q + c
    ensures h == p + (q + c) + []
  {
  }

  lemma QueueBelow(s: State, w: nat, b: Buffer)
    requires Inv(s) && WorkerIn(s, w) && MayPublish(s, w, b) && b.pushes != []
    ensures var q := s.ls[s.loggerOf[w]].queue;
            forall i :: 0 <= i < |q| && OwnOf(q[i], w) != [] ==> q[i].minEpoch <= b.minEpoch
  {
    var l := s.loggerOf[w];
    var q := s.ls[l].queue;
    assert LoggerOk(s, l);
    forall i | 0 <= i < |q| && OwnOf(q[i], w) != [] ensures q[i].minEpoch <= b.minEpoch {
      assert QueuedOk(s, l, q[i]);
    }
  }

  lemma EnqueuedLogger(s: State, s': State, w: nat, b: Buffer)
    requires Inv(s) && WorkerIn(s, w) && s.ws[w].cur == Some(b) && MayPublish(s, w, b)
    requires w < |s'.ws| && s' == Enqueued(s, w, s'.ws[w], b)
    requires Ahead(s.ws[w], s'.ws[w]) && !s.ws[w].pc.Stopped?
    ensures var l := s.loggerOf[w]; LoggerOk(s', l) && SafeOk(s', l) && ScanOk(s', l) && FoldOk(s', l)
  {
    var l := s.loggerOf[w];
    EnqueuedLoggerOk(s, s', w, b);
    EnqueuedSafe(s, s', w, b);
    EnqueuedScan(s, s', w, b);
    assert FoldOk(s', l) by { assert FoldOk(s, l); }
  }

  lemma EnqueuedLoggerOk(s: State, s': State, w: nat, b: Buffer)
    requires Inv(s) && WorkerIn(s, w) && MayPublish(s, w, b)
    requires w < |s'.ws| && s' == Enqueued(s, w, s'.ws[w], b) && Ahead(s.ws[w], s'.ws[w]) && !s.ws[w].pc.Stopped?
    ensures LoggerOk(s', s.loggerOf[w])
  {
    var l := s.loggerOf[w];
    var lg, lg' := s.ls[l], s'.ls[l];
    assert LoggerOk(s, l);
    StillRunning(s, w);
    EnqOrder(lg.queue, b);
    QueuedKept(s, s', w, l, lg.queue);
    QueuedKept(s, s', w, l, Batch(lg));
    forall i | 0 <= i < |lg'.queue| ensures QueuedOk(s', l, lg'.queue[i]) {
      EnqueuedFrom(lg.queue, b, i);
    }
  }

  lemma EnqueuedSafe(s: State, s': State, w: nat, b: Buffer)
    requires Inv(s) && WorkerIn(s, w) && MayPublish(s, w, b)
    requires w < |s'.ws| && s' == Enqueued(s, w, s'.ws[w], b) && Ahead(s.ws[w], s'.ws[w])
    ensures SafeOk(s', s.loggerOf[w])
  {
    var l := s.loggerOf[w];
    var lg := s.ls[l];
    assert SafeOk(s, l);
    if !lg.blind {
      var d := lg.durable;
      if d > 0 { CoveredKept(s, s', w, l, |lg.members|, d + 1); }
      EnqueuedAtLeast(s, w, b, d + 1);
      SafeFrom(s', l);
    }
  }

  lemma SafeFrom(s: State, l: nat)
    requires l < |s.ls|
    requires var lg := s.ls[l];
             && (lg.durable > 0 ==> AllCovered(s, l, |lg.members|, lg.durable + 1))
             && AtLeast(lg.queue, lg.durable + 1) && AtLeast(Batch(lg), lg.durable + 1)
             && UnsyncedAbove(lg, lg.durable)
    ensures SafeOk(s, l)
  {
  }

  /** A worker that has not stopped keeps its logger's queue open. */
  lemma StillRunning(s: State, w: nat)
    requires Inv(s) && WorkerIn(s, w) && !s.ws[w].pc.Stopped?
    ensures w in s.ls[s.loggerOf[w]].running && !s.ls[s.loggerOf[w]].quit
  {
    var l := s.loggerOf[w];
    assert LoggerOk(s, l);
    var k :| 0 <= k < |s.ls[l].members| && s.ls[l].members[k] == w;
  }

  lemma EnqueuedFrom(q: seq<Buffer>, b: Buffer, i: nat)
    requires i < |Enq(q, b)|
    ensures Enq(q, b)[i] == b || exists j :: 0 <= j < |q| && q[j] == Enq(q, b)[i]
  {
    EnqMembers(q, b);
    assert Enq(q, b)[i] in Enq(q, b);
  }

  /** A buffer of a covered worker is not below what covers it. */
  lemma EnqueuedAtLeast(s: State, w: nat, b: Buffer, e: nat)
    requires Inv(s) && WorkerIn(s, w) && MayPublish(s, w, b) && AtLeast(s.ls[s.loggerOf[w]].queue, e)
    requires e <= 1 || AllCovered(s, s.loggerOf[w], |s.ls[s.loggerOf[w]].members|, e)
    ensures AtLeast(Enq(s.ls[s.loggerOf[w]].queue, b), e)
  {
    var lg := s.ls[s.loggerOf[w]];
    var k :| 0 <= k < |lg.members| && lg.members[k] == w;
    assert e <= 1 || Covered(s.ws[lg.members[k]], e);
    forall i | 0 <= i < |Enq(lg.queue, b)|
      ensures Clean(Enq(lg.queue, b)[i]) || e <= Enq(lg.queue, b)[i].minEpoch
    {
      EnqueuedFrom(lg.queue, b, i);
    }
  }

  lemma EnqueuedScan(s: State, s': State, w: nat, b: Buffer)
    requires Inv(s) && WorkerIn(s, w) && MayPublish(s, w, b)
    requires w < |s'.ws| && s' == Enqueued(s, w, s'.ws[w], b) && Ahead(s.ws[w], s'.ws[w])
    ensures ScanOk(s', s.loggerOf[w])
  {
    var l := s.loggerOf[w];
    var lg := s.ls[l];
    assert ScanOk(s, l);
    if lg.pc.ScanWorkers? {
      if !lg.pc.skipped { CoveredKept(s, s', w, l, lg.pc.k, lg.pc.min.epoch); }
    } else if lg.pc.ScanQueue? {
      if !lg.pc.skipped { CoveredKept(s, s', w, l, |lg.members|, lg.pc.epoch); }
    } else if BoundOf(lg.pc).Some? {
      var (bound, skipped) := BoundOf(lg.pc).value;
      if !skipped {
        CoveredKept(s, s', w, l, |lg.members|, bound);
        EnqueuedAtLeast(s, w, b, bound);
      }
    }
  }

  /** publish(): the used buffer goes to the queue, an unused one stays. */
  lemma PublishKeeps(s: State, w: nat, pc': LogPc)
    requires Inv(s) && WorkerIn(s, w) && s.ws[w].cur.Some? && MayPublish(s, w, s.ws[w].cur.value)
    requires !s.ws[w].pc.Stopped? && !pc'.Stopped?
    requires Top(s.ws[w]) <= Top(s.ws[w].(pc := pc'))
    requires var x := s.ws[w];
             WorkerOk(x.(pc := pc', cur := if x.cur.value.used then None else x.cur), w, s.ge)
    ensures Inv(Publish(s, w, pc'))
  {
    var x := s.ws[w];
    if x.cur.value.used {
      EnqueueMoves(s, w, x.(pc := pc', cur := None), x.cur.value);
    } else {
      WorkerTurns(s, w, x.(pc := pc'));
    }
  }

  // ---- Worker steps -------------------------------------------------------------------------

  lemma RecordsOk(ctid: TidWord, keys: seq<nat>, val: C.Value)
    requires |keys| <= C.MAX_OPE
    ensures WalPushOk(Records(ctid, keys, val), ctid)
  {
  }

  lemma WalBeginKeeps(s: State, w: nat, ctid: TidWord, keys: seq<nat>, val: C.Value)
    requires Inv(s) && Bounded(s) && Enabled(s, WalBegin(w, ctid, keys, val))
    ensures Inv(WalBeginStep(s, w, ctid, keys, val))
  {
    assert WorkerOk(s.ws[w], w, s.ge);
    RecordsOk(ctid, keys, val);
    WorkerTurns(s, w, WalBeginStep(s, w, ctid, keys, val).ws[w]);
  }

  lemma WalPublishKeeps(s: State, w: nat)
    requires Inv(s) && WorkerIn(s, w) && s.ws[w].pc.WalPublish?
    ensures var WalPublish(ctid, push, begins) := s.ws[w].pc; Inv(Publish(s, w, WalAppend(ctid, push, begins)))
  {
    var WalPublish(ctid, push, begins) := s.ws[w].pc;
    assert WorkerOk(s.ws[w], w, s.ge);
    PublishKeeps(s, w, WalAppend(ctid, push, begins));
  }

  lemma WalFullKeeps(s: State, w: nat)
    requires Inv(s) && WorkerIn(s, w) && s.ws[w].pc.WalFull?
    ensures var WalFull(ctid, begins) := s.ws[w].pc; Inv(Publish(s, w, WalStore(ctid, begins)))
  {
    var WalFull(ctid, begins) := s.ws[w].pc;
    assert WorkerOk(s.ws[w], w, s.ge);
    PublishKeeps(s, w, WalStore(ctid, begins));
  }

  lemma AppendOk(b: Buffer, ctid: TidWord, push: Push, ge: nat)
    requires BufferOk(b) && WalPushOk(push, ctid) && 1 <= ctid.epoch < EPOCH_LIMIT
    requires Clean(b) || b.minEpoch == ctid.epoch
    requires Size(b) + |push| <= LOG_BUFFER_SIZE
    ensures var b' := Append(b, ctid, push);
            && BufferOk(b') && b'.minEpoch == ctid.epoch && b'.used && b'.owner == b.owner
            && Size(b') == Size(b) + |push| && b'.pushes == b.pushes + (if push == [] then [] else [push])
  {
    var b' := Append(b, ctid, push);
    if push != [] {
      assert b'.pushes[..|b.pushes|] == b.pushes;
    }
  }

  lemma WalAppendKeeps(s: State, w: nat)
    requires Inv(s) && Bounded(s) && WorkerIn(s, w) && s.ws[w].pc.WalAppend?
    requires (s.ws[w].cur.Some? || s.ws[w].free != [])
    ensures Inv(WalAppendStep(s, w))
  {
    if s.ws[w].cur.None? {
      TakeKeeps(s, w);
    } else {
      WalAppended(s, w);
    }
  }

  lemma WalAppended(s: State, w: nat)
    requires Inv(s) && Bounded(s) && WorkerIn(s, w) && s.ws[w].pc.WalAppend? && s.ws[w].cur.Some?
    ensures Inv(WalAppendStep(s, w))
  {
    var x := s.ws[w];
    assert WorkerOk(x, w, s.ge);
    AppendedOk(x, w, s.ge);
    AppendedStream(x);
    AppendIs(s, w);
    WorkerMoves(s, w, Appended(x), if x.pc.push == [] then [] else [x.pc.push]);
  }

  lemma AppendIs(s: State, w: nat)
    requires w < |s.ws| && s.ws[w].pc.WalAppend? && s.ws[w].cur.Some?
    ensures WalAppendStep(s, w) == SetW(s, w, Appended(s.ws[w]))
  {
  }

  /** The worker after LogBuffer::push. */
  function Appended(x: LogWorker): LogWorker
    requires x.pc.WalAppend? && x.cur.Some?
  {
    var WalAppend(ctid, push, begins) := x.pc;
    var b := Append(x.cur.value, ctid, push);
    x.(pc := if Size(b) + C.MAX_OPE > LOG_BUFFER_SIZE then WalFull(ctid, begins) else WalStore(ctid, begins),
       cur := Some(b),
       hist := if push == [] then x.hist else x.hist + [push])
  }

  lemma AppendedOk(x: LogWorker, w: nat, ge: nat)
    requires WorkerOk(x, w, ge) && x.pc.WalAppend? && x.cur.Some? && ge < EPOCH_LIMIT - 1
    ensures WorkerOk(Appended(x), w, ge) && Ahead(x, Appended(x))
  {
    AppendOk(x.cur.value, x.pc.ctid, x.pc.push, ge);
  }

  lemma AppendedStream(x: LogWorker)
    requires x.pc.WalAppend? && x.cur.Some?
    ensures var p := if x.pc.push == [] then [] else [x.pc.push];
            Appended(x).hist == x.hist + p && CurOf(Appended(x)) == CurOf(x) + p
  {
  }

  lemma TxSteps(s: State, a: Action)
    requires Inv(s) && Enabled(s, a)
    requires a.TxBegin? || a.TxAbort? || a.WalReturn? || a.TxEnd?
    ensures Inv(Apply(s, a))
  {
    assert WorkerOk(s.ws[a.w], a.w, s.ge);
    WorkerTurns(s, a.w, Apply(s, a).ws[a.w]);
  }

  lemma EpochSteps(s: State, a: Action)
    requires Inv(s) && Enabled(s, a)
    requires a.EpochLoaded? || a.EwLoad? || a.EwStore?
    ensures Inv(Apply(s, a))
  {
    assert WorkerOk(s.ws[a.w], a.w, s.ge);
    WorkerTurns(s, a.w, Apply(s, a).ws[a.w]);
  }

  lemma StoreKeeps(s: State, w: nat)
    requires Inv(s) && Bounded(s) && WorkerIn(s, w) && (s.ws[w].pc.WalStore? || s.ws[w].pc.EwStored?)
    ensures Inv(if s.ws[w].pc.WalStore? then WalStoreStep(s, w) else EwStoredStep(s, w))
  {
    var s' := if s.ws[w].pc.WalStore? then WalStoreStep(s, w) else EwStoredStep(s, w);
    assert WorkerOk(s.ws[w], w, s.ge);
    WorkerTurns(s, w, s'.ws[w]);
  }

  lemma TakeKeeps(s: State, w: nat)
    requires Inv(s) && WorkerIn(s, w) && (s.ws[w].pc.Free? || s.ws[w].pc.WalAppend?)
    requires s.ws[w].cur.None? && s.ws[w].free != []
    ensures Inv(SetW(s, w, TakeBuffer(s.ws[w])))
  {
    var x := s.ws[w];
    assert WorkerOk(x, w, s.ge);
    assert Clean(x.free[|x.free| - 1]);
    assert CurOf(TakeBuffer(x)) == [];
    WorkerTurns(s, w, TakeBuffer(x));
  }

  lemma FreePublishKeeps(s: State, w: nat, pc': LogPc)
    requires Inv(s) && WorkerIn(s, w) && s.ws[w].pc.Free? && (pc'.Free? || pc'.Ending?)
    requires s.ws[w].cur.Some? || pc'.Ending?
    ensures Inv(Publish(s, w, pc'))
  {
    assert WorkerOk(s.ws[w], w, s.ge);
    if s.ws[w].cur.Some? {
      PublishKeeps(s, w, pc');
    } else {
      WorkerTurns(s, w, s.ws[w].(pc := pc'));
    }
  }

  lemma WorkerEndKeeps(s: State, w: nat)
    requires Inv(s) && WorkerIn(s, w) && s.ws[w].pc.Ending?
    ensures Inv(WorkerEndStep(s, w))
  {
    assert WorkerOk(s.ws[w], w, s.ge);
    var s1 := SetW(s, w, s.ws[w].(pc := Stopped));
    WorkerTurns(s, w, s.ws[w].(pc := Stopped));
    RunningShrinks(s1, w);
  }

  lemma RunningShrinks(s: State, w: nat)
    requires Inv(s) && WorkerIn(s, w) && s.ws[w].pc.Stopped?
    ensures var l := s.loggerOf[w]; var lg := s.ls[l];
            Inv(SetL(s, l, lg.(running := lg.running - {w}, quit := lg.quit || lg.running - {w} == {})))
  {
    var l := s.loggerOf[w];
    var lg := s.ls[l];
    var running := lg.running - {w};
    var lg' := lg.(running := running, quit := lg.quit || running == {});
    RunningRest(s, l, running, lg'.quit);
    SameHolding(lg, lg');
    RunningShrinksOk(s, w, running);
    LoggerMoves(s, l, lg');
  }

  lemma RunningRest(s: State, l: nat, running: set<nat>, quit: bool)
    requires l < |s.ls| && SafeOk(s, l) && ScanOk(s, l) && FoldOk(s, l)
    ensures var s' := SetL(s, l, s.ls[l].(running := running, quit := quit));
            SafeOk(s', l) && ScanOk(s', l) && FoldOk(s', l)
  {
  }

  lemma SameHolding(lg: Logger, lg': Logger)
    requires lg'.file == lg.file && lg'.queue == lg.queue && Batch(lg') == Batch(lg)
    ensures forall w :: Holding(lg', w) == Holding(lg, w)
  {
  }

  lemma RunningShrinksOk(s: State, w: nat, running: set<nat>)
    requires WorkerIn(s, w) && s.ws[w].pc.Stopped? && LoggerOk(s, s.loggerOf[w])
    requires running == s.ls[s.loggerOf[w]].running - {w}
    ensures var l := s.loggerOf[w]; var lg := s.ls[l];
            LoggerOk(SetL(s, l, lg.(running := running, quit := lg.quit || running == {})), l)
  {
    var l := s.loggerOf[w];
    var lg := s.ls[l];
    var s' := SetL(s, l, lg.(running := running, quit := lg.quit || running == {}));
    forall i | 0 <= i < |lg.queue| ensures QueuedOk(s', l, lg.queue[i]) { assert QueuedOk(s, l, lg.queue[i]); }
    forall i | 0 <= i < |Batch(lg)| ensures QueuedOk(s', l, Batch(lg)[i]) { assert QueuedOk(s, l, Batch(lg)[i]); }
  }

  // ---- A logger moves -----------------------------------------------------------------------

  lemma LoggerMoves(s: State, l: nat, lg': Logger)
    requires Inv(s) && l < |s.ls|
    requires lg'.members == s.ls[l].members && s.ls[l].durable <= lg'.durable
    requires forall w :: Holding(lg', w) == Holding(s.ls[l], w)
    requires var s' := SetL(s, l, lg'); LoggerOk(s', l) && SafeOk(s', l) && ScanOk(s', l) && FoldOk(s', l)
    ensures Inv(SetL(s, l, lg'))
  {
    var s' := SetL(s, l, lg');
    ConfigKept(s, l, lg');
    forall k | 0 <= k < |s'.ls| && k != l
      ensures LoggerOk(s', k) && SafeOk(s', k) && ScanOk(s', k) && FoldOk(s', k)
    {
      OtherLoggerKept(s, s', l, k);
    }
    forall w | 0 <= w < |s'.ws| ensures WorkerOk(s'.ws[w], w, s'.ge) && StreamOk(s', w) {
      WorkerKept(s, l, lg', w);
    }
  }

  lemma ConfigKept(s: State, l: nat, lg': Logger)
    requires ConfigOk(s) && l < |s.ls| && lg'.members == s.ls[l].members
    ensures ConfigOk(SetL(s, l, lg'))
  {
  }

  lemma WorkerKept(s: State, l: nat, lg': Logger, w: nat)
    requires Inv(s) && l < |s.ls| && w < |s.ws|
    requires forall v :: Holding(lg', v) == Holding(s.ls[l], v)
    ensures WorkerOk(s.ws[w], w, s.ge) && StreamOk(SetL(s, l, lg'), w)
  {
    assert Holding(lg', w) == Holding(s.ls[l], w);
    StreamKept(s, l, lg', w);
  }

  lemma OtherLoggerKept(s: State, s': State, l: nat, k: nat)
    requires l < |s.ls| && k < |s.ls| && k != l && |s'.ls| == |s.ls| && s' == SetL(s, l, s'.ls[l])
    requires s.ls[l].durable <= s'.ls[l].durable
    requires LoggerOk(s, k) && SafeOk(s, k) && ScanOk(s, k) && FoldOk(s, k)
    ensures LoggerOk(s', k) && SafeOk(s', k) && ScanOk(s', k) && FoldOk(s', k)
  {
    OtherScanKept(s, s', l, k);
    OtherFoldKept(s, s', l, k);
  }

  lemma StreamKept(s: State, l: nat, lg': Logger, w: nat)
    requires w < |s.ws| == |s.loggerOf| && s.loggerOf[w] < |s.ls| && l < |s.ls|
    requires StreamOk(s, w) && Holding(lg', w) == Holding(s.ls[l], w)
    ensures StreamOk(SetL(s, l, lg'), w)
  {
  }

  lemma OtherScanKept(s: State, s': State, l: nat, k: nat)
    requires l < |s.ls| && k < |s.ls| && k != l && |s'.ls| == |s.ls| && s' == SetL(s, l, s'.ls[l])
    requires ScanOk(s, k) && SafeOk(s, k) && LoggerOk(s, k)
    ensures ScanOk(s', k) && SafeOk(s', k) && LoggerOk(s', k)
  {
  }

  lemma OtherFoldKept(s: State, s': State, l: nat, k: nat)
    requires l < |s.ls| && k < |s.ls| && k != l && |s'.ls| == |s.ls| && s' == SetL(s, l, s'.ls[l])
    requires s.ls[l].durable <= s'.ls[l].durable && FoldOk(s, k)
    ensures FoldOk(s', k)
  {
  }

  /** Only the program counter moves. */
  lemma PcMoves(s: State, l: nat, pc': LoggerPc)
    requires Inv(s) && l < |s.ls| && !s.ls[l].pc.WriteOut? && !pc'.WriteOut?
    requires !s.ls[l].pc.Sync?
    requires Ended(pc') ==> s.ls[l].quit && s.ls[l].queue == []
    requires var s' := To(s, l, pc'); ScanOk(s', l) && FoldOk(s', l)
    ensures Inv(To(s, l, pc'))
  {
    assert LoggerOk(s, l) && SafeOk(s, l);
    LoggerMoves(s, l, s.ls[l].(pc := pc'));
  }

  lemma ScanWorkersKeeps(s: State, l: nat)
    requires Inv(s) && Bounded(s) && LoggerIn(s, l) && s.ls[l].pc.ScanWorkers?
    ensures Inv(ScanWorkersStep(s, l))
  {
    var lg := s.ls[l];
    assert ScanOk(s, l) && LoggerOk(s, l);
    if lg.pc.k < |lg.members| {
      ScanOneKeeps(s, l);
    } else if lg.pc.min.epoch == 0 || lg.pc.min == ALL_ONES {
      PcMoves(s, l, Wait);
    } else {
      PcMoves(s, l, ScanQueue(lg.pc.timeout, lg.pc.min.epoch, lg.pc.skipped));
    }
  }

  lemma ScanOneKeeps(s: State, l: nat)
    requires Inv(s) && Bounded(s) && LoggerIn(s, l) && s.ls[l].pc.ScanWorkers? && s.ls[l].pc.k < |s.ls[l].members|
    ensures Inv(ScanWorkersStep(s, l))
  {
    var v := s.ls[l].members[s.ls[l].pc.k];
    assert ScanOk(s, l) && WorkerOk(s.ws[v], v, s.ge);
    ScanOneOk(s, l);
    PcMoves(s, l, ScanWorkersStep(s, l).ls[l].pc);
  }

  lemma ScanOneOk(s: State, l: nat)
    requires Bounded(s) && LoggerIn(s, l) && s.ls[l].pc.ScanWorkers? && s.ls[l].pc.k < |s.ls[l].members|
    requires var v := s.ls[l].members[s.ls[l].pc.k]; ScanOk(s, l) && WorkerOk(s.ws[v], v, s.ge)
    ensures ScanOk(ScanWorkersStep(s, l), l)
  {
    var lg := s.ls[l];
    var ScanWorkers(timeout, k, min, skipped) := lg.pc;
    var c := s.ws[lg.members[k]].ctidw;
    var min' := if c.Obj() > 0 && Less(c, min) then c else min;
    ScanMin(c, min);
    var s' := ScanWorkersStep(s, l);
    if !(skipped || c == ALL_ONES) {
      forall i | 0 <= i < k + 1 && i < |lg.members| && lg.members[i] < |s.ws|
        ensures Covered(s'.ws[lg.members[i]], min'.epoch)
      {
        if i < k { assert Covered(s.ws[lg.members[i]], min.epoch); }
      }
    }
  }

  /** The epoch of the scan's minimum is at most that of every CTIDW seen. */
  lemma ScanMin(c: TidWord, min: TidWord)
    requires c.Valid() && min.Valid() && (c == ALL_ONES || 1 <= c.epoch < EPOCH_LIMIT - 1)
    requires min == ALL_ONES || 1 <= min.epoch < EPOCH_LIMIT - 1
    ensures var m := if c.Obj() > 0 && Less(c, min) then c else min;
            && (m == c || m == min) && m.epoch <= min.epoch && m.epoch <= c.epoch
            && (c != ALL_ONES || min != ALL_ONES ==> m != ALL_ONES)
  {
    LessIsLexicographic(c, min);
  }

  lemma ScanQueueKeeps(s: State, l: nat)
    requires Inv(s) && LoggerIn(s, l) && s.ls[l].pc.ScanQueue?
    ensures Inv(ScanQueueStep(s, l))
  {
    assert LoggerOk(s, l) && ScanOk(s, l);
    ScanQueueOk(s, l);
    ScanQueuePc(s, l);
    PcMoves(s, l, QueueResult(s, l));
  }

  function QueueResult(s: State, l: nat): LoggerPc
    requires l < |s.ls| && s.ls[l].pc.ScanQueue?
  {
    ScanQueueStep(s, l).ls[l].pc
  }

  lemma ScanQueuePc(s: State, l: nat)
    requires l < |s.ls| && s.ls[l].pc.ScanQueue?
    ensures ScanQueueStep(s, l) == To(s, l, QueueResult(s, l))
    ensures !QueueResult(s, l).WriteOut? && !Ended(QueueResult(s, l)) && FoldOk(ScanQueueStep(s, l), l)
  {
  }

  lemma ScanQueueOk(s: State, l: nat)
    requires LoggerIn(s, l) && s.ls[l].pc.ScanQueue? && ScanOk(s, l) && LoggerOk(s, l)
    ensures ScanOk(ScanQueueStep(s, l), l)
  {
    var lg := s.ls[l];
    var ScanQueue(timeout, epoch, skipped) := lg.pc;
    var qe := MinEpoch(lg.queue);
    var bound := if epoch > qe then qe else epoch;
    QueueFloor(s, l);
    if !skipped {
      forall i | 0 <= i < |lg.members| && lg.members[i] < |s.ws| ensures Covered(s.ws[lg.members[i]], bound) {
        assert Covered(s.ws[lg.members[i]], epoch);
      }
    }
  }

  /** The first key bounds the whole queue. */
  lemma QueueFloor(s: State, l: nat)
    requires l < |s.ls| && LoggerOk(s, l)
    ensures MinEpoch(s.ls[l].queue) >= 1
    ensures forall e :: 0 <= e <= MinEpoch(s.ls[l].queue) ==> AtLeast(s.ls[l].queue, e)
  {
    if s.ls[l].queue != [] { assert QueuedOk(s, l, s.ls[l].queue[0]); }
  }

  lemma DequeueKeeps(s: State, l: nat)
    requires Inv(s) && LoggerIn(s, l) && s.ls[l].pc.Dequeue?
    ensures Inv(DequeueStep(s, l))
  {
    var lg := s.ls[l];
    assert LoggerOk(s, l) && SafeOk(s, l) && ScanOk(s, l);
    DequeuedOk(s, l);
    forall w ensures Holding(Dequeued(lg), w) == Holding(lg, w) {
      DequeuedHolds(FileOf(lg.file, w), BufsOf(lg.queue, w));
    }
    LoggerMoves(s, l, Dequeued(lg));
  }

  /** The logger after deq. */
  function Dequeued(lg: Logger): Logger
    requires lg.pc.Dequeue?
  {
    lg.(pc := WriteOut(lg.pc.bound, lg.pc.skipped, lg.queue), queue := [])
  }

  lemma DequeuedOk(s: State, l: nat)
    requires l < |s.ls| && s.ls[l].pc.Dequeue? && LoggerOk(s, l) && SafeOk(s, l) && ScanOk(s, l)
    ensures var s' := SetL(s, l, Dequeued(s.ls[l])); LoggerOk(s', l) && SafeOk(s', l) && ScanOk(s', l) && FoldOk(s', l)
  {
    assert !Ended(Dequeued(s.ls[l]).pc) && Batch(Dequeued(s.ls[l])) == s.ls[l].queue;
    SameBuffersOk(s, SetL(s, l, Dequeued(s.ls[l])), l, s.ls[l].queue);
  }

  lemma DequeuedHolds(f: seq<Push>, q: seq<Push>)
    ensures f + q + [] == f + [] + q
  {
  }

  lemma SyncKeeps(s: State, l: nat)
    requires Inv(s) && LoggerIn(s, l) && s.ls[l].pc.Sync?
    ensures Inv(SetL(s, l, Synced(s.ls[l])))
  {
    SyncedOk(s, l);
    SameHolding(s.ls[l], Synced(s.ls[l]));
    LoggerMoves(s, l, Synced(s.ls[l]));
  }

  /** The logger after fsync. */
  function Synced(lg: Logger): Logger
    requires lg.pc.Sync?
  {
    lg.(pc := Send(lg.pc.bound, lg.pc.skipped), synced := |lg.file|)
  }

  lemma SyncedOk(s: State, l: nat)
    requires l < |s.ls| && s.ls[l].pc.Sync? && LoggerOk(s, l) && SafeOk(s, l) && ScanOk(s, l)
    ensures var s' := SetL(s, l, Synced(s.ls[l])); LoggerOk(s', l) && SafeOk(s', l) && ScanOk(s', l) && FoldOk(s', l)
  {
    var lg := s.ls[l];
    var s' := SetL(s, l, Synced(lg));
    SameBuffersOk(s, s', l, lg.queue);
    assert !Ended(Synced(lg).pc) && Batch(Synced(lg)) == [];
    SyncedBound(s, l);
  }

  lemma SyncedBound(s: State, l: nat)
    requires l < |s.ls| && s.ls[l].pc.Sync? && SafeOk(s, l) && ScanOk(s, l) && s.ls[l].synced <= |s.ls[l].file|
    ensures var s' := SetL(s, l, Synced(s.ls[l])); SafeOk(s', l) && ScanOk(s', l) && FoldOk(s', l)
  {
  }

  /** Buffers are fit for a logger whatever it is doing. */
  lemma SameBuffersOk(s: State, s': State, l: nat, q: seq<Buffer>)
    requires AllQueuedOk(s, l, q) && s'.ws == s.ws && s'.loggerOf == s.loggerOf
    ensures AllQueuedOk(s', l, q)
  {
    forall i | 0 <= i < |q| ensures QueuedOk(s', l, q[i]) { assert QueuedOk(s, l, q[i]); }
  }

  lemma WriteOutKeeps(s: State, l: nat)
    requires Inv(s) && LoggerIn(s, l) && s.ls[l].pc.WriteOut?
    ensures Inv(WriteOutStep(s, l))
  {
    var lg := s.ls[l];
    if lg.pc.batch == [] {
      BatchDone(s, l);
    } else {
      var b := lg.pc.batch[0];
      ReturnKeeps(s, l, b);
      var x := s.ws[b.owner];
      WriteOne(SetW(s, b.owner, x.(free := x.free + [CleanBuffer(b.owner, b.id, b.used)])), l);
    }
  }

  lemma BatchDone(s: State, l: nat)
    requires Inv(s) && LoggerIn(s, l) && s.ls[l].pc.WriteOut? && s.ls[l].pc.batch == []
    ensures Inv(To(s, l, Sync(s.ls[l].pc.bound, s.ls[l].pc.skipped)))
  {
    assert ScanOk(s, l) && LoggerOk(s, l) && SafeOk(s, l);
    BatchDoneOk(s, l);
    LoggerMoves(s, l, s.ls[l].(pc := Sync(s.ls[l].pc.bound, s.ls[l].pc.skipped)));
  }

  lemma BatchDoneOk(s: State, l: nat)
    requires l < |s.ls| && s.ls[l].pc.WriteOut? && s.ls[l].pc.batch == []
    requires LoggerOk(s, l) && SafeOk(s, l) && ScanOk(s, l)
    ensures var s' := To(s, l, Sync(s.ls[l].pc.bound, s.ls[l].pc.skipped));
            LoggerOk(s', l) && SafeOk(s', l) && ScanOk(s', l) && FoldOk(s', l)
  {
    var pc' := Sync(s.ls[l].pc.bound, s.ls[l].pc.skipped);
    assert !Ended(pc') && BoundOf(pc') == BoundOf(s.ls[l].pc) && !Storing(pc');
    SameBuffersOk(s, To(s, l, pc'), l, s.ls[l].queue);
    SameBlocksOwned(s, To(s, l, pc'), l, s.ls[l].file);
  }

  lemma SameBlocksOwned(s: State, s': State, l: nat, f: seq<Block>)
    requires BlocksOwned(s, l, f) && |s'.ws| == |s.ws| && s'.loggerOf == s.loggerOf
    ensures BlocksOwned(s', l, f)
  {
    forall i | 0 <= i < |f|
      ensures f[i].owner < |s'.ws| == |s'.loggerOf| && s'.loggerOf[f[i].owner] == l
      ensures Total(f[i].pushes) <= LOG_BUFFER_SIZE
    {
      assert f[i].owner < |s.ws| == |s.loggerOf| && s.loggerOf[f[i].owner] == l;
    }
  }

  /** return_buffer: the pool of the owner gets a clean buffer back. */
  lemma ReturnKeeps(s: State, l: nat, b: Buffer)
    requires Inv(s) && LoggerIn(s, l) && s.ls[l].pc.WriteOut? && s.ls[l].pc.batch != [] && b == s.ls[l].pc.batch[0]
    ensures var x := s.ws[b.owner]; Inv(SetW(s, b.owner, x.(free := x.free + [CleanBuffer(b.owner, b.id, b.used)])))
  {
    var x := s.ws[b.owner];
    assert WorkerOk(x, b.owner, s.ge);
    WorkerTurns(s, b.owner, x.(free := x.free + [CleanBuffer(b.owner, b.id, b.used)]));
  }

  /** The logger after writing the first buffer of the batch. */
  function Written(lg: Logger): Logger
    requires lg.pc.WriteOut? && lg.pc.batch != []
  {
    var b := lg.pc.batch[0];
    lg.(pc := WriteOut(lg.pc.bound, lg.pc.skipped, lg.pc.batch[1..]),
        file := if Size(b) == 0 then lg.file else lg.file + [Block(b.owner, b.pushes)])
  }

  /** Writing the first buffer of the batch moves its records into the file. */
  lemma WriteOne(s: State, l: nat)
    requires Inv(s) && l < |s.ls| && s.ls[l].pc.WriteOut? && s.ls[l].pc.batch != []
    ensures Inv(SetL(s, l, Written(s.ls[l])))
  {
    var lg := s.ls[l];
    assert LoggerOk(s, l) && SafeOk(s, l) && ScanOk(s, l);
    assert QueuedOk(s, l, lg.pc.batch[0]);
    forall w ensures Holding(Written(lg), w) == Holding(lg, w) { WrittenHolds(lg, w); }
    WrittenOk(s, l);
    WrittenScan(s, l);
    WrittenSafe(s, l);
    LoggerMoves(s, l, Written(lg));
  }

  lemma WrittenScan(s: State, l: nat)
    requires l < |s.ls| && s.ls[l].pc.WriteOut? && s.ls[l].pc.batch != [] && ScanOk(s, l)
    ensures ScanOk(SetL(s, l, Written(s.ls[l])), l) && FoldOk(SetL(s, l, Written(s.ls[l])), l)
  {
  }

  lemma WrittenSafe(s: State, l: nat)
    requires l < |s.ls| && s.ls[l].pc.WriteOut? && s.ls[l].pc.batch != [] && LoggerOk(s, l) && SafeOk(s, l)
    ensures SafeOk(SetL(s, l, Written(s.ls[l])), l)
  {
    var lg := s.ls[l];
    var s' := SetL(s, l, Written(lg));
    assert QueuedOk(s, l, lg.pc.batch[0]);
    if !lg.blind {
      WrittenAbove(lg, Written(lg), lg.pc.batch[0], lg.durable);
      assert AtLeast(lg.pc.batch[1..], lg.durable + 1);
      assert lg.durable > 0 ==> AllCovered(s', l, |lg.members|, lg.durable + 1);
      SafeFrom(s', l);
    }
  }

  lemma WrittenOk(s: State, l: nat)
    requires l < |s.ls| && LoggerOk(s, l) && s.ls[l].pc.WriteOut? && s.ls[l].pc.batch != []
    ensures LoggerOk(SetL(s, l, Written(s.ls[l])), l)
  {
    var lg := s.ls[l];
    var s' := SetL(s, l, Written(lg));
    assert QueuedOk(s, l, lg.pc.batch[0]);
    SameBuffersOk(s, s', l, lg.queue);
    assert AllQueuedOk(s, l, lg.pc.batch[1..]);
    SameBuffersOk(s, s', l, lg.pc.batch[1..]);
  }

  lemma WrittenHolds(lg: Logger, w: nat)
    requires lg.pc.WriteOut? && lg.pc.batch != [] && BufferOk(lg.pc.batch[0])
    ensures Holding(Written(lg), w) == Holding(lg, w)
  {
    var batch := lg.pc.batch;
    var b := batch[0];
    var own := if b.owner == w then b.pushes else [];
    assert BufsOf(batch, w) == own + BufsOf(batch[1..], w) by {
      assert batch == [b] + batch[1..];
      BufsOfConcat([b], batch[1..], w);
      assert BufsOf([b], w) == own;
    }
    assert FileOf(Written(lg).file, w) == FileOf(lg.file, w) + own by {
      TotalZero(b.pushes);
      if Size(b) != 0 { assert Written(lg).file[..|lg.file|] == lg.file; }
    }
    Regroup(FileOf(lg.file, w), own, BufsOf(batch[1..], w), BufsOf(lg.queue, w));
  }

  lemma Regroup(f: seq<Push>, o: seq<Push>, r: seq<Push>, q: seq<Push>)
    ensures (f + o) + r + q == f + (o + r) + q
  {
  }

  lemma WrittenAbove(lg: Logger, lg': Logger, b: Buffer, d: nat)
    requires BufferOk(b) && (Clean(b) || d + 1 <= b.minEpoch)
    requires UnsyncedAbove(lg, d) && lg'.synced == lg.synced <= |lg.file|
    requires lg'.file == lg.file || lg'.file == lg.file + [Block(b.owner, b.pushes)]
    ensures UnsyncedAbove(lg', d)
  {
    forall i | lg'.synced <= i < |lg'.file| ensures BlockAbove(lg'.file[i], d) {
      if i == |lg.file| {
        forall j | 0 <= j < |b.pushes| ensures PushAbove(b.pushes[j], d) {
          assert PushOk(b.pushes[j], b.minEpoch);
        }
      }
    }
  }

  lemma SendKeeps(s: State, l: nat)
    requires Inv(s) && LoggerIn(s, l) && s.ls[l].pc.Send?
    ensures Inv(SendStep(s, l))
  {
    assert ScanOk(s, l) && LoggerOk(s, l);
    PcMoves(s, l, SendStep(s, l).ls[l].pc);
  }

  lemma ResumeKeeps(s: State, l: nat, after: After)
    requires Inv(s) && l < |s.ls| && (s.ls[l].pc.FoldLoad? || s.ls[l].pc.FoldCas? || s.ls[l].pc.FoldWrite?)
    requires s.ls[l].pc.after == after
    ensures Inv(Resume(s, l, after))
  {
    assert ScanOk(s, l) && LoggerOk(s, l);
    PcMoves(s, l, if after.EndNext? then Done else StoreBound(after.bound, after.skipped));
  }

  lemma FoldKeeps(s: State, l: nat)
    requires Inv(s) && LoggerIn(s, l) && s.ls[l].pc.Fold?
    ensures Inv(FoldStep(s, l))
  {
    assert ScanOk(s, l) && LoggerOk(s, l) && FoldOk(s, l);
    PcMoves(s, l, FoldStep(s, l).ls[l].pc);
  }

  lemma FoldLoadKeeps(s: State, l: nat)
    requires Inv(s) && LoggerIn(s, l) && s.ls[l].pc.FoldLoad?
    ensures Inv(FoldLoadStep(s, l))
  {
    var FoldLoad(after, low) := s.ls[l].pc;
    assert ScanOk(s, l) && LoggerOk(s, l) && FoldOk(s, l);
    if s.durable < low {
      PcMoves(s, l, FoldCas(after, low, s.durable));
    } else {
      ResumeKeeps(s, l, after);
    }
  }

  /** Raising the durable epoch, or writing a value up to it, keeps the invariant. */
  lemma GlobalMoves(s: State, d: nat, p: nat)
    requires Inv(s) && s.durable <= d && p <= d
    requires forall l :: 0 <= l < |s.ls| ==> d <= s.ls[l].durable
    ensures Inv(s.(durable := d, pepoch := p))
  {
    var s' := s.(durable := d, pepoch := p);
    forall l | 0 <= l < |s'.ls| ensures LoggerOk(s', l) && SafeOk(s', l) && ScanOk(s', l) && FoldOk(s', l) {
      assert LoggerOk(s, l) && SafeOk(s, l) && ScanOk(s, l) && FoldOk(s, l);
    }
    forall w | 0 <= w < |s'.ws| ensures WorkerOk(s'.ws[w], w, s'.ge) && StreamOk(s', w) {
      assert WorkerOk(s.ws[w], w, s.ge) && StreamOk(s, w);
    }
  }

  lemma FoldCasKeeps(s: State, l: nat)
    requires Inv(s) && LoggerIn(s, l) && s.ls[l].pc.FoldCas?
    ensures Inv(FoldCasStep(s, l))
  {
    var FoldCas(after, low, seen) := s.ls[l].pc;
    assert ScanOk(s, l) && LoggerOk(s, l) && FoldOk(s, l);
    if s.durable == seen {
      var s1 := s.(durable := low, pepoch := s.pepoch);
      GlobalMoves(s, low, s.pepoch);
      assert ScanOk(s1, l);
      PcMoves(s1, l, FoldWrite(after, low));
    } else {
      ResumeKeeps(s, l, after);
    }
  }

  lemma FoldWriteKeeps(s: State, l: nat)
    requires Inv(s) && LoggerIn(s, l) && s.ls[l].pc.FoldWrite?
    ensures Inv(FoldWriteStep(s, l))
  {
    var FoldWrite(after, low) := s.ls[l].pc;
    assert FoldOk(s, l);
    ResumeKeeps(s, l, after);
    GlobalMoves(Resume(s, l, after), s.durable, low);
  }

  /** Storing a bound: nothing below it is left outside the disk, so it may become the logger's epoch. */
  lemma StoreBoundKeeps(s: State, l: nat)
    requires Inv(s) && LoggerIn(s, l) && s.ls[l].pc.StoreBound?
    ensures Inv(StoreBoundStep(s, l))
  {
    assert ScanOk(s, l) && LoggerOk(s, l) && SafeOk(s, l);
    LoggerMoves(s, l, StoreBoundStep(s, l).ls[l]);
  }

  lemma WaitKeeps(s: State, l: nat)
    requires Inv(s) && Enabled(s, LoggerStep(l)) && s.ls[l].pc.Wait?
    ensures Inv(WaitStep(s, l))
  {
    assert LoggerOk(s, l);
    PcMoves(s, l, WaitStep(s, l).ls[l].pc);
  }

  lemma LoggerStepKeeps(s: State, l: nat)
    requires Inv(s) && Bounded(s) && Enabled(s, LoggerStep(l))
    ensures Inv(LoggerStepOf(s, l))
  {
    match s.ls[l].pc {
      case Wait => WaitKeeps(s, l);
      case ScanWorkers(_, _, _, _) => ScanWorkersKeeps(s, l);
      case ScanQueue(_, _, _) => ScanQueueKeeps(s, l);
      case Dequeue(_, _) => DequeueKeeps(s, l);
      case WriteOut(_, _, _) => WriteOutKeeps(s, l);
      case Sync(_, _) => SyncKeeps(s, l);
      case Send(_, _) => SendKeeps(s, l);
      case Fold(_, _, _) => FoldKeeps(s, l);
      case FoldLoad(_, _) => FoldLoadKeeps(s, l);
      case FoldCas(_, _, _) => FoldCasKeeps(s, l);
      case FoldWrite(_, _) => FoldWriteKeeps(s, l);
      case StoreBound(_, _) => StoreBoundKeeps(s, l);
    }
  }

  lemma WorkerStepKeeps(s: State, w: nat)
    requires Inv(s) && Bounded(s) && Enabled(s, WorkerStep(w))
    ensures Inv(WorkerStepOf(s, w))
  {
    match s.ws[w].pc {
      case WalPublish(_, _, _) => WalPublishKeeps(s, w);
      case WalAppend(_, _, _) => WalAppendKeeps(s, w);
      case WalFull(_, _) => WalFullKeeps(s, w);
      case WalStore(_, _) => StoreKeeps(s, w);
      case EwStored(_) => StoreKeeps(s, w);
      case Ending => WorkerEndKeeps(s, w);
    }
  }

  lemma AdvanceKeeps(s: State)
    requires Inv(s)
    ensures Inv(s.(ge := s.ge + 1))
  {
    var s' := s.(ge := s.ge + 1);
    forall l | 0 <= l < |s'.ls| ensures LoggerOk(s', l) && SafeOk(s', l) && ScanOk(s', l) && FoldOk(s', l) {
      AdvanceLogger(s, l);
    }
    forall w | 0 <= w < |s'.ws| ensures WorkerOk(s'.ws[w], w, s'.ge) && StreamOk(s', w) {
      AdvanceStream(s, w);
    }
  }

  lemma AdvanceStream(s: State, w: nat)
    requires w < |s.ws| == |s.loggerOf| && s.loggerOf[w] < |s.ls| && WorkerOk(s.ws[w], w, s.ge) && StreamOk(s, w)
    ensures var s' := s.(ge := s.ge + 1); WorkerOk(s'.ws[w], w, s'.ge) && StreamOk(s', w)
  {
    AdvanceWorker(s.ws[w], w, s.ge);
  }

  lemma AdvanceWorker(x: LogWorker, w: nat, ge: nat)
    requires WorkerOk(x, w, ge)
    ensures WorkerOk(x, w, ge + 1)
  {
  }

  lemma AdvanceLogger(s: State, l: nat)
    requires l < |s.ls| && LoggerOk(s, l) && SafeOk(s, l) && ScanOk(s, l) && FoldOk(s, l)
    ensures var s' := s.(ge := s.ge + 1); LoggerOk(s', l) && SafeOk(s', l) && ScanOk(s', l) && FoldOk(s', l)
  {
    var s' := s.(ge := s.ge + 1);
    SameBuffersOk(s, s', l, s.ls[l].queue);
    SameBuffersOk(s, s', l, Batch(s.ls[l]));
    AdvanceBound(s, l);
  }

  lemma AdvanceBound(s: State, l: nat)
    requires l < |s.ls| && SafeOk(s, l) && ScanOk(s, l) && FoldOk(s, l)
    ensures var s' := s.(ge := s.ge + 1); SafeOk(s', l) && ScanOk(s', l) && FoldOk(s', l)
  {
  }

  lemma TimeoutKeeps(s: State, l: nat)
    requires Inv(s) && LoggerIn(s, l) && s.ls[l].pc.Wait?
    ensures Inv(To(s, l, ScanWorkers(true, 0, ALL_ONES, false)))
  {
    assert LoggerOk(s, l);
    PcMoves(s, l, ScanWorkers(true, 0, ALL_ONES, false));
  }

  predicate Driven(a: Action) {
    a.TxBegin? || a.EpochLoaded? || a.TxAbort? || a.WalBegin? || a.WalReturn? || a.TxEnd? || a.EwLoad? || a.EwStore?
  }

  lemma DrivenKeepsInv(s: State, a: Action)
    requires Inv(s) && Bounded(s) && Enabled(s, a) && Driven(a)
    ensures Inv(Apply(s, a))
  {
    if a.WalBegin? {
      WalBeginKeeps(s, a.w, a.ctid, a.keys, a.val);
    } else if a.EpochLoaded? || a.EwLoad? || a.EwStore? {
      EpochSteps(s, a);
    } else {
      TxSteps(s, a);
    }
  }

  lemma PoolKeepsInv(s: State, a: Action)
    requires Inv(s) && Enabled(s, a) && (a.Stop? || a.Pause? || a.Take?)
    ensures Inv(Apply(s, a))
  {
    match a {
      case Stop(w) => FreePublishKeeps(s, w, Ending);
      case Pause(w) => FreePublishKeeps(s, w, Free);
      case Take(w) => TakeKeeps(s, w);
    }
  }

  lemma TimeoutKeepsInv(s: State, a: Action)
    requires Inv(s) && Enabled(s, a) && a.Timeout?
    ensures Inv(Apply(s, a))
  {
    TimeoutKeeps(s, a.l);
  }

  lemma AdvanceKeepsInv(s: State, a: Action)
    requires Inv(s) && Enabled(s, a) && a.Advance?
    ensures Inv(Apply(s, a))
  {
    assert Apply(s, a) == s.(ge := s.ge + 1);
    AdvanceKeeps(s);
  }

  lemma WorkerKeepsInv(s: State, a: Action)
    requires Inv(s) && Bounded(s) && Enabled(s, a) && a.WorkerStep?
    ensures Inv(Apply(s, a))
  {
    WorkerStepKeeps(s, a.w);
  }

  lemma LoggerKeepsInv(s: State, a: Action)
    requires Inv(s) && Bounded(s) && Enabled(s, a) && a.LoggerStep?
    ensures Inv(Apply(s, a))
  {
    LoggerStepKeeps(s, a.l);
  }

  /** Every step of workers and loggers keeps the invariant. */
  lemma StepKeepsInv(s: State, a: Action)
    requires Inv(s) && Bounded(s) && Enabled(s, a)
    ensures Inv(Apply(s, a))
  {
    if Driven(a) {
      DrivenKeepsInv(s, a);
    } else if a.Stop? || a.Pause? || a.Take? {
      PoolKeepsInv(s, a);
    } else if a.Advance? {
      AdvanceKeepsInv(s, a);
    } else if a.Timeout? {
      TimeoutKeepsInv(s, a);
    } else if a.WorkerStep? {
      WorkerKeepsInv(s, a);
    } else {
      LoggerKeepsInv(s, a);
    }
  }

  lemma InitInv(epochDiff: nat, loggerOf: seq<nat>, members: seq<seq<nat>>)
    requires ValidConfig(loggerOf, members)
    ensures Inv(InitState(epochDiff, loggerOf, members))
  {
    var s := InitState(epochDiff, loggerOf, members);
    forall w | 0 <= w < |s.ws| ensures WorkerOk(s.ws[w], w, s.ge) && StreamOk(s, w) {
      InitWorkerOk(epochDiff, loggerOf, members, w);
    }
    forall l | 0 <= l < |s.ls| ensures LoggerOk(s, l) && SafeOk(s, l) && ScanOk(s, l) && FoldOk(s, l) {
      InitLoggerOk(epochDiff, loggerOf, members, l);
    }
  }

  lemma InitWorkerOk(epochDiff: nat, loggerOf: seq<nat>, members: seq<seq<nat>>, w: nat)
    requires ValidConfig(loggerOf, members) && w < |loggerOf|
    ensures var s := InitState(epochDiff, loggerOf, members); WorkerOk(s.ws[w], w, s.ge) && StreamOk(s, w)
  {
  }

  lemma InitLoggerOk(epochDiff: nat, loggerOf: seq<nat>, members: seq<seq<nat>>, l: nat)
    requires ValidConfig(loggerOf, members) && l < |members|
    ensures var s := InitState(epochDiff, loggerOf, members);
            LoggerOk(s, l) && SafeOk(s, l) && ScanOk(s, l) && FoldOk(s, l)
  {
  }
}
