/** The inductive invariant of the durability pipeline. */
module LogInv {
  import opened TidWords
  import opened LogModel
  import C = CommitModel

  // ---- Buffers ------------------------------------------------------------------------------

  predicate Clean(b: Buffer) {
    b.pushes == [] && b.minEpoch == NO_EPOCH && b.maxEpoch == 0
  }

  ghost predicate PushOk(p: Push, e: nat) {
    p != [] && forall i :: 0 <= i < |p| ==> p[i].tid.epoch == e
  }

  /** A buffer is clean, or everything in it belongs to one epoch. */
  ghost predicate BufferOk(b: Buffer) {
    && Size(b) <= LOG_BUFFER_SIZE
    && (Clean(b) ||
        (b.used && 1 <= b.minEpoch == b.maxEpoch < EPOCH_LIMIT &&
         forall i :: 0 <= i < |b.pushes| ==> PushOk(b.pushes[i], b.minEpoch)))
  }

  // ---- Workers ------------------------------------------------------------------------------

  predicate Real(c: TidWord) {
    c != ALL_ONES
  }

  /** The epoch a worker has loaded is none of those it has left. */
  ghost predicate Fits(x: LogWorker, e: nat, ge: nat) {
    1 <= e <= ge && (Real(x.ctidw) ==> x.ctidw.epoch <= e)
  }

  /** Outside wal the current buffer is clean or belongs to the epoch of CTIDW, with room for a transaction. */
  ghost predicate AtCtidw(x: LogWorker) {
    x.cur.Some? ==>
      && (Clean(x.cur.value) || (Real(x.ctidw) && x.cur.value.minEpoch == x.ctidw.epoch))
      && Size(x.cur.value) + C.MAX_OPE <= LOG_BUFFER_SIZE
  }

  ghost predicate Unused(x: LogWorker) {
    x.cur.Some? ==> !x.cur.value.used
  }

  ghost predicate WalOk(x: LogWorker, ctid: TidWord, begins: bool, ge: nat) {
    Fits(x, ctid.epoch, ge) && begins == (x.ctidw.epoch != ctid.epoch) && ctid != ALL_ONES && ctid.Valid()
  }

  ghost predicate WalPushOk(p: Push, ctid: TidWord) {
    |p| <= C.MAX_OPE && (p == [] || PushOk(p, ctid.epoch))
  }

  ghost predicate PcOk(x: LogWorker, ge: nat) {
    match x.pc
    case InTx => AtCtidw(x) && x.cur.Some?
    case Window(e) => AtCtidw(x) && x.cur.Some? && Fits(x, e, ge)
    case WalPublish(ctid, push, begins) =>
      AtCtidw(x) && x.cur.Some? && WalOk(x, ctid, begins, ge) && WalPushOk(push, ctid)
    case WalAppend(ctid, push, begins) =>
      && WalOk(x, ctid, begins, ge) && WalPushOk(push, ctid)
      && (x.cur.Some? ==> (Clean(x.cur.value) || (!begins && x.cur.value.minEpoch == ctid.epoch)) &&
                          Size(x.cur.value) + |push| <= LOG_BUFFER_SIZE)
    case WalFull(ctid, begins) =>
      WalOk(x, ctid, begins, ge) && x.cur.Some? && x.cur.value.minEpoch == ctid.epoch && x.cur.value.used
    case WalStore(ctid, begins) =>
      && WalOk(x, ctid, begins, ge)
      && (x.cur.Some? ==> x.cur.value.minEpoch == ctid.epoch && Size(x.cur.value) + C.MAX_OPE <= LOG_BUFFER_SIZE)
    case EwLoaded(e) => Fits(x, e, ge) && AtCtidw(x) && Unused(x)
    case EwStored(e) => Fits(x, e, ge) && AtCtidw(x) && Unused(x)
    case Ending => Unused(x)
    case Stopped => Unused(x)
    case _ => AtCtidw(x)
  }

  ghost predicate WorkerOk(x: LogWorker, w: nat, ge: nat) {
    && x.ctidw.Valid() && (x.ctidw == ALL_ONES || 1 <= x.ctidw.epoch <= ge)
    && (forall i :: 0 <= i < |x.free| ==> Clean(x.free[i]) && x.free[i].owner == w)
    && (x.cur.Some? ==> BufferOk(x.cur.value) && x.cur.value.owner == w)
    && PcOk(x, ge)
  }

  /** The highest epoch a worker may have published. */
  function Top(x: LogWorker): nat {
    if x.pc.WalFull? || x.pc.WalStore? then x.pc.ctid.epoch
    else if Real(x.ctidw) then x.ctidw.epoch else 0
  }

  /** What a step of its own may do to a worker, as far as others care. */
  ghost predicate Ahead(x: LogWorker, x': LogWorker) {
    && (Real(x.ctidw) ==> Real(x'.ctidw) && x.ctidw.epoch <= x'.ctidw.epoch)
    && Top(x) <= Top(x')
    && (x.pc.Stopped? ==> x'.pc.Stopped?)
  }

  // ---- Loggers ------------------------------------------------------------------------------

  ghost predicate ConfigOk(s: State) {
    && |s.loggerOf| == |s.ws| && |s.ls| > 0
    && (forall w :: 0 <= w < |s.ws| ==> s.loggerOf[w] < |s.ls| && w in s.ls[s.loggerOf[w]].members)
    && (forall l, i :: 0 <= l < |s.ls| && 0 <= i < |s.ls[l].members| ==>
          s.ls[l].members[i] < |s.ws| && s.loggerOf[s.ls[l].members[i]] == l)
    && s.ge >= 1
  }

  function Batch(lg: Logger): seq<Buffer> {
    if lg.pc.WriteOut? then lg.pc.batch else []
  }

  ghost predicate QueuedOk(s: State, l: nat, b: Buffer) {
    && BufferOk(b)
    && b.owner < |s.ws| == |s.loggerOf| && s.loggerOf[b.owner] == l
    && (Clean(b) || b.minEpoch <= Top(s.ws[b.owner]))
  }

  ghost predicate AllQueuedOk(s: State, l: nat, q: seq<Buffer>) {
    forall i :: 0 <= i < |q| ==> QueuedOk(s, l, q[i])
  }

  ghost predicate InKeyOrder(q: seq<Buffer>) {
    forall i, j :: 0 <= i < j < |q| ==> q[i].minEpoch <= q[j].minEpoch
  }

  ghost predicate Ended(pc: LoggerPc) {
    pc.Done? || ((pc.Fold? || pc.FoldLoad? || pc.FoldCas? || pc.FoldWrite?) && pc.after.EndNext?)
  }

  /** Every block belongs to a worker of logger l and is no longer than a buffer. */
  ghost predicate BlocksOwned(s: State, l: nat, f: seq<Block>) {
    forall i :: 0 <= i < |f| ==>
      f[i].owner < |s.ws| == |s.loggerOf| && s.loggerOf[f[i].owner] == l && Total(f[i].pushes) <= LOG_BUFFER_SIZE
  }

  ghost predicate LoggerOk(s: State, l: nat)
    requires l < |s.ls|
  {
    var lg := s.ls[l];
    && AllQueuedOk(s, l, lg.queue) && AllQueuedOk(s, l, Batch(lg))
    && BlocksOwned(s, l, lg.file)
    && InKeyOrder(lg.queue)
    && lg.synced <= |lg.file|
    && (!lg.pc.WriteOut? && !lg.pc.Sync? ==> lg.synced == |lg.file|)
    && lg.durable < s.ge
    && (forall i :: 0 <= i < |lg.members| && lg.members[i] < |s.ws| && lg.members[i] !in lg.running ==>
          s.ws[lg.members[i]].pc.Stopped?)
    && (lg.quit ==> lg.running == {})
    && (Ended(lg.pc) ==> lg.quit && lg.queue == [])
  }

  // ---- Safety of the bound ------------------------------------------------------------------

  /** The worker has published a CTIDW, and it is at least e. */
  predicate Covered(x: LogWorker, e: nat) {
    Real(x.ctidw) && e <= x.ctidw.epoch
  }

  ghost predicate AllCovered(s: State, l: nat, n: nat, e: nat)
    requires l < |s.ls|
  {
    forall i :: 0 <= i < n && i < |s.ls[l].members| && s.ls[l].members[i] < |s.ws| ==>
        Covered(s.ws[s.ls[l].members[i]], e)
  }

  ghost predicate AtLeast(q: seq<Buffer>, e: nat) {
    forall i :: 0 <= i < |q| ==> Clean(q[i]) || e <= q[i].minEpoch
  }

  ghost predicate PushAbove(p: Push, d: nat) {
    forall i :: 0 <= i < |p| ==> p[i].tid.epoch > d
  }

  ghost predicate BlockAbove(b: Block, d: nat) {
    forall i :: 0 <= i < |b.pushes| ==> PushAbove(b.pushes[i], d)
  }

  ghost predicate UnsyncedAbove(lg: Logger, d: nat) {
    forall i :: lg.synced <= i < |lg.file| ==> BlockAbove(lg.file[i], d)
  }

  /** Everything of logger l that is not on disk, or may still come, lies above its bound. */
  ghost predicate SafeOk(s: State, l: nat)
    requires l < |s.ls|
  {
    var lg := s.ls[l];
    !lg.blind ==>
      && (lg.durable > 0 ==> AllCovered(s, l, |lg.members|, lg.durable + 1))
      && AtLeast(lg.queue, lg.durable + 1) && AtLeast(Batch(lg), lg.durable + 1)
      && UnsyncedAbove(lg, lg.durable)
  }

  /** The bound under way once the scan is over: what it is, and whether it skipped a worker. */
  function BoundOf(pc: LoggerPc): Option<(nat, bool)> {
    match pc
    case Dequeue(b, k) => Some((b, k))
    case WriteOut(b, k, _) => Some((b, k))
    case Sync(b, k) => Some((b, k))
    case Send(b, k) => Some((b, k))
    case Fold(StoreNext(b, k), _, _) => Some((b, k))
    case FoldLoad(StoreNext(b, k), _) => Some((b, k))
    case FoldCas(StoreNext(b, k), _, _) => Some((b, k))
    case FoldWrite(StoreNext(b, k), _) => Some((b, k))
    case StoreBound(b, k) => Some((b, k))
    case _ => None
  }

  predicate Storing(pc: LoggerPc) {
    pc.Fold? || pc.FoldLoad? || pc.FoldCas? || pc.FoldWrite? || pc.StoreBound?
  }

  /** A bound under way: no worker that the scan saw is behind it, and nothing in the queue is. */
  ghost predicate ScanOk(s: State, l: nat)
    requires l < |s.ls|
  {
    var lg := s.ls[l];
    match lg.pc
    case ScanWorkers(_, k, min, skipped) =>
      && min.Valid() && (min == ALL_ONES || 1 <= min.epoch <= s.ge)
      && k <= |lg.members|
      && (!skipped ==> AllCovered(s, l, k, min.epoch) && (k > 0 ==> min != ALL_ONES))
    case ScanQueue(_, e, skipped) =>
      1 <= e <= s.ge && (!skipped ==> AllCovered(s, l, |lg.members|, e))
    case _ =>
      BoundOf(lg.pc).Some? ==>
        var (b, skipped) := BoundOf(lg.pc).value;
        && 1 <= b <= s.ge
        && (Storing(lg.pc) ==> lg.durable < b - 1)
        && (!skipped ==> AllCovered(s, l, |lg.members|, b) && AtLeast(lg.queue, b))
  }

  // ---- The fold into the durable epoch ------------------------------------------------------

  ghost predicate LowOk(s: State, n: nat, low: nat) {
    forall i :: 0 <= i < n && i < |s.ls| ==> low <= s.ls[i].durable
  }

  ghost predicate FoldOk(s: State, l: nat)
    requires l < |s.ls|
  {
    match s.ls[l].pc
    case Fold(_, k, low) => LowOk(s, k, low)
    case FoldLoad(_, low) => LowOk(s, |s.ls|, low)
    case FoldCas(_, low, seen) => LowOk(s, |s.ls|, low) && seen < low
    case FoldWrite(_, low) => low <= s.durable
    case _ => true
  }

  // ---- Nothing gets lost --------------------------------------------------------------------

  function OwnOf(b: Buffer, w: nat): seq<Push> {
    if b.owner == w then b.pushes else []
  }

  function BufsOf(q: seq<Buffer>, w: nat): seq<Push> {
    if q == [] then []
    else BufsOf(q[..|q| - 1], w) + OwnOf(q[|q| - 1], w)
  }

  function FileOf(f: seq<Block>, w: nat): seq<Push> {
    if f == [] then []
    else FileOf(f[..|f| - 1], w) + (if f[|f| - 1].owner == w then f[|f| - 1].pushes else [])
  }

  function CurOf(x: LogWorker): seq<Push> {
    if x.cur.Some? then x.cur.value.pushes else []
  }

  /** The records a logger holds for w. */
  function Holding(lg: Logger, w: nat): seq<Push> {
    FileOf(lg.file, w) + BufsOf(Batch(lg), w) + BufsOf(lg.queue, w)
  }

  /** What a worker pushed is in the file, the batch, the queue and its buffer, in this order. */
  ghost predicate StreamOk(s: State, w: nat)
    requires w < |s.ws| == |s.loggerOf| && s.loggerOf[w] < |s.ls|
  {
    s.ws[w].hist == Holding(s.ls[s.loggerOf[w]], w) + CurOf(s.ws[w])
  }

  // ---- The invariant ------------------------------------------------------------------------

  ghost predicate Inv(s: State) {
    && ConfigOk(s)
    && (forall w :: 0 <= w < |s.ws| ==> WorkerOk(s.ws[w], w, s.ge) && StreamOk(s, w))
    && (forall l :: 0 <= l < |s.ls| ==> LoggerOk(s, l) && SafeOk(s, l) && ScanOk(s, l) && FoldOk(s, l))
    && (forall l :: 0 <= l < |s.ls| ==> s.durable <= s.ls[l].durable)
    && s.pepoch <= s.durable
  }

  // ---- Lemmas about queues ------------------------------------------------------------------

  lemma {:induction false} EnqMembers(q: seq<Buffer>, b: Buffer)
    ensures |Enq(q, b)| == |q| + 1
    ensures forall c :: c in Enq(q, b) <==> c == b || c in q
  {
    if q != [] && q[|q| - 1].minEpoch > b.minEpoch {
      EnqMembers(q[..|q| - 1], b);
      assert forall c :: c in q <==> c in q[..|q| - 1] || c == q[|q| - 1];
    }
  }

  lemma {:induction false} EnqOrder(q: seq<Buffer>, b: Buffer)
    requires InKeyOrder(q)
    ensures InKeyOrder(Enq(q, b))
  {
    if q != [] && q[|q| - 1].minEpoch > b.minEpoch {
      var n := |q| - 1;
      EnqOrder(q[..n], b);
      EnqMembers(q[..n], b);
      forall c | c in Enq(q[..n], b) ensures c.minEpoch <= q[n].minEpoch {
        if c != b {
          var i :| 0 <= i < n && q[i] == c;
        }
      }
      var e := Enq(q[..n], b);
      assert forall i :: 0 <= i < |e| ==> e[i] in e;
    }
  }

  /** Empty buffers may overtake and be overtaken; a worker's records keep their order. */
  lemma {:induction false} EnqStream(q: seq<Buffer>, b: Buffer, w: nat)
    requires OwnOf(b, w) == [] || forall i :: 0 <= i < |q| && OwnOf(q[i], w) != [] ==> q[i].minEpoch <= b.minEpoch
    ensures BufsOf(Enq(q, b), w) == BufsOf(q, w) + OwnOf(b, w)
  {
    if q == [] || q[|q| - 1].minEpoch <= b.minEpoch {
      assert (q + [b])[..|q|] == q;
    } else {
      var n := |q| - 1;
      EnqStream(q[..n], b, w);
      var e := Enq(q[..n], b);
      assert (e + [q[n]])[..|e|] == e;
      assert BufsOf(Enq(q, b), w) == BufsOf(e, w) + OwnOf(q[n], w);
      assert OwnOf(b, w) == [] || OwnOf(q[n], w) == [];
      SwapEmpty(BufsOf(q[..n], w), OwnOf(b, w), OwnOf(q[n], w));
    }
  }

  lemma SwapEmpty(p: seq<Push>, a: seq<Push>, b: seq<Push>)
    requires a == [] || b == []
    ensures p + a + b == p + b + a
  {
  }

  lemma {:induction false} BufsOfConcat(p: seq<Buffer>, q: seq<Buffer>, w: nat)
    ensures BufsOf(p + q, w) == BufsOf(p, w) + BufsOf(q, w)
  {
    if q == [] {
      assert p + q == p;
    } else {
      var n := |q| - 1;
      BufsOfConcat(p, q[..n], w);
      assert (p + q)[..|p + q| - 1] == p + q[..n] && (p + q)[|p + q| - 1] == q[n];
      Associates(BufsOf(p, w), BufsOf(q[..n], w), OwnOf(q[n], w));
    }
  }

  lemma Associates(a: seq<Push>, b: seq<Push>, c: seq<Push>)
    ensures (a + b) + c == a + (b + c)
  {
  }

  lemma {:induction false} TotalZero(ps: seq<Push>)
    requires forall i :: 0 <= i < |ps| ==> ps[i] != []
    ensures Total(ps) == 0 <==> ps == []
  {
    if ps != [] { TotalZero(ps[..|ps| - 1]); }
  }

  lemma {:induction false} TotalLength(ps: seq<Push>)
    ensures |PushRecords(ps)| == Total(ps)
  {
    if ps != [] { TotalLength(ps[..|ps| - 1]); }
  }
}
