/** The durability pipeline as a step system: log buffers and their pools (log_buffer.cpp), the queue of
    each logger (include/log_queue.h), the loggers (logger.cpp) and the durable epoch (notifier.cpp).

    Queue and pool operations are atomic, as their locks make them; every other access to shared memory
    is a step of its own. The commit protocol drives the workers through the first group of actions.
    History: `LogWorker.hist` records what was pushed, `Logger.blind` whether a bound was ever stored
    after a scan that met a worker with no CTIDW yet. */
module LogModel {
  import opened TidWords
  import C = CommitModel

  const NO_EPOCH: nat := 0xffff_ffff_ffff_ffff
  const RECORD_BYTES := 16
  const BUFFER_SIZE := 512                                        // KiB
  const LOG_BUFFER_SIZE := BUFFER_SIZE * 1024 / RECORD_BYTES      // records
  const BUFFER_NUM := 2

  /** CTIDW before its first store: ~0. */
  const ALL_ONES := TidWord(EPOCH_LIMIT - 1, TID_LIMIT - 1, true, true, true)

  datatype Option<+T> = None | Some(value: T)

  datatype Record = Record(tid: TidWord, key: nat, val: C.Value)

  /** The records of one transaction. */
  type Push = seq<Record>

  /** A log buffer. log_set_ is kept push by push; `used` says that nid_set_ is not empty, which stays so
      once it is. `id` tells the buffers of a pool apart. */
  datatype Buffer = Buffer(owner: nat, id: nat, pushes: seq<Push>, used: bool, minEpoch: nat, maxEpoch: nat)

  datatype LogPc =
    | Free                                                   // between transactions
    | InTx                                                   // in a transaction, epoch not loaded
    | Window(epoch: nat)                                     // epoch loaded, validating
    | WalPublish(ctid: TidWord, push: Push, begins: bool)     // push: publish before appending
    | WalAppend(ctid: TidWord, push: Push, begins: bool)      // push: wait for a buffer and append
    | WalFull(ctid: TidWord, begins: bool)                    // push: publish a nearly full buffer
    | WalStore(ctid: TidWord, begins: bool)                   // wal: store CTIDW if an epoch begins
    | WalDone
    | Tail                                                   // installing, or unlocking after a conflict
    | EwLoaded(epoch: nat)                                   // epochWork: GlobalEpoch loaded
    | EwStored(epoch: nat)                                   // epochWork: ThLocalEpoch stored
    | Ending                                                 // pool terminated, worker_end not yet called
    | Stopped

  datatype LogWorker = LogWorker(pc: LogPc, ctidw: TidWord, cur: Option<Buffer>, free: seq<Buffer>, hist: seq<Push>)

  datatype After = StoreNext(bound: nat, skipped: bool) | EndNext

  datatype LoggerPc =
    | Wait                                                               // wait_deq
    | ScanWorkers(timeout: bool, k: nat, min: TidWord, skipped: bool)    // find_min_epoch
    | ScanQueue(timeout: bool, epoch: nat, skipped: bool)
    | Dequeue(bound: nat, skipped: bool)                                 // logging
    | WriteOut(bound: nat, skipped: bool, batch: seq<Buffer>)
    | Sync(bound: nat, skipped: bool)
    | Send(bound: nat, skipped: bool)                                    // send_nid_to_notifier
    | Fold(after: After, k: nat, low: nat)                               // check_durable: minimum
    | FoldLoad(after: After, low: nat)
    | FoldCas(after: After, low: nat, seen: nat)
    | FoldWrite(after: After, low: nat)                                  // PepochFile::write
    | StoreBound(bound: nat, skipped: bool)
    | Done

  /** A block of data.log: the records of one buffer. */
  datatype Block = Block(owner: nat, pushes: seq<Push>)

  /** `queue` lists the enqueued buffers in the order deq returns them; see LogQueue for the map that
      holds them. `synced` blocks of the file have been fsynced. */
  datatype Logger = Logger(
    pc: LoggerPc,
    members: seq<nat>,     // thid_vec_
    running: set<nat>,     // thid_set_
    queue: seq<Buffer>,
    quit: bool,
    file: seq<Block>,
    synced: nat,
    durable: nat,          // ThLocalDurableEpoch[thid_]
    blind: bool
  )

  /** `loggerOf` is the assignment of workers to loggers; `epochDiff` is EPOCH_DIFF. */
  datatype State = State(
    epochDiff: nat,
    loggerOf: seq<nat>,
    ge: nat,
    ws: seq<LogWorker>,
    ls: seq<Logger>,
    durable: nat,          // DurableEpoch
    pepoch: nat
  )

  // ---- Initial state ------------------------------------------------------------------------

  function CleanBuffer(w: nat, id: nat, used: bool): Buffer {
    Buffer(w, id, [], used, NO_EPOCH, 0)
  }

  function InitWorker(w: nat): LogWorker {
    LogWorker(Free, ALL_ONES, Some(CleanBuffer(w, 0, false)),
              seq(BUFFER_NUM - 1, i requires 0 <= i => CleanBuffer(w, i + 1, false)), [])
  }

  function InitLogger(members: seq<nat>): Logger {
    Logger(Wait, members, set w | w in members, [], false, [], 0, 0, false)
  }

  function InitState(epochDiff: nat, loggerOf: seq<nat>, members: seq<seq<nat>>): State {
    State(epochDiff, loggerOf, 1,
          seq(|loggerOf|, w requires 0 <= w => InitWorker(w)),
          seq(|members|, l requires 0 <= l < |members| => InitLogger(members[l])), 0, 0)
  }

  /** Every worker belongs to the one logger it was added to, once, and every logger has a worker. */
  ghost predicate ValidConfig(loggerOf: seq<nat>, members: seq<seq<nat>>) {
    && |members| > 0
    && (forall w :: 0 <= w < |loggerOf| ==> loggerOf[w] < |members| && w in members[loggerOf[w]])
    && (forall l :: 0 <= l < |members| ==> members[l] != [])
    && (forall l, i :: 0 <= l < |members| && 0 <= i < |members[l]| ==>
          members[l][i] < |loggerOf| && loggerOf[members[l][i]] == l)
    && (forall l, i, j :: 0 <= l < |members| && 0 <= i < j < |members[l]| ==> members[l][i] != members[l][j])
  }

  // ---- Buffers, queue, pool -----------------------------------------------------------------

  /** The records of a series of pushes. */
  function PushRecords(ps: seq<Push>): seq<Record> {
    if ps == [] then [] else PushRecords(ps[..|ps| - 1]) + ps[|ps| - 1]
  }

  function Total(pushes: seq<Push>): nat {
    if pushes == [] then 0 else Total(pushes[..|pushes| - 1]) + |pushes[|pushes| - 1]|
  }

  /** log_set_size_ */
  function Size(b: Buffer): nat {
    Total(b.pushes)
  }

  /** LogBuffer::push */
  function Append(b: Buffer, ctid: TidWord, push: Push): Buffer {
    b.(pushes := if push == [] then b.pushes else b.pushes + [push],
       used := true,
       minEpoch := if ctid.epoch < b.minEpoch then ctid.epoch else b.minEpoch,
       maxEpoch := if ctid.epoch > b.maxEpoch then ctid.epoch else b.maxEpoch)
  }

  /** LogQueue::enq, as it shows in the order of deq: behind every buffer of the same or a lower key. */
  function Enq(q: seq<Buffer>, b: Buffer): seq<Buffer> {
    if q == [] || q[|q| - 1].minEpoch <= b.minEpoch then q + [b]
    else Enq(q[..|q| - 1], b) + [q[|q| - 1]]
  }

  /** LogQueue::min_epoch */
  function MinEpoch(q: seq<Buffer>): nat {
    if q == [] then NO_EPOCH else q[0].minEpoch
  }

  function SetW(s: State, w: nat, x: LogWorker): State
    requires w < |s.ws|
  {
    s.(ws := s.ws[w := x])
  }

  function SetL(s: State, l: nat, x: Logger): State
    requires l < |s.ls|
  {
    s.(ls := s.ls[l := x])
  }

  /** LogBufferPool::publish with a current buffer at hand: enqueue it unless it was never used. */
  function Publish(s: State, w: nat, pc: LogPc): State
    requires w < |s.ws| && w < |s.loggerOf| && s.loggerOf[w] < |s.ls|
  {
    var x := s.ws[w];
    if x.cur.Some? && x.cur.value.used then
      var l := s.loggerOf[w];
      SetL(SetW(s, w, x.(pc := pc, cur := None)), l, s.ls[l].(queue := Enq(s.ls[l].queue, x.cur.value)))
    else SetW(s, w, x.(pc := pc))
  }

  /** LogBufferPool::is_ready: take a buffer from the back of the pool. */
  function TakeBuffer(x: LogWorker): LogWorker
    requires x.free != []
  {
    x.(cur := Some(x.free[|x.free| - 1]), free := x.free[..|x.free| - 1])
  }

  // ---- Worker steps -------------------------------------------------------------------------

  function Records(ctid: TidWord, keys: seq<nat>, val: C.Value): (p: Push)
    ensures |p| == |keys|
  {
    seq(|keys|, i requires 0 <= i < |keys| => Record(ctid, keys[i], val))
  }

  /** wal and the first test of LogBufferPool::push. */
  function WalBeginStep(s: State, w: nat, ctid: TidWord, keys: seq<nat>, val: C.Value): State
    requires w < |s.ws|
  {
    var x := s.ws[w];
    var push := Records(ctid, keys, val);
    var begins := x.ctidw.epoch != ctid.epoch;
    var size := if x.cur.Some? then Size(x.cur.value) else 0;
    SetW(s, w, x.(pc := if size + |keys| > LOG_BUFFER_SIZE || begins then WalPublish(ctid, push, begins)
                        else WalAppend(ctid, push, begins)))
  }

  function WalAppendStep(s: State, w: nat): State
    requires w < |s.ws| && s.ws[w].pc.WalAppend? && (s.ws[w].cur.Some? || s.ws[w].free != [])
  {
    var x := s.ws[w];
    var WalAppend(ctid, push, begins) := x.pc;
    if x.cur.None? then SetW(s, w, TakeBuffer(x))
    else
      var b := Append(x.cur.value, ctid, push);
      SetW(s, w, x.(pc := if Size(b) + C.MAX_OPE > LOG_BUFFER_SIZE then WalFull(ctid, begins)
                          else WalStore(ctid, begins),
                    cur := Some(b),
                    hist := if push == [] then x.hist else x.hist + [push]))
  }

  function WalStoreStep(s: State, w: nat): State
    requires w < |s.ws| && s.ws[w].pc.WalStore?
  {
    var x := s.ws[w];
    SetW(s, w, x.(pc := WalDone, ctidw := if x.pc.begins then x.pc.ctid else x.ctidw))
  }

  /** The CTIDW value of epochWork: the new epoch with TID 0. */
  function EpochTid(epoch: nat): TidWord {
    TidWord(epoch % EPOCH_LIMIT, 0, false, true, false)
  }

  function EwStoredStep(s: State, w: nat): State
    requires w < |s.ws| && s.ws[w].pc.EwStored?
  {
    var x := s.ws[w];
    SetW(s, w, x.(pc := Free, ctidw := if x.ctidw.epoch != x.pc.epoch then EpochTid(x.pc.epoch) else x.ctidw))
  }

  /** Logger::worker_end */
  function WorkerEndStep(s: State, w: nat): State
    requires w < |s.ws| && w < |s.loggerOf| && s.loggerOf[w] < |s.ls|
  {
    var l := s.loggerOf[w];
    var lg := s.ls[l];
    SetL(SetW(s, w, s.ws[w].(pc := Stopped)), l,
         lg.(running := lg.running - {w}, quit := lg.quit || lg.running - {w} == {}))
  }

  // ---- Logger steps -------------------------------------------------------------------------

  function To(s: State, l: nat, pc: LoggerPc): State
    requires l < |s.ls|
  {
    SetL(s, l, s.ls[l].(pc := pc))
  }

  function ScanWorkersStep(s: State, l: nat): State
    requires l < |s.ls| && s.ls[l].pc.ScanWorkers?
    requires forall i :: 0 <= i < |s.ls[l].members| ==> s.ls[l].members[i] < |s.ws|
  {
    var ScanWorkers(timeout, k, min, skipped) := s.ls[l].pc;
    if k < |s.ls[l].members| then
      var c := s.ws[s.ls[l].members[k]].ctidw;
      To(s, l, ScanWorkers(timeout, k + 1, if c.Obj() > 0 && Less(c, min) then c else min, skipped || c == ALL_ONES))
    else if min.epoch == 0 || min == ALL_ONES then To(s, l, Wait)
    else To(s, l, ScanQueue(timeout, min.epoch, skipped))
  }

  function ScanQueueStep(s: State, l: nat): State
    requires l < |s.ls| && s.ls[l].pc.ScanQueue?
  {
    var ScanQueue(timeout, epoch, skipped) := s.ls[l].pc;
    var qe := MinEpoch(s.ls[l].queue);
    var bound := if epoch > qe then qe else epoch;
    if bound == 0 then To(s, l, Wait)
    else if timeout then To(s, l, Send(bound, skipped))
    else To(s, l, Dequeue(bound, skipped))
  }

  function DequeueStep(s: State, l: nat): State
    requires l < |s.ls| && s.ls[l].pc.Dequeue?
  {
    var lg := s.ls[l];
    SetL(s, l, lg.(pc := WriteOut(lg.pc.bound, lg.pc.skipped, lg.queue), queue := []))
  }

  /** logging, lines 26-34: write one buffer, clean it and return it to its pool. */
  function WriteOutStep(s: State, l: nat): State
    requires l < |s.ls| && s.ls[l].pc.WriteOut?
    requires s.ls[l].pc.batch != [] ==> s.ls[l].pc.batch[0].owner < |s.ws|
  {
    var lg := s.ls[l];
    var WriteOut(bound, skipped, batch) := lg.pc;
    if batch == [] then To(s, l, Sync(bound, skipped))
    else
      var b := batch[0];
      var x := s.ws[b.owner];
      SetL(SetW(s, b.owner, x.(free := x.free + [CleanBuffer(b.owner, b.id, b.used)])), l,
           lg.(pc := WriteOut(bound, skipped, batch[1..]),
               file := if Size(b) == 0 then lg.file else lg.file + [Block(b.owner, b.pushes)]))
  }

  function SendStep(s: State, l: nat): State
    requires l < |s.ls| && s.ls[l].pc.Send?
  {
    var Send(bound, skipped) := s.ls[l].pc;
    if bound == 0 || bound == NO_EPOCH then To(s, l, Wait)
    else if s.ls[l].durable < bound - 1 then To(s, l, Fold(StoreNext(bound, skipped), 0, 0))
    else To(s, l, Wait)
  }

  function FoldStep(s: State, l: nat): State
    requires l < |s.ls| && s.ls[l].pc.Fold?
  {
    var Fold(after, k, low) := s.ls[l].pc;
    if k < |s.ls| then
      var d := s.ls[k].durable;
      To(s, l, Fold(after, k + 1, if k == 0 || d < low then d else low))
    else To(s, l, FoldLoad(after, low))
  }

  function Resume(s: State, l: nat, after: After): State
    requires l < |s.ls|
  {
    To(s, l, if after.EndNext? then Done else StoreBound(after.bound, after.skipped))
  }

  function FoldLoadStep(s: State, l: nat): State
    requires l < |s.ls| && s.ls[l].pc.FoldLoad?
  {
    var FoldLoad(after, low) := s.ls[l].pc;
    if s.durable < low then To(s, l, FoldCas(after, low, s.durable)) else Resume(s, l, after)
  }

  function FoldCasStep(s: State, l: nat): State
    requires l < |s.ls| && s.ls[l].pc.FoldCas?
  {
    var FoldCas(after, low, seen) := s.ls[l].pc;
    if s.durable == seen then To(s, l, FoldWrite(after, low)).(durable := low) else Resume(s, l, after)
  }

  function FoldWriteStep(s: State, l: nat): State
    requires l < |s.ls| && s.ls[l].pc.FoldWrite?
  {
    var FoldWrite(after, low) := s.ls[l].pc;
    Resume(s, l, after).(pepoch := low)
  }

  function StoreBoundStep(s: State, l: nat): State
    requires l < |s.ls| && s.ls[l].pc.StoreBound? && s.ls[l].pc.bound > 0
  {
    var lg := s.ls[l];
    SetL(s, l, lg.(pc := Wait, durable := lg.pc.bound - 1, blind := lg.blind || lg.pc.skipped))
  }

  // ---- Actions ------------------------------------------------------------------------------

  datatype Action =
    // driven by the commit protocol
    | TxBegin(w: nat)
    | EpochLoaded(w: nat)
    | TxAbort(w: nat)
    | WalBegin(w: nat, ctid: TidWord, keys: seq<nat>, val: C.Value)
    | WalReturn(w: nat)
    | TxEnd(w: nat)
    | EwLoad(w: nat)
    | EwStore(w: nat)
    | Advance
    | Stop(w: nat)
    // steps of the pipeline itself
    | WorkerStep(w: nat)
    | Take(w: nat)           // durableEpochWork: is_ready takes a buffer
    | Pause(w: nat)          // durableEpochWork: publish before waiting for the durable epoch
    | Timeout(l: nat)        // wait_deq times out
    | LoggerStep(l: nat)

  predicate WorkerIn(s: State, w: nat) {
    w < |s.ws| && w < |s.loggerOf| && s.loggerOf[w] < |s.ls|
  }

  predicate LoggerIn(s: State, l: nat) {
    && l < |s.ls|
    && (forall i :: 0 <= i < |s.ls[l].members| ==> s.ls[l].members[i] < |s.ws|)
    && (s.ls[l].pc.WriteOut? && s.ls[l].pc.batch != [] ==> s.ls[l].pc.batch[0].owner < |s.ws|)
    && (s.ls[l].pc.StoreBound? ==> s.ls[l].pc.bound > 0)
  }

  /** epochWork is reached with no current buffer, or while pausing, with one that was never used. */
  predicate MayEpochWork(s: State, x: LogWorker) {
    x.cur.None? || (s.epochDiff > 0 && !x.cur.value.used)
  }

  predicate Enabled(s: State, a: Action) {
    match a
    case TxBegin(w) => WorkerIn(s, w) && s.ws[w].pc.Free? && s.ws[w].cur.Some?
    case EpochLoaded(w) => WorkerIn(s, w) && s.ws[w].pc.InTx?
    case TxAbort(w) => WorkerIn(s, w) && s.ws[w].pc.Window?
    case WalBegin(w, ctid, keys, val) =>
      WorkerIn(s, w) && s.ws[w].pc.Window? && ctid.epoch ==
          s.ws[w].pc.epoch && ctid.Valid() && !ctid.lock && |keys| <= C.MAX_OPE
    case WalReturn(w) => WorkerIn(s, w) && s.ws[w].pc.WalDone?
    case TxEnd(w) => WorkerIn(s, w) && (s.ws[w].pc.InTx? || s.ws[w].pc.Tail?)
    case EwLoad(w) => WorkerIn(s, w) && s.ws[w].pc.Free? && MayEpochWork(s, s.ws[w])
    case EwStore(w) => WorkerIn(s, w) && s.ws[w].pc.EwLoaded?
    case Advance => true
    case Stop(w) => WorkerIn(s, w) && s.ws[w].pc.Free?
    case WorkerStep(w) =>
      WorkerIn(s, w) && (
        match s.ws[w].pc {
          case WalPublish(_, _, _) => s.ws[w].cur.Some?
          case WalAppend(_, _, _) => s.ws[w].cur.Some? || s.ws[w].free != []
          case WalFull(_, _) => s.ws[w].cur.Some?
          case WalStore(_, _) => true
          case EwStored(_) => true
          case Ending => true
          case _ => false
        })
    case Take(w) => WorkerIn(s, w) && s.ws[w].pc.Free? && s.ws[w].cur.None? && s.ws[w].free != []
    case Pause(w) => WorkerIn(s, w) && s.ws[w].pc.Free? && s.epochDiff > 0 && s.ws[w].cur.Some?
    case Timeout(l) => LoggerIn(s, l) && s.ls[l].pc.Wait? && s.ls[l].queue == [] && !s.ls[l].quit
    case LoggerStep(l) =>
      LoggerIn(s, l) && !s.ls[l].pc.Done? && (s.ls[l].pc.Wait? ==> s.ls[l].quit || s.ls[l].queue != [])
  }

  function WorkerStepOf(s: State, w: nat): State
    requires Enabled(s, WorkerStep(w))
  {
    var x := s.ws[w];
    match x.pc
    case WalPublish(ctid, push, begins) => Publish(s, w, WalAppend(ctid, push, begins))
    case WalAppend(_, _, _) => WalAppendStep(s, w)
    case WalFull(ctid, begins) => Publish(s, w, WalStore(ctid, begins))
    case WalStore(_, _) => WalStoreStep(s, w)
    case EwStored(_) => EwStoredStep(s, w)
    case Ending => WorkerEndStep(s, w)
  }

  /** worker, lines 139-146: logging(true) finds the queue empty and only folds. */
  function WaitStep(s: State, l: nat): State
    requires l < |s.ls|
  {
    if s.ls[l].queue == [] then To(s, l, Fold(EndNext, 0, 0))
    else To(s, l, ScanWorkers(false, 0, ALL_ONES, false))
  }

  function LoggerStepOf(s: State, l: nat): State
    requires Enabled(s, LoggerStep(l))
  {
    match s.ls[l].pc
    case Wait => WaitStep(s, l)
    case ScanWorkers(_, _, _, _) => ScanWorkersStep(s, l)
    case ScanQueue(_, _, _) => ScanQueueStep(s, l)
    case Dequeue(_, _) => DequeueStep(s, l)
    case WriteOut(_, _, _) => WriteOutStep(s, l)
    case Sync(bound, skipped) => SetL(s, l, s.ls[l].(pc := Send(bound, skipped), synced := |s.ls[l].file|))
    case Send(_, _) => SendStep(s, l)
    case Fold(_, _, _) => FoldStep(s, l)
    case FoldLoad(_, _) => FoldLoadStep(s, l)
    case FoldCas(_, _, _) => FoldCasStep(s, l)
    case FoldWrite(_, _) => FoldWriteStep(s, l)
    case StoreBound(_, _) => StoreBoundStep(s, l)
  }

  function Apply(s: State, a: Action): State
    requires Enabled(s, a)
  {
    match a
    case TxBegin(w) => SetW(s, w, s.ws[w].(pc := InTx))
    case EpochLoaded(w) => SetW(s, w, s.ws[w].(pc := Window(s.ge)))
    case TxAbort(w) => SetW(s, w, s.ws[w].(pc := Tail))
    case WalBegin(w, ctid, keys, val) => WalBeginStep(s, w, ctid, keys, val)
    case WalReturn(w) => SetW(s, w, s.ws[w].(pc := Tail))
    case TxEnd(w) => SetW(s, w, s.ws[w].(pc := Free))
    case EwLoad(w) => SetW(s, w, s.ws[w].(pc := EwLoaded(s.ge)))
    case EwStore(w) => SetW(s, w, s.ws[w].(pc := EwStored(s.ws[w].pc.epoch)))
    case Advance => s.(ge := s.ge + 1)
    case Stop(w) => Publish(s, w, Ending)
    case WorkerStep(w) => WorkerStepOf(s, w)
    case Take(w) => SetW(s, w, TakeBuffer(s.ws[w]))
    case Pause(w) => Publish(s, w, Free)
    case Timeout(l) => To(s, l, ScanWorkers(true, 0, ALL_ONES, false))
    case LoggerStep(l) => LoggerStepOf(s, l)
  }

  ghost predicate Reaches(s: State, trace: seq<Action>, s': State)
    decreases |trace|
  {
    if trace == [] then s' == s
    else Enabled(s, trace[0]) && Reaches(Apply(s, trace[0]), trace[1..], s')
  }

  /** The epochs in use are below the marker value of CTIDW. */
  ghost predicate Bounded(s: State) {
    s.ge < EPOCH_LIMIT - 1
  }
}
