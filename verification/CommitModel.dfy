/** The optimistic commit protocol (transaction.cpp) and the epoch clock (util.cpp) as a step system.

    Every access to memory that another thread can see is one step; computation on a worker's own
    data is part of the step that follows it. Four fields record history and are never read by a
    step's guard or by what it computes for the real fields: `Tuple.owner`, `Tuple.ver`,
    `ReadElement.ver` and `State.log`. */
module CommitModel {
  import opened TidWords

  const VAL_SIZE := 4
  const MAX_OPE := 10

  type Value = seq<char>

  /** A table slot. History: `owner` is the worker that holds the lock (-1: none); `ver` is the position
      in the log of the transaction that installed the word (-1: the initial load). */
  datatype Tuple = Tuple(word: TidWord, val: Value, owner: int, ver: int)

  /** An element of read_set_. History: `ver` as in the tuple when the word was loaded. */
  datatype ReadElement = ReadElement(key: nat, val: Value, word: TidWord, ver: int)

  datatype Pc =
    | Idle                            // between transactions
    | EwStore(epoch: nat)             // epochWork: GlobalEpoch loaded, ThLocalEpoch not yet stored
    | Scan(now: nat, i: nat)          // chkEpochLoaded: next thread to look at (worker 0 only)
    | Running                         // between the operations of a transaction
    | ReadLoad(key: nat)              // read: about to load the TID word
    | ReadCopy(rkey: nat, expected: TidWord, buf: Value, ver: int)  // read: copying, then checking
    | LockLoad(k: nat)                // lockWriteSet: element k
    | LockTry(k: nat, expected: TidWord)
    | UnlockLoad(k: nat, end: nat)    // unlockWriteSet: element k of [0, end)
    | UnlockStore(k: nat, end: nat, expected: TidWord)
    | EpochLoad                       // validationPhase: write set locked
    | EpochStore(epoch: nat)
    | Validate(k: nat)                // read validation of element k
    | WriteTid                        // validated; commit TID not yet computed
    | Wal                             // inside wal, see LogModel
    | Install(k: nat, b: nat)         // writePhase: byte b of element k, then its word
    | Finished                        // left the worker loop

  datatype Worker = Worker(
    pc: Pc,
    readSet: seq<ReadElement>,
    writeSet: seq<nat>,
    maxR: TidWord,
    maxW: TidWord,
    last: TidWord,        // mrctid_
    localEpoch: nat,      // ThLocalEpoch[thid_]
    slot: nat             // history: position in the log of the transaction being committed
  )

  datatype Status = Pending | Aborted | Committed(ctid: TidWord)

  /** A transaction that passed its serial point, the load of GlobalEpoch in validationPhase. */
  datatype Entry = Entry(worker: nat, epoch: nat, rset: seq<ReadElement>, wset: seq<nat>, val: Value, st: Status)

  /** `init` is the loaded table, `wvals` each worker's write_val_; neither ever changes. */
  datatype State = State(init: seq<Value>, wvals: seq<Value>, ge: nat, table: seq<Tuple>, ws: seq<Worker>,
      log: seq<Entry>)

  const ZERO_WORD := TidWord(0, 0, false, false, false)     // obj_ = 0
  const INIT_WORD := TidWord(1, 0, false, true, false)      // partTableInit

  function InitWorker(): Worker {
    Worker(Idle, [], [], ZERO_WORD, ZERO_WORD, TidWord(0, 0, false, true, false), 0, 0)
  }

  function InitState(init: seq<Value>, wvals: seq<Value>): State {
    State(init, wvals, 1,
          seq(|init|, i requires 0 <= i < |init| => Tuple(INIT_WORD, init[i], -1, -1)),
          seq(|wvals|, _ => InitWorker()), [])
  }

  ghost predicate ValidConfig(init: seq<Value>, wvals: seq<Value>) {
    && |wvals| > 0
    && (forall x :: 0 <= x < |init| ==> |init[x]| == VAL_SIZE)
    && (forall w :: 0 <= w < |wvals| ==> |wvals[w]| == VAL_SIZE)
  }

  // ---- Local helpers ------------------------------------------------------------------------

  predicate InReadSet(rs: seq<ReadElement>, key: nat) {
    exists i :: 0 <= i < |rs| && rs[i].key == key
  }

  /** `sort(write_set_)`: by key. */
  function Insert(x: nat, ks: seq<nat>): seq<nat> {
    if ks == [] || x <= ks[0] then [x] + ks else [ks[0]] + Insert(x, ks[1..])
  }

  function Sort(ks: seq<nat>): seq<nat> {
    if ks == [] then [] else Insert(ks[0], Sort(ks[1..]))
  }

  function Put(s: State, w: nat, wk: Worker): State
    requires w < |s.ws|
  {
    s.(ws := s.ws[w := wk])
  }

  function At(s: State, w: nat, pc: Pc): State
    requires w < |s.ws|
  {
    Put(s, w, s.ws[w].(pc := pc))
  }

  function SetTuple(s: State, key: nat, t: Tuple): State
    requires key < |s.table|
  {
    s.(table := s.table[key := t])
  }

  // ---- Steps --------------------------------------------------------------------------------

  datatype Action =
    | Begin | Read(key: nat) | Write(key: nat) | Commit   // worker_th, driving a transaction
    | Next                                                // the step the program counter stands at
    | LogDone                                             // wal returns
    | EpochWork | LeaderWork | Quit

  /** What each step needs so that it touches nothing out of bounds. */
  predicate InRange(s: State, w: nat) {
    w < |s.ws| && w < |s.wvals| && |s.wvals[w]| == VAL_SIZE &&
    var wk := s.ws[w];
    var n := |wk.writeSet|;
    && (forall i :: 0 <= i < n ==> wk.writeSet[i] < |s.table|)
    && (forall i :: 0 <= i < |wk.readSet| ==> wk.readSet[i].key < |s.table|)
    && match wk.pc
       case ReadLoad(key) => key < |s.table|
       case ReadCopy(key, _, buf, _) => key < |s.table| && |s.table[key].val| == VAL_SIZE && |buf| <= VAL_SIZE
       case LockLoad(k) => k <= n
       case LockTry(k, _) => k < n
       case UnlockLoad(k, end) => k <= end <= n
       case UnlockStore(k, end, _) => k < end <= n
       case Validate(k) => k <= |wk.readSet|
       case WriteTid => wk.slot < |s.log|
       case Install(k, b) => k <= n && b <= VAL_SIZE &&
                             (k < n ==> |s.table[wk.writeSet[k]].val| == VAL_SIZE)
       case _ => true
  }

  /** read, lines 79-83: load the word, again while it is locked. */
  function ReadLoadStep(s: State, w: nat): State
    requires InRange(s, w) && s.ws[w].pc.ReadLoad?
  {
    var key := s.ws[w].pc.key;
    ReadLoaded(s, w, key, s.table[key])
  }

  function ReadLoaded(s: State, w: nat, key: nat, t: Tuple): State
    requires w < |s.ws|
  {
    At(s, w, if t.word.lock then ReadLoad(key) else ReadCopy(key, t.word, [], t.ver))
  }

  /** read, lines 89-98: copy one byte, or check the word and finish or start over. */
  function ReadCopyStep(s: State, w: nat): State
    requires InRange(s, w) && s.ws[w].pc.ReadCopy?
  {
    var wk := s.ws[w];
    var ReadCopy(key, expected, buf, ver) := wk.pc;
    var t := s.table[key];
    if |buf| < VAL_SIZE then
      At(s, w, ReadCopy(key, expected, buf + [t.val[|buf|]], ver))
    else if t.word == expected then
      Put(s, w, wk.(pc := Running, readSet := wk.readSet + [ReadElement(key, buf, expected, ver)]))
    else
      ReadLoaded(s, w, key, t)
  }

  /** lockWriteSet, line 46 (and the loop exit). */
  function LockLoadStep(s: State, w: nat): State
    requires InRange(s, w) && s.ws[w].pc.LockLoad?
  {
    var wk := s.ws[w];
    var k := wk.pc.k;
    if k == |wk.writeSet| then At(s, w, EpochLoad)
    else At(s, w, LockTry(k, s.table[wk.writeSet[k]].word))
  }

  /** lockWriteSet, lines 48-58: give up on a locked word, otherwise compare and swap. */
  function LockTryStep(s: State, w: nat): State
    requires InRange(s, w) && s.ws[w].pc.LockTry?
  {
    var wk := s.ws[w];
    var LockTry(k, expected) := wk.pc;
    var x := wk.writeSet[k];
    var t := s.table[x];
    if expected.lock then At(s, w, UnlockLoad(0, k))
    else if t.word == expected then
      SetTuple(Put(s, w, wk.(pc := LockLoad(k + 1), maxW := Max(wk.maxW, expected))),
               x, t.(word := expected.(lock := true), owner := w))
    else At(s, w, LockTry(k, t.word))
  }

  /** unlockWriteSet: load, then store with the lock bit cleared; abort() after the last element. */
  function UnlockLoadStep(s: State, w: nat): State
    requires InRange(s, w) && s.ws[w].pc.UnlockLoad?
  {
    var wk := s.ws[w];
    var UnlockLoad(k, end) := wk.pc;
    if k == end then Put(s, w, wk.(pc := Idle, readSet := [], writeSet := []))
    else At(s, w, UnlockStore(k, end, s.table[wk.writeSet[k]].word))
  }

  function UnlockStoreStep(s: State, w: nat): State
    requires InRange(s, w) && s.ws[w].pc.UnlockStore?
  {
    var wk := s.ws[w];
    var UnlockStore(k, end, expected) := wk.pc;
    var x := wk.writeSet[k];
    SetTuple(At(s, w, UnlockLoad(k + 1, end)), x, s.table[x].(word := expected.(lock := false), owner := -1))
  }

  /** validationPhase, line 150: the serial point. */
  function EpochLoadStep(s: State, w: nat): State
    requires InRange(s, w) && s.ws[w].pc.EpochLoad?
  {
    var wk := s.ws[w];
    Put(s, w, wk.(pc := EpochStore(s.ge), slot := |s.log|))
    .(log := s.log + [Entry(w, s.ge, wk.readSet, wk.writeSet, s.wvals[w], Pending)])
  }

  function EpochStoreStep(s: State, w: nat): State
    requires InRange(s, w) && s.ws[w].pc.EpochStore?
  {
    var wk := s.ws[w];
    Put(s, w, wk.(pc := Validate(0), localEpoch := wk.pc.epoch))
  }

  /** validationPhase, lines 167-184. */
  function ValidateStep(s: State, w: nat): State
    requires InRange(s, w) && s.ws[w].pc.Validate? && s.ws[w].slot < |s.log|
  {
    var wk := s.ws[w];
    var k := wk.pc.k;
    if k == |wk.readSet| then At(s, w, WriteTid)
    else
      var r := wk.readSet[k];
      var check := s.table[r.key].word;
      if !SameVersion(r.word, check) || (check.lock && r.key !in wk.writeSet) then
        At(s, w, UnlockLoad(0, |wk.writeSet|))
        .(log := s.log[wk.slot := s.log[wk.slot].(st := Aborted)])
      else
        Put(s, w, wk.(pc := Validate(k + 1), maxR := Max(wk.maxR, check)))
  }

  /** writePhase, lines 233-247. */
  function WriteTidStep(s: State, w: nat): State
    requires InRange(s, w) && s.ws[w].pc.WriteTid?
  {
    var wk := s.ws[w];
    var ctid := CommitTid(wk.maxW, wk.maxR, wk.last, wk.localEpoch);
    Put(s, w, wk.(pc := Wal, last := ctid))
    .(log := s.log[wk.slot := s.log[wk.slot].(st := Committed(ctid))])
  }

  /** writePhase, lines 252-263: copy one byte, or store the word, which also unlocks. */
  function InstallStep(s: State, w: nat): State
    requires InRange(s, w) && s.ws[w].pc.Install?
  {
    var wk := s.ws[w];
    var Install(k, b) := wk.pc;
    if k == |wk.writeSet| then Put(s, w, wk.(pc := Idle, readSet := [], writeSet := []))
    else
      var x := wk.writeSet[k];
      var t := s.table[x];
      if b < VAL_SIZE then
        SetTuple(At(s, w, Install(k, b + 1)), x, t.(val := t.val[b := s.wvals[w][b]]))
      else
        SetTuple(At(s, w, Install(k + 1, 0)), x, t.(word := wk.last, owner := -1, ver := wk.slot))
  }

  /** epochWork, line 301: store the epoch loaded before. */
  function EwStoreStep(s: State, w: nat): State
    requires InRange(s, w) && s.ws[w].pc.EwStore?
  {
    var wk := s.ws[w];
    Put(s, w, wk.(pc := Idle, localEpoch := wk.pc.epoch))
  }

  /** chkEpochLoaded, then atomicAddGE when every other worker was found at `now`. */
  function ScanStep(s: State, w: nat): State
    requires InRange(s, w) && s.ws[w].pc.Scan?
  {
    var Scan(now, i) := s.ws[w].pc;
    if i >= |s.ws| then At(s, w, Idle).(ge := s.ge + 1)
    else if s.ws[i].localEpoch != now then At(s, w, Idle)
    else At(s, w, Scan(now, i + 1))
  }

  predicate Enabled(s: State, w: nat, a: Action) {
    InRange(s, w) &&
    var wk := s.ws[w];
    match a
    case Begin => wk.pc.Idle?
    case Read(key) => wk.pc.Running? && key < |s.table| && !InReadSet(wk.readSet, key) && key !in wk.writeSet
    case Write(key) => wk.pc.Running? && key < |s.table| && key !in wk.writeSet && |wk.writeSet| < MAX_OPE
    case Commit => wk.pc.Running?
    case Next =>
      match wk.pc {
        case Idle => false
        case Running => false
        case Wal => false
        case Finished => false
        case Validate(_) => wk.slot < |s.log|
        case _ => true
      }
    case LogDone => wk.pc.Wal?
    case EpochWork => wk.pc.Idle?
    case LeaderWork => wk.pc.Idle? && w == 0
    case Quit => wk.pc.Idle?
  }

  function NextStep(s: State, w: nat): State
    requires Enabled(s, w, Next)
  {
    match s.ws[w].pc
    case ReadLoad(_) => ReadLoadStep(s, w)
    case ReadCopy(_, _, _, _) => ReadCopyStep(s, w)
    case LockLoad(_) => LockLoadStep(s, w)
    case LockTry(_, _) => LockTryStep(s, w)
    case UnlockLoad(_, _) => UnlockLoadStep(s, w)
    case UnlockStore(_, _, _) => UnlockStoreStep(s, w)
    case EpochLoad => EpochLoadStep(s, w)
    case EpochStore(_) => EpochStoreStep(s, w)
    case Validate(_) => ValidateStep(s, w)
    case WriteTid => WriteTidStep(s, w)
    case Install(_, _) => InstallStep(s, w)
    case EwStore(_) => EwStoreStep(s, w)
    case Scan(_, _) => ScanStep(s, w)
  }

  function Apply(s: State, w: nat, a: Action): State
    requires Enabled(s, w, a)
  {
    var wk := s.ws[w];
    match a
    case Begin => Put(s, w, wk.(pc := Running, maxR := ZERO_WORD, maxW := ZERO_WORD))
    case Read(key) => At(s, w, ReadLoad(key))
    case Write(key) => Put(s, w, wk.(writeSet := wk.writeSet + [key]))
    case Commit => Put(s, w, wk.(pc := LockLoad(0), writeSet := Sort(wk.writeSet)))
    case Next => NextStep(s, w)
    case LogDone => At(s, w, Install(0, 0))
    case EpochWork => At(s, w, EwStore(s.ge))
    case LeaderWork => At(s, w, Scan(s.ge, 1))
    case Quit => At(s, w, Finished)
  }

  // ---- Runs ---------------------------------------------------------------------------------

  datatype Label = Label(worker: nat, action: Action)

  /** The states that some interleaving of the workers can reach. */
  ghost predicate Reaches(s: State, trace: seq<Label>, s': State)
    decreases |trace|
  {
    if trace == [] then s' == s
    else
      var l := trace[0];
      Enabled(s, l.worker, l.action) && Reaches(Apply(s, l.worker, l.action), trace[1..], s')
  }

  /** How many transactions committed in an epoch. */
  function Commits(log: seq<Entry>, epoch: nat): nat {
    if log == [] then 0
    else Commits(log[..|log| - 1], epoch) +
         (if log[|log| - 1].st.Committed? && log[|log| - 1].epoch == epoch then 1 else 0)
  }

  /** The limits of the 32-bit epoch and the 29-bit TID have not been reached. */
  ghost predicate Bounded(s: State) {
    s.ge < EPOCH_LIMIT - 1 && forall e: nat :: Commits(s.log, e) < TID_LIMIT
  }
}
