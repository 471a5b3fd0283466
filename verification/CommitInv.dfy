/** The inductive invariant of the commit protocol. */
module CommitInv {
  import opened TidWords
  import opened CommitModel
  import opened CommitLog

  // ---- Phases of a transaction --------------------------------------------------------------

  /** Past the serial point and not settled. */
  predicate PendingPc(pc: Pc) {
    pc.EpochStore? || pc.Validate? || pc.WriteTid?
  }

  predicate InWindow(pc: Pc) {
    PendingPc(pc) || pc.Wal? || pc.Install?
  }

  predicate Locking(pc: Pc) {
    pc.LockLoad? || pc.LockTry? || pc.EpochLoad?
  }

  /** After the sort in validationPhase. */
  predicate Sorted(pc: Pc) {
    Locking(pc) || pc.UnlockLoad? || pc.UnlockStore? || InWindow(pc)
  }

  /** Outside any transaction. */
  predicate Outside(pc: Pc) {
    pc.Idle? || pc.EwStore? || pc.Scan? || pc.Finished?
  }

  /** The locked part of the write set is [Lo, Hi). */
  function Lo(pc: Pc): nat {
    if pc.UnlockLoad? || pc.UnlockStore? || pc.Install? then pc.k else 0
  }

  function Hi(pc: Pc, n: nat): nat {
    if pc.LockLoad? || pc.LockTry? then pc.k
    else if pc.UnlockLoad? || pc.UnlockStore? then pc.end
    else if pc.EpochLoad? || InWindow(pc) then n
    else 0
  }

  predicate Holds(wk: Worker, x: nat) {
    exists i :: Lo(wk.pc) <= i < Hi(wk.pc, |wk.writeSet|) && i < |wk.writeSet| && wk.writeSet[i] == x
  }

  ghost predicate Ascending(ks: seq<nat>) {
    forall i, j :: 0 <= i < j < |ks| ==> ks[i] < ks[j]
  }

  ghost predicate Distinct(ks: seq<nat>) {
    forall i, j :: 0 <= i < j < |ks| ==> ks[i] != ks[j]
  }

  // ---- The invariant ------------------------------------------------------------------------

  ghost predicate Shape(s: State) {
    && |s.ws| == |s.wvals| && |s.table| == |s.init|
    && (forall x :: 0 <= x < |s.init| ==> |s.init[x]| == VAL_SIZE)
    && (forall w :: 0 <= w < |s.wvals| ==> |s.wvals[w]| == VAL_SIZE)
    && s.ge >= 1
    && (forall j :: 0 <= j < |s.log| ==> s.log[j].epoch <= s.ge)
  }

  /** Tuple x: its word is that of its version plus the lock bit, the bit is set exactly while somebody
      holds the lock, and whatever is unlocked shows the last version in full. */
  ghost predicate KeyOk(s: State, x: nat)
    requires Shape(s) && x < |s.table|
  {
    var t := s.table[x];
    && |t.val| == VAL_SIZE
    && -1 <= t.owner < |s.ws|
    && IsVersion(s.log, x, t.ver)
    && t.word == VersionWord(s.log, t.ver).(lock := t.owner >= 0)
    && (t.owner < 0 ==> t.val == VersionVal(s.init, s.log, x, t.ver) && LastWriter(s.log, |s.log|, x) == t.ver)
    && (t.owner >= 0 ==> Holds(s.ws[t.owner], x))
  }

  /** The element i of the write set that worker w has locked. */
  ghost predicate HeldOk(s: State, w: nat, i: nat)
    requires Shape(s) && w < |s.ws| && i < |s.ws[w].writeSet| && s.ws[w].writeSet[i] < |s.table|
    requires InWindow(s.ws[w].pc) ==> s.ws[w].slot <= |s.log|
  {
    var wk := s.ws[w];
    var x := wk.writeSet[i];
    var t := s.table[x];
    && t.owner == w
    && LastWriter(s.log, |s.log|, x) == (if InWindow(wk.pc) then wk.slot else t.ver)
    && (InWindow(wk.pc) ==> LastWriter(s.log, wk.slot, x) == t.ver)
    && (if wk.pc.Install? && wk.pc.k == i
        then |t.val| == VAL_SIZE && wk.pc.b <= VAL_SIZE && forall c :: 0 <= c < wk.pc.b ==> t.val[c] == s.wvals[w][c]
        else t.val == VersionVal(s.init, s.log, x, t.ver))
    && (Locking(wk.pc) || PendingPc(wk.pc) ==> !Before(wk.maxW, t.word))
  }

  ghost predicate ReadOk(s: State, r: ReadElement)
    requires Shape(s)
  {
    && r.key < |s.table|
    && IsVersion(s.log, r.key, r.ver) && r.ver <= s.table[r.key].ver
    && SameVersion(r.word, VersionWord(s.log, r.ver))
    && r.val == VersionVal(s.init, s.log, r.key, r.ver)
  }

  predicate Installing(s: State, w: int, x: nat) {
    0 <= w < |s.ws| && x < |s.table| && s.table[x].owner == w && s.ws[w].pc.Install?
  }

  /** A read in progress: either it has seen whole bytes of the version it expects, or the version has
      moved on, or whoever is about to move it on holds the lock. */
  ghost predicate CopyOk(s: State, key: nat, expected: TidWord, buf: Value, ver: int)
    requires Shape(s)
  {
    && key < |s.table| && |buf| <= VAL_SIZE
    && var t := s.table[key];
    && IsVersion(s.log, key, ver) && ver <= t.ver
    && expected == VersionWord(s.log, ver)
    && (t.ver == ver ==> buf <= VersionVal(s.init, s.log, key, ver) || Installing(s, t.owner, key))
  }

  ghost predicate WordOk(s: State, v: TidWord) {
    v.Valid() && v.epoch <= s.ge && v.tid <= Commits(s.log, v.epoch)
  }

  ghost predicate ReadDone(s: State, w: nat, i: nat)
    requires w < |s.ws| && i < |s.ws[w].readSet| && s.ws[w].slot <= |s.log|
  {
    var wk := s.ws[w];
    var r := wk.readSet[i];
    r.ver == LastWriter(s.log, wk.slot, r.key) && !Before(wk.maxR, r.word)
  }

  /** The transaction being committed and its log entry. */
  ghost predicate SlotOk(s: State, w: nat)
    requires Shape(s) && w < |s.ws|
  {
    var wk := s.ws[w];
    && wk.slot < |s.log|
    && var e := s.log[wk.slot];
    && e.worker == w && e.rset == wk.readSet && e.wset == wk.writeSet && e.val == s.wvals[w]
    && (forall j :: wk.slot < j < |s.log| ==> s.log[j].worker != w)
    && e.st == (if PendingPc(wk.pc) then Pending else Committed(wk.last))
    && (if wk.pc.EpochStore? then wk.pc.epoch == e.epoch else wk.localEpoch == e.epoch)
    && wk.maxW.epoch <= e.epoch && wk.maxR.epoch <= e.epoch && wk.last.epoch <= e.epoch
    && (forall i :: 0 <= i < |wk.readSet| ==> wk.readSet[i].ver < wk.slot)
    && (wk.pc.Validate? ==> wk.pc.k <= |wk.readSet| && forall i :: 0 <= i < wk.pc.k ==> ReadDone(s, w, i))
    && (wk.pc.WriteTid? ==> forall i :: 0 <= i < |wk.readSet| ==> ReadDone(s, w, i))
  }

  ghost predicate SetsOk(s: State, w: nat)
    requires Shape(s) && w < |s.ws|
  {
    var wk := s.ws[w];
    && (forall i :: 0 <= i < |wk.writeSet| ==> wk.writeSet[i] < |s.table|)
    && |wk.writeSet| <= MAX_OPE
    && Distinct(wk.writeSet)
    && (Sorted(wk.pc) ==> Ascending(wk.writeSet))
    && (forall i :: 0 <= i < |wk.readSet| ==> ReadOk(s, wk.readSet[i]))
    && (Outside(wk.pc) ==> wk.readSet == [] && wk.writeSet == [])
  }

  ghost predicate PcOk(s: State, w: nat)
    requires Shape(s) && w < |s.ws|
  {
    var wk := s.ws[w];
    var n := |wk.writeSet|;
    match wk.pc
    case ReadLoad(key) => key < |s.table|
    case ReadCopy(key, expected, buf, ver) => CopyOk(s, key, expected, buf, ver)
    case LockLoad(k) => k <= n
    case LockTry(k, _) => k < n
    case UnlockLoad(k, end) => k <= end <= n
    case UnlockStore(k, end, expected) =>
      k < end <= n && wk.writeSet[k] < |s.table| && expected == s.table[wk.writeSet[k]].word
    case Install(k, b) => k <= n && b <= VAL_SIZE
    case Scan(_, _) => w == 0
    case _ => true
  }

  ghost predicate WorkerOk(s: State, w: nat)
    requires Shape(s) && w < |s.ws|
  {
    var wk := s.ws[w];
    && SetsOk(s, w) && PcOk(s, w)
    && WordOk(s, wk.maxR) && WordOk(s, wk.maxW) && WordOk(s, wk.last)
    && (InWindow(wk.pc) ==> SlotOk(s, w))
    && (forall i :: Lo(wk.pc) <= i < Hi(wk.pc, |wk.writeSet|) ==> HeldOk(s, w, i))
  }

  /** A pending entry belongs to a worker that is still validating it. */
  ghost predicate PendingOk(s: State, j: nat)
    requires j < |s.log|
  {
    var e := s.log[j];
    && e.worker < |s.ws|
    && (e.st.Pending? ==> PendingPc(s.ws[e.worker].pc) && s.ws[e.worker].slot == j)
  }

  /** A worker's commit TIDs increase. */
  ghost predicate TidsOk(s: State, j: nat)
    requires j < |s.log|
  {
    var e := s.log[j];
    e.st.Committed? && e.worker < |s.ws| ==>
      && !Before(s.ws[e.worker].last, e.st.ctid)
      && (forall i :: 0 <= i < j && s.log[i].worker == e.worker && s.log[i].st.Committed? ==>
            Before(s.log[i].st.ctid, e.st.ctid))
  }

  ghost predicate Inv(s: State) {
    && Shape(s)
    && LogOk(s.init, s.log)
    && (forall x :: 0 <= x < |s.table| ==> KeyOk(s, x))
    && (forall w :: 0 <= w < |s.ws| ==> WorkerOk(s, w))
    && (forall j :: 0 <= j < |s.log| ==> PendingOk(s, j) && TidsOk(s, j))
  }

  // ---- What a step of one worker may do to the others ---------------------------------------

  ghost predicate TupleEvolves(s: State, s': State, w: nat, x: nat)
    requires x < |s.table| && x < |s'.table|
  {
    var t, t' := s.table[x], s'.table[x];
    && (t.owner >= 0 && t.owner != w ==> t' == t)
    && t.ver <= t'.ver
    && (t'.ver == t.ver ==> t'.val == t.val || Installing(s', w, x))
    && (Installing(s, w, x) ==> t'.ver > t.ver || Installing(s', w, x))
  }

  /** New entries write only what w has locked. */
  ghost predicate AppendsLocked(s: State, s': State, w: nat) {
    forall j, x :: |s.log| <= j < |s'.log| && x in s'.log[j].wset && x < |s.table| ==> s.table[x].owner == w
  }

  ghost predicate Evolves(s: State, s': State, w: nat) {
    && w < |s.ws|
    && s'.init == s.init && s'.wvals == s.wvals && |s'.ws| == |s.ws| && |s'.table| == |s.table|
    && s.ge <= s'.ge
    && (forall v :: 0 <= v < |s.ws| && v != w ==> s'.ws[v] == s.ws[v])
    && LogEvolves(s.log, s'.log, w)
    && AppendsLocked(s, s', w)
    && (forall x :: 0 <= x < |s.table| ==> TupleEvolves(s, s', w, x))
  }

  lemma {:induction false} LastWriterExtends(log: seq<Entry>, log': seq<Entry>, w: nat, i: nat, x: nat)
    requires LogEvolves(log, log', w) && |log| <= i <= |log'|
    requires forall j :: |log| <= j < i ==> x !in log'[j].wset
    ensures LastWriter(log', i, x) == LastWriter(log', |log|, x)
    decreases i
  {
    if i > |log| { LastWriterExtends(log, log', w, i - 1, x); }
  }

  /** The last writer of a key that w does not hold: unchanged. */
  lemma LastWriterStable(s: State, s': State, w: nat, x: nat)
    requires Inv(s) && Shape(s') && Evolves(s, s', w) && x < |s.table| && s.table[x].owner != w
    ensures LastWriter(s'.log, |s'.log|, x) == LastWriter(s.log, |s.log|, x)
  {
    var t := s.table[x];
    assert KeyOk(s, x);
    LastWriterExtends(s.log, s'.log, w, |s'.log|, x);
    if t.owner < 0 {
      LogKeepsLastWriter(s.log, s'.log, w, |s.log|, x);
    } else {
      var v := t.owner;
      assert WorkerOk(s, v);
      var i :| Lo(s.ws[v].pc) <= i < Hi(s.ws[v].pc, |s.ws[v].writeSet|) &&
               i < |s.ws[v].writeSet| && s.ws[v].writeSet[i] == x;
      assert HeldOk(s, v, i);
      if InWindow(s.ws[v].pc) {
        LastWriterKeptAtOther(s.log, s'.log, w, |s.log|, x);
      } else {
        LogKeepsLastWriter(s.log, s'.log, w, |s.log|, x);
      }
    }
  }

  /** The entry of another worker stays the last writer too. */
  lemma {:induction false} LastWriterKeptAtOther(log: seq<Entry>, log': seq<Entry>, w: nat, i: nat, x: nat)
    requires LogEvolves(log, log', w) && i <= |log| && LastWriter(log, i, x) >= 0
    requires log[LastWriter(log, i, x)].worker != w
    ensures LastWriter(log', i, x) == LastWriter(log, i, x)
  {
    if i > 0 {
      assert Settles(log[i - 1], log'[i - 1], w);
      if LastWriter(log, i, x) != i - 1 { LastWriterKeptAtOther(log, log', w, i - 1, x); }
    }
  }

  lemma WordKept(s: State, s': State, w: nat, v: TidWord)
    requires Evolves(s, s', w) && WordOk(s, v)
    ensures WordOk(s', v)
  {
    CommitsMonotone(s.log, s'.log, w, v.epoch);
  }

  lemma ReadKept(s: State, s': State, w: nat, r: ReadElement)
    requires Inv(s) && Shape(s') && Evolves(s, s', w) && ReadOk(s, r)
    ensures ReadOk(s', r)
  {
    LogKeepsVersions(s.init, s.log, s'.log, w, r.key, r.ver);
    assert TupleEvolves(s, s', w, r.key);
  }

  lemma CopyKept(s: State, s': State, w: nat, v: nat, key: nat, expected: TidWord, buf: Value, ver: int)
    requires Inv(s) && Shape(s') && Evolves(s, s', w) && v < |s.ws| && v != w
    requires CopyOk(s, key, expected, buf, ver)
    ensures CopyOk(s', key, expected, buf, ver)
  {
    LogKeepsVersions(s.init, s.log, s'.log, w, key, ver);
    assert TupleEvolves(s, s', w, key);
    var t, t' := s.table[key], s'.table[key];
    assert KeyOk(s, key);
    if t'.ver == ver && Installing(s, t.owner, key) && t.owner != w {
      assert t' == t && s'.ws[t.owner] == s.ws[t.owner];
    }
  }

  lemma HeldKept(s: State, s': State, w: nat, v: nat, i: nat)
    requires Inv(s) && Shape(s') && Evolves(s, s', w) && v < |s.ws| && v != w
    requires Lo(s.ws[v].pc) <= i < Hi(s.ws[v].pc, |s.ws[v].writeSet|)
    requires WorkerOk(s, v)
    ensures HeldOk(s', v, i)
  {
    var wk := s.ws[v];
    var x := wk.writeSet[i];
    assert HeldOk(s, v, i) && KeyOk(s, x);
    assert TupleEvolves(s, s', w, x);
    LastWriterStable(s, s', w, x);
    var t := s.table[x];
    LogKeepsVersions(s.init, s.log, s'.log, w, x, t.ver);
    if InWindow(wk.pc) {
      LogKeepsLastWriter(s.log, s'.log, w, wk.slot, x);
    }
  }

  lemma SlotKept(s: State, s': State, w: nat, v: nat)
    requires Inv(s) && Shape(s') && Evolves(s, s', w) && v < |s.ws| && v != w
    requires InWindow(s.ws[v].pc) && WorkerOk(s, v)
    ensures SlotOk(s', v)
  {
    var wk := s.ws[v];
    assert Settles(s.log[wk.slot], s'.log[wk.slot], w);
    forall j | wk.slot < j < |s'.log| ensures s'.log[j].worker != v {
      if j < |s.log| { assert Settles(s.log[j], s'.log[j], w); }
    }
    forall i | 0 <= i < |wk.readSet| && ReadDone(s, v, i) ensures ReadDone(s', v, i) {
      var r := wk.readSet[i];
      assert ReadOk(s, r);
      LogKeepsLastWriter(s.log, s'.log, w, wk.slot, r.key);
    }
  }

  lemma PcKept(s: State, s': State, w: nat, v: nat)
    requires Inv(s) && Shape(s') && Evolves(s, s', w) && v < |s.ws| && v != w && WorkerOk(s, v)
    ensures PcOk(s', v)
  {
    match s.ws[v].pc {
      case ReadCopy(key, expected, buf, ver) => CopyKept(s, s', w, v, key, expected, buf, ver);
      case UnlockStore(k, end, _) =>
        assert HeldOk(s, v, k);
        assert TupleEvolves(s, s', w, s.ws[v].writeSet[k]);
      case _ =>
    }
  }

  lemma OtherWorkerKept(s: State, s': State, w: nat, v: nat)
    requires Inv(s) && Shape(s') && Evolves(s, s', w) && v < |s.ws| && v != w
    ensures WorkerOk(s', v)
  {
    var wk := s.ws[v];
    assert WorkerOk(s, v) && s'.ws[v] == wk;
    WordKept(s, s', w, wk.maxR);
    WordKept(s, s', w, wk.maxW);
    WordKept(s, s', w, wk.last);
    assert SetsOk(s', v) by {
      forall i | 0 <= i < |wk.readSet| ensures ReadOk(s', wk.readSet[i]) {
        ReadKept(s, s', w, wk.readSet[i]);
      }
    }
    PcKept(s, s', w, v);
    if InWindow(wk.pc) { SlotKept(s, s', w, v); }
    forall i | Lo(wk.pc) <= i < Hi(wk.pc, |wk.writeSet|) ensures HeldOk(s', v, i) {
      HeldKept(s, s', w, v, i);
    }
  }

  lemma OtherKeyKept(s: State, s': State, w: nat, x: nat)
    requires Inv(s) && Shape(s') && Evolves(s, s', w) && x < |s.table|
    requires s.table[x].owner != w && s'.table[x] == s.table[x]
    ensures KeyOk(s', x)
  {
    assert KeyOk(s, x);
    LogKeepsVersions(s.init, s.log, s'.log, w, x, s.table[x].ver);
    LastWriterStable(s, s', w, x);
  }

  /** An entry that did not change stays in order whatever w did to its own. */
  lemma EntryKept(init: seq<Value>, log: seq<Entry>, log': seq<Entry>, w: nat, j: nat)
    requires LogOk(init, log) && LogEvolves(log, log', w) && j < |log| && log'[j] == log[j]
    ensures EntryOk(init, log', j)
  {
    var e := log[j];
    assert EntryOk(init, log, j);
    forall i | 0 <= i < j ensures log'[i].epoch <= e.epoch {
      assert Settles(log[i], log'[i], w);
    }
    if Live(e) {
      forall x | x in e.wset ensures WriteSerial(log', j, x) {
        assert WriteSerial(log, j, x);
        LogKeepsLastWriter(log, log', w, j, x);
        LogKeepsVersions(init, log, log', w, x, LastWriter(log, j, x));
      }
    }
    if e.st.Committed? {
      CommitsMonotone(log, log', w, e.epoch);
      forall i | 0 <= i < |e.rset| ensures ReadSerial(init, log', j, e.rset[i]) {
        var r := e.rset[i];
        assert ReadSerial(init, log, j, r);
        LogKeepsLastWriter(log, log', w, j, r.key);
        LogKeepsVersions(init, log, log', w, r.key, r.ver);
      }
    }
  }

  /** Pending and TID order for the entries that w did not touch. */
  lemma OtherEntriesKept(s: State, s': State, w: nat, j: nat)
    requires Inv(s) && Shape(s') && Evolves(s, s', w) && j < |s.log| && s.log[j].worker != w
    ensures PendingOk(s', j) && TidsOk(s', j)
  {
    assert PendingOk(s, j) && TidsOk(s, j);
    assert Settles(s.log[j], s'.log[j], w);
    forall i | 0 <= i < j && s'.log[i].worker == s.log[j].worker ensures s'.log[i] == s.log[i] {
      assert Settles(s.log[i], s'.log[i], w);
    }
  }

  // ---- Assembling the invariant after a step ------------------------------------------------

  /** What remains to be shown about the worker that stepped. */
  ghost predicate OwnPart(s: State, s': State, w: nat)
    requires Evolves(s, s', w) && Shape(s')
  {
    && LogOk(s'.init, s'.log)
    && WorkerOk(s', w)
    && (forall x :: 0 <= x < |s.table| && (s.table[x].owner == w || s'.table[x] != s.table[x]) ==> KeyOk(s', x))
    && (forall j :: 0 <= j < |s'.log| && s'.log[j].worker == w ==> PendingOk(s', j) && TidsOk(s', j))
  }

  lemma Assemble(s: State, s': State, w: nat)
    requires Inv(s) && Shape(s') && Evolves(s, s', w) && OwnPart(s, s', w)
    ensures Inv(s')
  {
    forall x | 0 <= x < |s'.table| ensures KeyOk(s', x) {
      if s.table[x].owner != w && s'.table[x] == s.table[x] { OtherKeyKept(s, s', w, x); }
    }
    forall v | 0 <= v < |s'.ws| ensures WorkerOk(s', v) {
      if v != w { OtherWorkerKept(s, s', w, v); }
    }
    forall j | 0 <= j < |s'.log| ensures PendingOk(s', j) && TidsOk(s', j) {
      if s'.log[j].worker != w {
        assert j < |s.log|;
        assert Settles(s.log[j], s'.log[j], w);
        OtherEntriesKept(s, s', w, j);
      }
    }
  }
}
