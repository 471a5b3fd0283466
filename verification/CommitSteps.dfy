/** Every step of the commit protocol keeps the invariant. */
module CommitSteps {
  import opened TidWords
  import opened CommitModel
  import opened CommitLog
  import opened CommitInv

  // ---- sort ---------------------------------------------------------------------------------

  lemma {:induction false} InsertAscending(x: nat, ks: seq<nat>)
    requires Ascending(ks) && x !in ks
    ensures Ascending(Insert(x, ks)) && |Insert(x, ks)| == |ks| + 1
    ensures forall y :: y in Insert(x, ks) <==> y == x || y in ks
  {
    if ks != [] && x > ks[0] {
      InsertAscending(x, ks[1..]);
      var r := Insert(x, ks[1..]);
      assert forall i :: 0 <= i < |r| ==> r[i] in r;
      assert forall y :: y in ks <==> y == ks[0] || y in ks[1..];
    }
  }

  /** sort(write_set_) on distinct keys: the same keys in strictly ascending order. */
  lemma {:induction false} SortAscending(ks: seq<nat>)
    requires Distinct(ks)
    ensures Ascending(Sort(ks)) && |Sort(ks)| == |ks|
    ensures forall y :: y in Sort(ks) <==> y in ks
  {
    if ks != [] {
      SortAscending(ks[1..]);
      InsertAscending(ks[0], Sort(ks[1..]));
      assert forall y :: y in ks <==> y == ks[0] || y in ks[1..];
    }
  }

  // ---- Steps that change nothing but the worker itself and the clock ------------------------

  /** The state after worker w changed itself and the clock moved to ge. */
  function Moved(s: State, w: nat, wk: Worker, ge: nat): State
    requires w < |s.ws|
  {
    Put(s, w, wk).(ge := ge)
  }

  lemma LocalEvolves(s: State, w: nat, wk': Worker, ge': nat)
    requires Inv(s) && w < |s.ws| && s.ge <= ge'
    requires forall x :: Holds(wk', x) <==> Holds(s.ws[w], x)
    requires s.ws[w].pc.Install? ==> wk'.pc.Install? || wk'.writeSet == []
    ensures Shape(Moved(s, w, wk', ge')) && Evolves(s, Moved(s, w, wk', ge'), w)
  {
    var s' := Moved(s, w, wk', ge');
    forall x | 0 <= x < |s.table| ensures TupleEvolves(s, s', w, x) {
      if Installing(s, w, x) {
        assert KeyOk(s, x);
        assert Holds(wk', x);
      }
    }
  }

  lemma LocalStep(s: State, w: nat, wk': Worker, ge': nat)
    requires Inv(s) && w < |s.ws| && s.ge <= ge'
    requires forall x :: Holds(wk', x) <==> Holds(s.ws[w], x)
    requires s.ws[w].pc.Install? ==> wk'.pc.Install? || wk'.writeSet == []
    requires PendingPc(wk'.pc) == PendingPc(s.ws[w].pc)
    requires wk'.slot == s.ws[w].slot && wk'.last == s.ws[w].last
    requires var s' := Moved(s, w, wk', ge'); Shape(s') && WorkerOk(s', w)
    ensures Inv(Moved(s, w, wk', ge'))
  {
    var s' := Moved(s, w, wk', ge');
    LocalEvolves(s, w, wk', ge');
    forall x | 0 <= x < |s.table| && s.table[x].owner == w ensures KeyOk(s', x) {
      assert KeyOk(s, x);
    }
    OwnEntriesSame(s, s', w);
    Assemble(s, s', w);
  }

  /** The entries of w when neither the log nor `last` changed. */
  lemma OwnEntriesSame(s: State, s': State, w: nat)
    requires Inv(s) && w < |s.ws| == |s'.ws| && s'.log == s.log
    requires s'.ws[w].last == s.ws[w].last && s'.ws[w].slot == s.ws[w].slot
    requires PendingPc(s'.ws[w].pc) == PendingPc(s.ws[w].pc)
    ensures forall j :: 0 <= j < |s'.log| && s'.log[j].worker == w ==> PendingOk(s', j) && TidsOk(s', j)
  {
    forall j | 0 <= j < |s'.log| && s'.log[j].worker == w ensures PendingOk(s', j) && TidsOk(s', j) {
      assert PendingOk(s, j) && TidsOk(s, j);
    }
  }

  /** The sets of w when it did not change them. */
  lemma OwnSets(s: State, s': State, w: nat)
    requires Inv(s) && Shape(s') && Evolves(s, s', w)
    requires s'.ws[w].readSet == s.ws[w].readSet && s'.ws[w].writeSet == s.ws[w].writeSet
    requires Sorted(s'.ws[w].pc) ==> Sorted(s.ws[w].pc)
    requires Outside(s'.ws[w].pc) ==> Outside(s.ws[w].pc)
    ensures SetsOk(s', w)
  {
    var rs := s.ws[w].readSet;
    assert WorkerOk(s, w);
    forall i | 0 <= i < |rs| ensures ReadOk(s', rs[i]) {
      ReadKept(s, s', w, rs[i]);
    }
  }

  /** A step within the read phase or outside transactions: nothing is locked, nothing is in the log. */
  lemma UnlockedStep(s: State, w: nat, wk': Worker, ge': nat)
    requires Inv(s) && w < |s.ws| && s.ge <= ge'
    requires !Sorted(s.ws[w].pc) && !Sorted(wk'.pc)
    requires wk'.slot == s.ws[w].slot && wk'.last == s.ws[w].last
    requires var s' := Moved(s, w, wk', ge');
             Shape(s') && SetsOk(s', w) && PcOk(s', w) && WordOk(s', wk'.maxR) && WordOk(s', wk'.maxW)
    ensures Inv(Moved(s, w, wk', ge'))
  {
    var s' := Moved(s, w, wk', ge');
    assert WorkerOk(s, w);
    assert WordOk(s', wk'.last);
    LocalStep(s, w, wk', ge');
  }

  lemma IdleSteps(s: State, w: nat, wk': Worker)
    requires Inv(s) && w < |s.ws| && s.ws[w].pc.Idle?
    requires wk'.pc.EwStore? || wk'.pc.Finished? || (wk'.pc.Scan? && w == 0)
    requires wk' == s.ws[w].(pc := wk'.pc)
    ensures Inv(Put(s, w, wk'))
  {
    assert WorkerOk(s, w);
    LocalEvolves(s, w, wk', s.ge);
    OwnSets(s, Moved(s, w, wk', s.ge), w);
    UnlockedStep(s, w, wk', s.ge);
  }

  lemma BeginStep(s: State, w: nat)
    requires Inv(s) && w < |s.ws| && s.ws[w].pc.Idle?
    ensures Inv(Put(s, w, s.ws[w].(pc := Running, maxR := ZERO_WORD, maxW := ZERO_WORD)))
  {
    var wk' := s.ws[w].(pc := Running, maxR := ZERO_WORD, maxW := ZERO_WORD);
    var s' := Moved(s, w, wk', s.ge);
    assert WorkerOk(s, w);
    LocalEvolves(s, w, wk', s.ge);
    OwnSets(s, s', w);
    assert WordOk(s', ZERO_WORD);
    UnlockedStep(s, w, wk', s.ge);
  }

  lemma ReadStep(s: State, w: nat, key: nat)
    requires Inv(s) && w < |s.ws| && s.ws[w].pc.Running? && key < |s.table|
    ensures Inv(At(s, w, ReadLoad(key)))
  {
    var wk' := s.ws[w].(pc := ReadLoad(key));
    assert WorkerOk(s, w);
    LocalEvolves(s, w, wk', s.ge);
    OwnSets(s, Moved(s, w, wk', s.ge), w);
    UnlockedStep(s, w, wk', s.ge);
  }

  lemma WriteStep(s: State, w: nat, key: nat)
    requires Inv(s) && w < |s.ws| && s.ws[w].pc.Running? && key < |s.table|
    requires key !in s.ws[w].writeSet && |s.ws[w].writeSet| < MAX_OPE
    ensures Inv(Put(s, w, s.ws[w].(writeSet := s.ws[w].writeSet + [key])))
  {
    var wk' := s.ws[w].(writeSet := s.ws[w].writeSet + [key]);
    var s' := Moved(s, w, wk', s.ge);
    assert WorkerOk(s, w) && SetsOk(s, w);
    LocalEvolves(s, w, wk', s.ge);
    assert SetsOk(s', w) by {
      forall i | 0 <= i < |wk'.readSet| ensures ReadOk(s', wk'.readSet[i]) {
        ReadKept(s, s', w, wk'.readSet[i]);
      }
    }
    UnlockedStep(s, w, wk', s.ge);
  }

  lemma CommitStep(s: State, w: nat)
    requires Inv(s) && w < |s.ws| && s.ws[w].pc.Running?
    ensures Inv(Put(s, w, s.ws[w].(pc := LockLoad(0), writeSet := Sort(s.ws[w].writeSet))))
  {
    var ks := s.ws[w].writeSet;
    var wk' := s.ws[w].(pc := LockLoad(0), writeSet := Sort(ks));
    var s' := Moved(s, w, wk', s.ge);
    assert WorkerOk(s, w) && SetsOk(s, w);
    SortAscending(ks);
    LocalEvolves(s, w, wk', s.ge);
    assert SetsOk(s', w) by {
      assert forall i :: 0 <= i < |wk'.writeSet| ==> wk'.writeSet[i] in ks;
      forall i | 0 <= i < |wk'.readSet| ensures ReadOk(s', wk'.readSet[i]) {
        ReadKept(s, s', w, wk'.readSet[i]);
      }
    }
    assert WordOk(s', wk'.maxR) && WordOk(s', wk'.maxW) && WordOk(s', wk'.last);
    LocalStep(s, w, wk', s.ge);
  }

  lemma EwStoreSteps(s: State, w: nat)
    requires Inv(s) && InRange(s, w) && s.ws[w].pc.EwStore?
    ensures Inv(EwStoreStep(s, w))
  {
    var wk' := EwStoreStep(s, w).ws[w];
    assert WorkerOk(s, w);
    LocalEvolves(s, w, wk', s.ge);
    OwnSets(s, Moved(s, w, wk', s.ge), w);
    UnlockedStep(s, w, wk', s.ge);
  }

  lemma ScanSteps(s: State, w: nat)
    requires Inv(s) && InRange(s, w) && s.ws[w].pc.Scan?
    ensures Inv(ScanStep(s, w))
  {
    var s' := ScanStep(s, w);
    var wk' := s'.ws[w];
    assert WorkerOk(s, w);
    LocalEvolves(s, w, wk', s'.ge);
    OwnSets(s, Moved(s, w, wk', s'.ge), w);
    UnlockedStep(s, w, wk', s'.ge);
  }

  // ---- Local steps while locks are held -----------------------------------------------------

  /** What w holds stays in order when neither table nor log changed. */
  lemma HeldLocal(s: State, w: nat, wk': Worker, i: nat)
    requires Inv(s) && w < |s.ws| && i < |s.ws[w].writeSet| && s.ws[w].writeSet[i] < |s.table|
    requires Lo(s.ws[w].pc) <= i < Hi(s.ws[w].pc, |s.ws[w].writeSet|)
    requires wk'.writeSet == s.ws[w].writeSet && wk'.slot == s.ws[w].slot && wk'.maxW == s.ws[w].maxW
    requires InWindow(wk'.pc) == InWindow(s.ws[w].pc) && (InWindow(wk'.pc) ==> wk'.slot <= |s.log|)
    requires HeldOk(s, w, i)
    requires !s.ws[w].pc.Install? && (wk'.pc.Install? ==> wk'.pc.b == 0)
    requires Locking(wk'.pc) || PendingPc(wk'.pc) ==> Locking(s.ws[w].pc) || PendingPc(s.ws[w].pc)
    ensures Shape(Moved(s, w, wk', s.ge)) && HeldOk(Moved(s, w, wk', s.ge), w, i)
  {
    assert KeyOk(s, wk'.writeSet[i]);
    var ver := s.table[wk'.writeSet[i]].ver;
    if ver >= 0 { assert EntryOk(s.init, s.log, ver); }
  }

  /** A step that keeps the sets, the locks and the words of w. */
  lemma LockedStep(s: State, w: nat, wk': Worker)
    requires Inv(s) && w < |s.ws| && !s.ws[w].pc.Install?
    requires wk' == s.ws[w].(pc := wk'.pc, localEpoch := wk'.localEpoch, maxR := wk'.maxR)
    requires Sorted(s.ws[w].pc) && Sorted(wk'.pc)
    requires Lo(wk'.pc) == Lo(s.ws[w].pc) && Hi(wk'.pc, |wk'.writeSet|) == Hi(s.ws[w].pc, |wk'.writeSet|)
    requires InWindow(wk'.pc) == InWindow(s.ws[w].pc) && PendingPc(wk'.pc) == PendingPc(s.ws[w].pc)
    requires wk'.pc.Install? ==> wk'.pc.b == 0
    requires Locking(wk'.pc) ==> Locking(s.ws[w].pc)
    requires WordOk(s, wk'.maxR)
    requires var s' := Moved(s, w, wk', s.ge);
             Shape(s') && PcOk(s', w) && (InWindow(wk'.pc) ==> SlotOk(s', w))
    ensures Inv(Moved(s, w, wk', s.ge))
  {
    var s' := Moved(s, w, wk', s.ge);
    assert WorkerOk(s, w);
    LocalEvolves(s, w, wk', s.ge);
    OwnSets(s, s', w);
    assert WordOk(s', wk'.maxR) && WordOk(s', wk'.maxW) && WordOk(s', wk'.last);
    forall i | Lo(wk'.pc) <= i < Hi(wk'.pc, |wk'.writeSet|) ensures HeldOk(s', w, i) {
      assert HeldOk(s, w, i);
      HeldLocal(s, w, wk', i);
    }
    LocalStep(s, w, wk', s.ge);
  }

  lemma LogDoneStep(s: State, w: nat)
    requires Inv(s) && w < |s.ws| && s.ws[w].pc.Wal?
    ensures Inv(At(s, w, Install(0, 0)))
  {
    assert WorkerOk(s, w) && SlotOk(s, w);
    LockedStep(s, w, s.ws[w].(pc := Install(0, 0)));
  }

  lemma EpochStoreSteps(s: State, w: nat)
    requires Inv(s) && InRange(s, w) && s.ws[w].pc.EpochStore?
    ensures Inv(EpochStoreStep(s, w))
  {
    assert WorkerOk(s, w) && SlotOk(s, w);
    LockedStep(s, w, EpochStoreStep(s, w).ws[w]);
  }

  lemma LockLoadSteps(s: State, w: nat)
    requires Inv(s) && InRange(s, w) && s.ws[w].pc.LockLoad?
    ensures Inv(LockLoadStep(s, w))
  {
    assert WorkerOk(s, w);
    LockedStep(s, w, LockLoadStep(s, w).ws[w]);
  }

  lemma UnlockLoadSteps(s: State, w: nat)
    requires Inv(s) && InRange(s, w) && s.ws[w].pc.UnlockLoad?
    ensures Inv(UnlockLoadStep(s, w))
  {
    var wk := s.ws[w];
    var UnlockLoad(k, end) := wk.pc;
    var wk' := UnlockLoadStep(s, w).ws[w];
    assert WorkerOk(s, w);
    if k == end {
      var s' := Moved(s, w, wk', s.ge);
      assert SetsOk(s', w);
      assert WordOk(s', wk'.maxR) && WordOk(s', wk'.maxW) && WordOk(s', wk'.last);
      LocalStep(s, w, wk', s.ge);
    } else {
      LockedStep(s, w, wk');
    }
  }

  // ---- read ---------------------------------------------------------------------------------

  lemma ReadLoadedSteps(s: State, w: nat, key: nat)
    requires Inv(s) && w < |s.ws| && key < |s.table|
    requires s.ws[w].pc.ReadLoad? || s.ws[w].pc.ReadCopy?
    ensures Inv(ReadLoaded(s, w, key, s.table[key]))
  {
    assert WorkerOk(s, w);
    var t := s.table[key];
    var wk' := ReadLoaded(s, w, key, t).ws[w];
    var s' := Moved(s, w, wk', s.ge);
    LocalEvolves(s, w, wk', s.ge);
    OwnSets(s, s', w);
    if !t.word.lock { CopyStarts(s, s', key); }
    UnlockedStep(s, w, wk', s.ge);
  }

  lemma CopyStarts(s: State, s': State, key: nat)
    requires Inv(s) && key < |s.table| && !s.table[key].word.lock
    requires Shape(s') && s'.init == s.init && s'.table == s.table && s'.log == s.log
    ensures CopyOk(s', key, s.table[key].word, [], s.table[key].ver)
  {
    assert KeyOk(s, key);
    VersionWordOk(s.init, s.log, s.table[key].ver);
  }

  /** The core of torn-read freedom: a copy whose word has not moved is a copy of one version. */
  lemma CheckedCopy(s: State, key: nat, expected: TidWord, buf: Value, ver: int)
    requires Inv(s) && CopyOk(s, key, expected, buf, ver) && |buf| == VAL_SIZE
    requires s.table[key].word == expected
    ensures s.table[key].ver == ver && buf == VersionVal(s.init, s.log, key, ver) && s.table[key].owner < 0
  {
    assert KeyOk(s, key);
    VersionWordOk(s.init, s.log, ver);
    SameVersionSame(s.init, s.log, key, ver, s.table[key].ver);
    if ver >= 0 { assert EntryOk(s.init, s.log, ver); }
  }

  lemma ReadCopySteps(s: State, w: nat)
    requires Inv(s) && InRange(s, w) && s.ws[w].pc.ReadCopy?
    ensures Inv(ReadCopyStep(s, w))
  {
    var wk := s.ws[w];
    var ReadCopy(key, expected, buf, ver) := wk.pc;
    assert WorkerOk(s, w) && CopyOk(s, key, expected, buf, ver);
    if |buf| < VAL_SIZE {
      ReadByteSteps(s, w);
    } else if s.table[key].word == expected {
      ReadDoneSteps(s, w);
    } else {
      ReadLoadedSteps(s, w, key);
    }
  }

  lemma ReadByteSteps(s: State, w: nat)
    requires Inv(s) && InRange(s, w) && s.ws[w].pc.ReadCopy? && |s.ws[w].pc.buf| < VAL_SIZE
    ensures Inv(ReadCopyStep(s, w))
  {
    var wk := s.ws[w];
    var ReadCopy(key, expected, buf, ver) := wk.pc;
    assert WorkerOk(s, w) && KeyOk(s, key) && CopyOk(s, key, expected, buf, ver);
    var wk' := ReadCopyStep(s, w).ws[w];
    var s' := Moved(s, w, wk', s.ge);
    LocalEvolves(s, w, wk', s.ge);
    OwnSets(s, s', w);
    assert CopyOk(s', key, expected, wk'.pc.buf, ver) by { CopyGrows(s, s', w, key, expected, buf, ver); }
    UnlockedStep(s, w, wk', s.ge);
  }

  lemma CopyGrows(s: State, s': State, w: nat, key: nat, expected: TidWord, buf: Value, ver: int)
    requires Inv(s) && CopyOk(s, key, expected, buf, ver) && |buf| < VAL_SIZE && |s.table[key].val| == VAL_SIZE
    requires Shape(s') && Evolves(s, s', w) && s'.table == s.table && s'.log == s.log && !s.ws[w].pc.Install?
    ensures CopyOk(s', key, expected, buf + [s.table[key].val[|buf|]], ver)
  {
    var t := s.table[key];
    assert KeyOk(s, key);
    var v := VersionVal(s.init, s.log, key, ver);
    if t.ver == ver && !Installing(s, t.owner, key) {
      assert t.val == v by {
        if t.owner >= 0 { HeldClean(s, key); }
      }
      assert buf + [v[|buf|]] == v[..|buf| + 1];
    } else if t.ver == ver {
      assert Installing(s', t.owner, key);
    }
  }

  /** A locked tuple shows its version in full until its holder starts installing. */
  lemma HeldClean(s: State, x: nat)
    requires Inv(s) && x < |s.table| && s.table[x].owner >= 0 && !Installing(s, s.table[x].owner, x)
    ensures s.table[x].val == VersionVal(s.init, s.log, x, s.table[x].ver)
  {
    assert KeyOk(s, x);
    var v := s.table[x].owner;
    assert WorkerOk(s, v);
    var i :| Lo(s.ws[v].pc) <= i < Hi(s.ws[v].pc, |s.ws[v].writeSet|) &&
             i < |s.ws[v].writeSet| && s.ws[v].writeSet[i] == x;
    assert HeldOk(s, v, i);
  }

  lemma ReadDoneSteps(s: State, w: nat)
    requires Inv(s) && InRange(s, w) && s.ws[w].pc.ReadCopy? && |s.ws[w].pc.buf| == VAL_SIZE
    requires s.table[s.ws[w].pc.rkey].word == s.ws[w].pc.expected
    ensures Inv(ReadCopyStep(s, w))
  {
    var wk := s.ws[w];
    var ReadCopy(key, expected, buf, ver) := wk.pc;
    assert WorkerOk(s, w) && CopyOk(s, key, expected, buf, ver);
    CheckedCopy(s, key, expected, buf, ver);
    var wk' := ReadCopyStep(s, w).ws[w];
    var s' := Moved(s, w, wk', s.ge);
    LocalEvolves(s, w, wk', s.ge);
    assert SetsOk(s', w) by {
      forall i | 0 <= i < |wk'.readSet| ensures ReadOk(s', wk'.readSet[i]) {
        if i < |wk.readSet| { ReadKept(s, s', w, wk.readSet[i]); }
      }
    }
    UnlockedStep(s, w, wk', s.ge);
  }

  // ---- lock and unlock ----------------------------------------------------------------------

  lemma LockTrySteps(s: State, w: nat)
    requires Inv(s) && InRange(s, w) && s.ws[w].pc.LockTry?
    ensures Inv(LockTryStep(s, w))
  {
    var wk := s.ws[w];
    var LockTry(k, expected) := wk.pc;
    assert WorkerOk(s, w);
    if expected.lock || s.table[wk.writeSet[k]].word != expected {
      LockedStep(s, w, LockTryStep(s, w).ws[w]);
    } else {
      LockTaken(s, w);
    }
  }

  /** A step that changes worker w and the one tuple x, which w holds before or after the step. */
  lemma TouchEvolves(s: State, w: nat, wk': Worker, x: nat, t': Tuple)
    requires Inv(s) && w < |s.ws| && x < |s.table|
    requires s.table[x].owner < 0 || s.table[x].owner == w
    requires s.table[x].ver <= t'.ver
    requires t'.ver == s.table[x].ver && t'.val != s.table[x].val ==> wk'.pc.Install? && t'.owner == w
    requires s.ws[w].pc.Install? ==> wk'.pc.Install? && (t'.ver > s.table[x].ver || t'.owner == w)
    ensures var s' := SetTuple(Put(s, w, wk'), x, t'); Shape(s') && Evolves(s, s', w)
  {
    var s' := SetTuple(Put(s, w, wk'), x, t');
    assert forall y :: 0 <= y < |s.table| ==> TupleEvolves(s, s', w, y);
  }

  /** A word found unlocked is held by nobody, and the CAS takes it for w alone. */
  lemma LockTaken(s: State, w: nat)
    requires Inv(s) && InRange(s, w) && s.ws[w].pc.LockTry?
    requires !s.ws[w].pc.expected.lock && s.table[s.ws[w].writeSet[s.ws[w].pc.k]].word == s.ws[w].pc.expected
    ensures Inv(LockTryStep(s, w))
  {
    var wk := s.ws[w];
    var x := wk.writeSet[wk.pc.k];
    assert WorkerOk(s, w) && KeyOk(s, x);
    var s' := LockTryStep(s, w);
    TouchEvolves(s, w, s'.ws[w], x, s'.table[x]);
    LockTakenWorker(s, w);
    LockTakenKeys(s, w);
    OwnEntriesSame(s, s', w);
    Assemble(s, s', w);
  }

  lemma LockTakenWorker(s: State, w: nat)
    requires Inv(s) && InRange(s, w) && s.ws[w].pc.LockTry?
    requires !s.ws[w].pc.expected.lock && s.table[s.ws[w].writeSet[s.ws[w].pc.k]].word == s.ws[w].pc.expected
    requires Shape(LockTryStep(s, w)) && Evolves(s, LockTryStep(s, w), w)
    ensures WorkerOk(LockTryStep(s, w), w)
  {
    var s' := LockTryStep(s, w);
    var k := s.ws[w].pc.k;
    assert WorkerOk(s, w);
    OwnSets(s, s', w);
    LockTakenWords(s, w);
    assert WordOk(s', s'.ws[w].maxR) && WordOk(s', s'.ws[w].maxW) && WordOk(s', s'.ws[w].last);
    forall i | 0 <= i < k + 1 ensures HeldOk(s', w, i) {
      LockTakenHeld(s, w, i);
    }
  }

  lemma LockTakenKeys(s: State, w: nat)
    requires Inv(s) && InRange(s, w) && s.ws[w].pc.LockTry?
    requires !s.ws[w].pc.expected.lock && s.table[s.ws[w].writeSet[s.ws[w].pc.k]].word == s.ws[w].pc.expected
    requires Shape(LockTryStep(s, w))
    ensures var s' := LockTryStep(s, w);
            forall y :: 0 <= y < |s.table| && (s.table[y].owner == w || s'.table[y] != s.table[y]) ==> KeyOk(s', y)
  {
    var s' := LockTryStep(s, w);
    var wk := s.ws[w];
    var k := wk.pc.k;
    var x := wk.writeSet[k];
    forall y | 0 <= y < |s.table| && (s.table[y].owner == w || y == x) ensures KeyOk(s', y) {
      assert KeyOk(s, y);
      if y == x { assert s'.ws[w].writeSet[k] == y; }
      else {
        var i :| 0 <= i < k && i < |wk.writeSet| && wk.writeSet[i] == y;
        assert s'.ws[w].writeSet[i] == y;
      }
    }
  }

  lemma LockTakenWords(s: State, w: nat)
    requires Inv(s) && InRange(s, w) && s.ws[w].pc.LockTry?
    requires !s.ws[w].pc.expected.lock && s.table[s.ws[w].writeSet[s.ws[w].pc.k]].word == s.ws[w].pc.expected
    ensures var e := s.ws[w].pc.expected; var m := Max(s.ws[w].maxW, e);
            WordOk(s, m) && !Before(m, e) && !Before(m, s.ws[w].maxW)
  {
    var wk := s.ws[w];
    var LockTry(k, expected) := wk.pc;
    var x := wk.writeSet[k];
    var ver := s.table[x].ver;
    assert WorkerOk(s, w) && KeyOk(s, x);
    VersionWordOk(s.init, s.log, ver);
    if ver >= 0 { assert EntryOk(s.init, s.log, ver); }
    MaxBounds(wk.maxW, expected);
  }

  lemma LockTakenHeld(s: State, w: nat, i: nat)
    requires Inv(s) && InRange(s, w) && s.ws[w].pc.LockTry? && i <= s.ws[w].pc.k
    requires !s.ws[w].pc.expected.lock && s.table[s.ws[w].writeSet[s.ws[w].pc.k]].word == s.ws[w].pc.expected
    requires Shape(LockTryStep(s, w))
    ensures HeldOk(LockTryStep(s, w), w, i)
  {
    var wk := s.ws[w];
    var k := wk.pc.k;
    assert WorkerOk(s, w) && KeyOk(s, wk.writeSet[k]);
    LockTakenWords(s, w);
    if i < k {
      assert HeldOk(s, w, i);
      assert wk.writeSet[i] < wk.writeSet[k];
    }
  }

  /** Releasing element k of [k, end) leaves the rest held. */
  lemma ReleaseHolds(wk: Worker, wk': Worker, k: nat)
    requires wk'.writeSet == wk.writeSet && k < |wk.writeSet|
    requires Lo(wk.pc) == k && Lo(wk'.pc) == k + 1
    requires Hi(wk.pc, |wk.writeSet|) == Hi(wk'.pc, |wk.writeSet|)
    ensures forall y :: Holds(wk, y) && y != wk.writeSet[k] ==> Holds(wk', y)
  {
    forall y | Holds(wk, y) && y != wk.writeSet[k] ensures Holds(wk', y) {
      var i :| Lo(wk.pc) <= i < Hi(wk.pc, |wk.writeSet|) && i < |wk.writeSet| && wk.writeSet[i] == y;
      assert i != k;
    }
  }

  lemma UnlockStoreSteps(s: State, w: nat)
    requires Inv(s) && InRange(s, w) && s.ws[w].pc.UnlockStore?
    ensures Inv(UnlockStoreStep(s, w))
  {
    var wk := s.ws[w];
    var k := wk.pc.k;
    var x := wk.writeSet[k];
    assert WorkerOk(s, w) && KeyOk(s, x) && HeldOk(s, w, k);
    var s' := UnlockStoreStep(s, w);
    TouchEvolves(s, w, s'.ws[w], x, s'.table[x]);
    UnlockStoreWorker(s, w);
    UnlockStoreKeys(s, w);
    OwnEntriesSame(s, s', w);
    Assemble(s, s', w);
  }

  lemma UnlockStoreWorker(s: State, w: nat)
    requires Inv(s) && InRange(s, w) && s.ws[w].pc.UnlockStore?
    requires Shape(UnlockStoreStep(s, w)) && Evolves(s, UnlockStoreStep(s, w), w)
    ensures WorkerOk(UnlockStoreStep(s, w), w)
  {
    var wk := s.ws[w];
    var s' := UnlockStoreStep(s, w);
    assert WorkerOk(s, w);
    OwnSets(s, s', w);
    assert WordOk(s', wk.maxR) && WordOk(s', wk.maxW) && WordOk(s', wk.last);
    forall i | wk.pc.k + 1 <= i < wk.pc.end ensures HeldOk(s', w, i) {
      assert HeldOk(s, w, i);
      assert wk.writeSet[wk.pc.k] < wk.writeSet[i];
    }
  }

  lemma UnlockStoreKeys(s: State, w: nat)
    requires Inv(s) && InRange(s, w) && s.ws[w].pc.UnlockStore?
    requires Shape(UnlockStoreStep(s, w))
    ensures forall y :: 0 <= y < |s.table| && s.table[y].owner == w ==> KeyOk(UnlockStoreStep(s, w), y)
  {
    var wk := s.ws[w];
    var k := wk.pc.k;
    var s' := UnlockStoreStep(s, w);
    assert WorkerOk(s, w) && HeldOk(s, w, k);
    VersionWordOk(s.init, s.log, s.table[wk.writeSet[k]].ver);
    ReleaseHolds(wk, s'.ws[w], k);
    forall y | 0 <= y < |s.table| && s.table[y].owner == w ensures KeyOk(s', y) {
      assert KeyOk(s, y);
    }
  }

  // ---- the serial point and validation ------------------------------------------------------

  lemma EpochLoadSteps(s: State, w: nat)
    requires Inv(s) && InRange(s, w) && s.ws[w].pc.EpochLoad?
    ensures Inv(EpochLoadStep(s, w))
  {
    var s' := EpochLoadStep(s, w);
    EpochLoadLocked(s, w);
    EpochLoadEvolves(s, w);
    assert LogOk(s'.init, s'.log) by { AppendLogOk(s, s', w); }
    assert WorkerOk(s', w) by { EpochLoadWorker(s, s', w); }
    EpochLoadKeys(s, w);
    EpochLoadEntries(s, w);
    Assemble(s, s', w);
  }

  lemma EpochLoadLocked(s: State, w: nat)
    requires Inv(s) && InRange(s, w) && s.ws[w].pc.EpochLoad?
    ensures forall x :: x in s.ws[w].writeSet ==>
              x < |s.table| && s.table[x].owner == w && LastWriter(s.log, |s.log|, x) == s.table[x].ver
  {
    var wk := s.ws[w];
    assert WorkerOk(s, w);
    forall x | x in wk.writeSet
      ensures x < |s.table| && s.table[x].owner == w && LastWriter(s.log, |s.log|, x) == s.table[x].ver
    {
      var i :| 0 <= i < |wk.writeSet| && wk.writeSet[i] == x;
      assert HeldOk(s, w, i);
    }
  }

  lemma EpochLoadEvolves(s: State, w: nat)
    requires Inv(s) && InRange(s, w) && s.ws[w].pc.EpochLoad?
    requires forall x :: x in s.ws[w].writeSet ==> x < |s.table| && s.table[x].owner == w
    ensures Shape(EpochLoadStep(s, w)) && Evolves(s, EpochLoadStep(s, w), w)
  {
    var s' := EpochLoadStep(s, w);
    assert LogEvolves(s.log, s'.log, w);
    assert forall y :: 0 <= y < |s.table| ==> TupleEvolves(s, s', w, y);
  }

  lemma EpochLoadKeys(s: State, w: nat)
    requires Inv(s) && InRange(s, w) && s.ws[w].pc.EpochLoad?
    requires Shape(EpochLoadStep(s, w)) && Evolves(s, EpochLoadStep(s, w), w)
    ensures forall x :: 0 <= x < |s.table| && s.table[x].owner == w ==> KeyOk(EpochLoadStep(s, w), x)
  {
    var s' := EpochLoadStep(s, w);
    forall x | 0 <= x < |s.table| && s.table[x].owner == w ensures KeyOk(s', x) {
      assert KeyOk(s, x);
      LogKeepsVersions(s.init, s.log, s'.log, w, x, s.table[x].ver);
      assert Holds(s.ws[w], x) ==> Holds(s'.ws[w], x);
    }
  }

  lemma EpochLoadEntries(s: State, w: nat)
    requires Inv(s) && InRange(s, w) && s.ws[w].pc.EpochLoad?
    ensures var s' := EpochLoadStep(s, w);
            forall j :: 0 <= j < |s'.log| && s'.log[j].worker == w ==> PendingOk(s', j) && TidsOk(s', j)
  {
    var s' := EpochLoadStep(s, w);
    forall j | 0 <= j < |s'.log| && s'.log[j].worker == w ensures PendingOk(s', j) && TidsOk(s', j) {
      if j < |s.log| { assert PendingOk(s, j) && TidsOk(s, j); }
    }
  }

  lemma AppendLogOk(s: State, s': State, w: nat)
    requires Inv(s) && InRange(s, w) && s.ws[w].pc.EpochLoad? && s' == EpochLoadStep(s, w)
    requires LogEvolves(s.log, s'.log, w)
    requires forall x :: x in s.ws[w].writeSet ==>
               x < |s.table| && s.table[x].owner == w && LastWriter(s.log, |s.log|, x) == s.table[x].ver
    ensures LogOk(s'.init, s'.log)
  {
    var n := |s.log|;
    forall j | 0 <= j < |s'.log| ensures EntryOk(s'.init, s'.log, j) {
      if j < n {
        EntryKept(s.init, s.log, s'.log, w, j);
      } else {
        forall x | x in s'.log[n].wset ensures WriteSerial(s'.log, n, x) {
          LastWriterPrefix(s.log, s'.log, n, x);
          assert KeyOk(s, x);
        }
      }
    }
  }

  lemma EpochLoadWorker(s: State, s': State, w: nat)
    requires Inv(s) && InRange(s, w) && s.ws[w].pc.EpochLoad? && s' == EpochLoadStep(s, w)
    requires Shape(s') && Evolves(s, s', w)
    ensures WorkerOk(s', w)
  {
    var wk := s.ws[w];
    assert WorkerOk(s, w);
    var n := |s.log|;
    forall i | 0 <= i < |wk.readSet| ensures ReadOk(s', wk.readSet[i]) && wk.readSet[i].ver < n {
      ReadKept(s, s', w, wk.readSet[i]);
      assert KeyOk(s, wk.readSet[i].key);
    }
    WordKept(s, s', w, wk.maxR);
    WordKept(s, s', w, wk.maxW);
    WordKept(s, s', w, wk.last);
    forall i | 0 <= i < |wk.writeSet| ensures HeldOk(s', w, i) {
      EpochLoadHeld(s, s', w, i);
    }
  }

  lemma EpochLoadHeld(s: State, s': State, w: nat, i: nat)
    requires Inv(s) && InRange(s, w) && s.ws[w].pc.EpochLoad? && s' == EpochLoadStep(s, w)
    requires Shape(s') && Evolves(s, s', w) && i < |s.ws[w].writeSet|
    ensures HeldOk(s', w, i)
  {
    var x := s.ws[w].writeSet[i];
    assert WorkerOk(s, w) && HeldOk(s, w, i) && KeyOk(s, x);
    LastWriterPrefix(s.log, s'.log, |s.log|, x);
    LogKeepsVersions(s.init, s.log, s'.log, w, x, s.table[x].ver);
  }

  /** A read that passes validation is the last write of its key before the serial point. */
  lemma ReadValidated(s: State, w: nat, r: ReadElement)
    requires Inv(s) && w < |s.ws| && s.ws[w].pc.Validate? && WorkerOk(s, w) && ReadOk(s, r)
    requires r.ver < s.ws[w].slot
    requires SameVersion(r.word, s.table[r.key].word)
    requires s.table[r.key].word.lock ==> r.key in s.ws[w].writeSet
    ensures r.ver == LastWriter(s.log, s.ws[w].slot, r.key) && r.ver == s.table[r.key].ver
  {
    var wk := s.ws[w];
    var t := s.table[r.key];
    assert KeyOk(s, r.key);
    SameVersionSame(s.init, s.log, r.key, r.ver, t.ver);
    if t.owner < 0 {
      LastWriterBetween(s.log, |s.log|, wk.slot, r.key);
    } else {
      var i :| 0 <= i < |wk.writeSet| && wk.writeSet[i] == r.key;
      assert HeldOk(s, w, i);
    }
  }

  lemma ValidateSteps(s: State, w: nat)
    requires Inv(s) && InRange(s, w) && s.ws[w].pc.Validate? && s.ws[w].slot < |s.log|
    ensures Inv(ValidateStep(s, w))
  {
    var wk := s.ws[w];
    var k := wk.pc.k;
    assert WorkerOk(s, w) && SlotOk(s, w);
    var s' := ValidateStep(s, w);
    if k == |wk.readSet| {
      forall i | 0 <= i < |wk.writeSet| ensures HeldOk(s', w, i) {
        assert HeldOk(s, w, i);
      }
      forall i | 0 <= i < |wk.readSet| ensures ReadDone(s', w, i) {
        assert ReadDone(s, w, i);
      }
      LocalStep(s, w, s'.ws[w], s.ge);
    } else {
      var r := wk.readSet[k];
      var check := s.table[r.key].word;
      if SameVersion(r.word, check) && (check.lock ==> r.key in wk.writeSet) {
        ValidatePasses(s, w);
      } else {
        ValidateFails(s, w);
      }
    }
  }

  lemma ValidatePasses(s: State, w: nat)
    requires Inv(s) && InRange(s, w) && s.ws[w].pc.Validate? && s.ws[w].slot < |s.log|
    requires s.ws[w].pc.k < |s.ws[w].readSet|
    requires var r := s.ws[w].readSet[s.ws[w].pc.k]; var check := s.table[r.key].word;
             SameVersion(r.word, check) && (check.lock ==> r.key in s.ws[w].writeSet)
    ensures Inv(ValidateStep(s, w))
  {
    var wk := s.ws[w];
    var r := wk.readSet[wk.pc.k];
    ReadPassed(s, w);
    LockedStep(s, w, wk.(pc := Validate(wk.pc.k + 1), maxR := Max(wk.maxR, s.table[r.key].word)));
  }

  lemma ReadPassed(s: State, w: nat)
    requires Inv(s) && InRange(s, w) && s.ws[w].pc.Validate? && s.ws[w].slot < |s.log|
    requires s.ws[w].pc.k < |s.ws[w].readSet|
    requires var r := s.ws[w].readSet[s.ws[w].pc.k]; var check := s.table[r.key].word;
             SameVersion(r.word, check) && (check.lock ==> r.key in s.ws[w].writeSet)
    ensures var wk := s.ws[w]; var m := Max(wk.maxR, s.table[wk.readSet[wk.pc.k].key].word);
            var s' := Put(s, w, wk.(pc := Validate(wk.pc.k + 1), maxR := m));
            WordOk(s, m) && Shape(s') && SlotOk(s', w)
  {
    var r := s.ws[w].readSet[s.ws[w].pc.k];
    assert WorkerOk(s, w) && SlotOk(s, w) && ReadOk(s, r);
    CheckBounds(s, w, r);
    ReadValidated(s, w, r);
    ValidatedSlot(s, w);
  }

  lemma ValidatedSlot(s: State, w: nat)
    requires Inv(s) && InRange(s, w) && s.ws[w].pc.Validate? && s.ws[w].slot < |s.log| && SlotOk(s, w)
    requires s.ws[w].pc.k < |s.ws[w].readSet|
    requires var wk := s.ws[w]; var r := wk.readSet[wk.pc.k]; var m := Max(wk.maxR, s.table[r.key].word);
             && r.ver == LastWriter(s.log, wk.slot, r.key) && m.epoch <= s.log[wk.slot].epoch
             && !Before(m, r.word) && !Before(m, wk.maxR)
    ensures var wk := s.ws[w];
            var check := s.table[wk.readSet[wk.pc.k].key].word;
            var s' := Put(s, w, wk.(pc := Validate(wk.pc.k + 1), maxR := Max(wk.maxR, check)));
            Shape(s') && SlotOk(s', w)
  {
    var wk := s.ws[w];
    var k := wk.pc.k;
    var s' := Put(s, w, wk.(pc := Validate(k + 1), maxR := Max(wk.maxR, s.table[wk.readSet[k].key].word)));
    forall i | 0 <= i < k + 1 ensures ReadDone(s', w, i) {
      if i < k { assert ReadDone(s, w, i); }
    }
  }

  /** The word seen by a successful check belongs to an epoch up to the loaded one. */
  lemma CheckBounds(s: State, w: nat, r: ReadElement)
    requires Inv(s) && w < |s.ws| && s.ws[w].pc.Validate? && WorkerOk(s, w) && ReadOk(s, r)
    requires r.ver < s.ws[w].slot < |s.log| && SameVersion(r.word, s.table[r.key].word)
    ensures var check := s.table[r.key].word; var m := Max(s.ws[w].maxR, check);
            && WordOk(s, m) && m.epoch <= s.log[s.ws[w].slot].epoch
            && !Before(m, r.word) && !Before(m, s.ws[w].maxR)
  {
    var wk := s.ws[w];
    var check := s.table[r.key].word;
    assert KeyOk(s, r.key) && SlotOk(s, w);
    VersionWordOk(s.init, s.log, r.ver);
    VersionWordOk(s.init, s.log, s.table[r.key].ver);
    assert EntryOk(s.init, s.log, wk.slot);
    if r.ver >= 0 { assert EntryOk(s.init, s.log, r.ver); }
    MaxBounds(wk.maxR, check);
  }

  lemma ValidateFails(s: State, w: nat)
    requires Inv(s) && InRange(s, w) && s.ws[w].pc.Validate? && s.ws[w].slot < |s.log|
    requires s.ws[w].pc.k < |s.ws[w].readSet|
    requires var r := s.ws[w].readSet[s.ws[w].pc.k]; var check := s.table[r.key].word;
             !SameVersion(r.word, check) || (check.lock && r.key !in s.ws[w].writeSet)
    ensures Inv(ValidateStep(s, w))
  {
    var s' := ValidateStep(s, w);
    SettleEvolves(s, s', w, Aborted);
    assert LogOk(s'.init, s'.log) by { AbortLogOk(s, s', w); }
    assert WorkerOk(s', w) by { AbortWorker(s, s', w); }
    SettleKeys(s, s', w);
    assert WorkerOk(s, w) && SlotOk(s, w);
    forall j | 0 <= j < |s'.log| && s'.log[j].worker == w ensures PendingOk(s', j) && TidsOk(s', j) {
      assert PendingOk(s, j) && TidsOk(s, j);
    }
    Assemble(s, s', w);
  }

  /** s' settles the pending entry of w and changes nothing else but w. */
  ghost predicate SettledTo(s: State, s': State, w: nat, st: Status) {
    && w < |s.ws| == |s'.ws| && PendingPc(s.ws[w].pc) && s.ws[w].slot < |s.log|
    && s' == s.(ws := s.ws[w := s'.ws[w]], log := s.log[s.ws[w].slot := s.log[s.ws[w].slot].(st := st)])
    && !st.Pending? && !s'.ws[w].pc.Install? && Lo(s'.ws[w].pc) == 0
    && Hi(s'.ws[w].pc, |s.ws[w].writeSet|) == |s.ws[w].writeSet|
    && s'.ws[w].writeSet == s.ws[w].writeSet && s'.ws[w].readSet == s.ws[w].readSet
  }

  lemma SettleEvolves(s: State, s': State, w: nat, st: Status)
    requires Inv(s) && SettledTo(s, s', w, st)
    ensures Shape(s') && Evolves(s, s', w)
  {
    assert WorkerOk(s, w) && SlotOk(s, w);
    assert forall j :: 0 <= j < |s.log| ==> Settles(s.log[j], s'.log[j], w);
    assert forall y :: 0 <= y < |s.table| ==> TupleEvolves(s, s', w, y);
  }

  lemma SettleKeys(s: State, s': State, w: nat)
    requires Inv(s) && Shape(s') && Evolves(s, s', w) && s'.table == s.table
    requires PendingPc(s.ws[w].pc) && Lo(s'.ws[w].pc) == 0 && s'.ws[w].writeSet == s.ws[w].writeSet
    requires Hi(s'.ws[w].pc, |s.ws[w].writeSet|) == |s.ws[w].writeSet|
    ensures forall x :: 0 <= x < |s.table| && s.table[x].owner == w ==> KeyOk(s', x)
  {
    forall x | 0 <= x < |s.table| && s.table[x].owner == w ensures KeyOk(s', x) {
      assert KeyOk(s, x);
      LogKeepsVersions(s.init, s.log, s'.log, w, x, s.table[x].ver);
      assert Holds(s.ws[w], x) ==> Holds(s'.ws[w], x);
    }
  }

  lemma AbortLogOk(s: State, s': State, w: nat)
    requires Inv(s) && SettledTo(s, s', w, Aborted) && Evolves(s, s', w)
    ensures LogOk(s'.init, s'.log)
  {
    var p := s.ws[w].slot;
    forall j | 0 <= j < |s'.log| ensures EntryOk(s'.init, s'.log, j) {
      if j == p { assert EntryOk(s.init, s.log, p); } else { EntryKept(s.init, s.log, s'.log, w, j); }
    }
  }

  lemma AbortWorker(s: State, s': State, w: nat)
    requires Inv(s) && SettledTo(s, s', w, Aborted) && Shape(s') && Evolves(s, s', w)
    requires s'.ws[w] == s.ws[w].(pc := UnlockLoad(0, |s.ws[w].writeSet|))
    ensures WorkerOk(s', w)
  {
    var wk := s.ws[w];
    assert WorkerOk(s, w) && SlotOk(s, w);
    OwnSets(s, s', w);
    WordKept(s, s', w, wk.maxR);
    WordKept(s, s', w, wk.maxW);
    WordKept(s, s', w, wk.last);
    forall i | 0 <= i < |wk.writeSet| ensures HeldOk(s', w, i) {
      AbortHeld(s, s', w, i);
    }
  }

  lemma AbortHeld(s: State, s': State, w: nat, i: nat)
    requires Inv(s) && SettledTo(s, s', w, Aborted) && Shape(s') && Evolves(s, s', w)
    requires s'.ws[w] == s.ws[w].(pc := UnlockLoad(0, |s.ws[w].writeSet|)) && i < |s.ws[w].writeSet|
    ensures s'.ws[w].writeSet[i] < |s'.table| && HeldOk(s', w, i)
  {
    var wk := s.ws[w];
    var x := wk.writeSet[i];
    assert WorkerOk(s, w) && SlotOk(s, w) && HeldOk(s, w, i) && KeyOk(s, x);
    LastWriterAbort(s.log, wk.slot, |s.log|, x);
    LogKeepsVersions(s.init, s.log, s'.log, w, x, s.table[x].ver);
  }

  // ---- the commit TID -----------------------------------------------------------------------

  /** The commit TID lies in the loaded epoch and above everything read, overwritten or issued before;
      it stays within the number of commits of its epoch, so the 29-bit field does not wrap. */
  lemma CommitTidAbove(s: State, w: nat)
    requires Inv(s) && w < |s.ws| && s.ws[w].pc.WriteTid? && WorkerOk(s, w)
    requires Bounded(s) && Commits(s.log, s.ws[w].localEpoch) + 1 < TID_LIMIT
    ensures var wk := s.ws[w]; var c := CommitTid(wk.maxW, wk.maxR, wk.last, wk.localEpoch);
            && c.Valid() && c.epoch == wk.localEpoch && c.latest && !c.lock
            && Before(wk.maxW, c) && Before(wk.maxR, c) && Before(wk.last, c)
            && c.tid <= Commits(s.log, c.epoch) + 1
  {
    var wk := s.ws[w];
    assert SlotOk(s, w);
    CommitTidEpoch(wk.maxW, wk.maxR, wk.last, wk.localEpoch);
    CommitTidExceedsIff(wk.maxW, wk.maxR, wk.last, wk.localEpoch);
    CommitTidTight(wk.maxW, wk.maxR, wk.last, wk.localEpoch, Commits(s.log, wk.localEpoch));
  }

  lemma WriteTidSteps(s: State, w: nat)
    requires Inv(s) && InRange(s, w) && s.ws[w].pc.WriteTid? && Bounded(s) && Bounded(WriteTidStep(s, w))
    ensures Inv(WriteTidStep(s, w))
  {
    var wk := s.ws[w];
    var s' := WriteTidStep(s, w);
    var c := s'.ws[w].last;
    assert WorkerOk(s, w) && SlotOk(s, w);
    CommitsSettle(s.log, wk.slot, Committed(c), wk.localEpoch);
    CommitTidAbove(s, w);
    SettleEvolves(s, s', w, Committed(c));
    assert LogOk(s'.init, s'.log) by { WriteTidLogOk(s, s', w); }
    assert WorkerOk(s', w) by { WriteTidWorker(s, s', w); }
    SettleKeys(s, s', w);
    WriteTidEntries(s, s', w);
    Assemble(s, s', w);
  }

  lemma WriteTidEntries(s: State, s': State, w: nat)
    requires Inv(s) && InRange(s, w) && s.ws[w].pc.WriteTid? && s' == WriteTidStep(s, w)
    requires WorkerOk(s, w) && SlotOk(s, w) && Before(s.ws[w].last, s'.ws[w].last)
    ensures forall j :: 0 <= j < |s'.log| && s'.log[j].worker == w ==> PendingOk(s', j) && TidsOk(s', j)
  {
    forall j | 0 <= j < |s'.log| && s'.log[j].worker == w ensures PendingOk(s', j) && TidsOk(s', j) {
      assert PendingOk(s, j) && TidsOk(s, j);
      if j == s.ws[w].slot {
        forall i | 0 <= i < j && s'.log[i].worker == w && s'.log[i].st.Committed?
          ensures Before(s'.log[i].st.ctid, s'.ws[w].last)
        {
          assert TidsOk(s, i);
        }
      }
    }
  }

  lemma WriteTidLogOk(s: State, s': State, w: nat)
    requires Inv(s) && InRange(s, w) && s.ws[w].pc.WriteTid? && s' == WriteTidStep(s, w)
    requires WorkerOk(s, w) && SlotOk(s, w) && LogEvolves(s.log, s'.log, w)
    requires var wk := s.ws[w]; var c := s'.ws[w].last;
             && c.Valid() && c.epoch == wk.localEpoch && c.latest && !c.lock
             && Before(wk.maxW, c) && Before(wk.maxR, c)
             && c.tid <= Commits(s'.log, c.epoch)
    ensures LogOk(s'.init, s'.log)
  {
    var p := s.ws[w].slot;
    forall j | 0 <= j < |s'.log| ensures EntryOk(s'.init, s'.log, j) {
      if j != p {
        EntryKept(s.init, s.log, s'.log, w, j);
      } else {
        WriteTidEntry(s, s', w);
      }
    }
  }

  /** The entry that commits: it overwrites earlier words, and its reads were validated. */
  lemma WriteTidEntry(s: State, s': State, w: nat)
    requires Inv(s) && InRange(s, w) && s.ws[w].pc.WriteTid? && s' == WriteTidStep(s, w)
    requires WorkerOk(s, w) && SlotOk(s, w) && LogEvolves(s.log, s'.log, w)
    requires var wk := s.ws[w]; var c := s'.ws[w].last;
             && c.Valid() && c.epoch == wk.localEpoch && c.latest && !c.lock
             && Before(wk.maxW, c) && Before(wk.maxR, c)
             && c.tid <= Commits(s'.log, c.epoch)
    ensures EntryOk(s'.init, s'.log, s.ws[w].slot)
  {
    var wk := s.ws[w];
    var p := wk.slot;
    assert EntryOk(s.init, s.log, p);
    forall x | x in wk.writeSet ensures WriteSerial(s'.log, p, x) {
      WriteTidOverwrites(s, s', w, x);
    }
    forall i | 0 <= i < |wk.readSet|
      ensures ReadSerial(s'.init, s'.log, p, wk.readSet[i]) && Before(wk.readSet[i].word, s'.ws[w].last)
    {
      var r := wk.readSet[i];
      assert ReadOk(s, r) && ReadDone(s, w, i);
      LogKeepsLastWriter(s.log, s'.log, w, p, r.key);
      LogKeepsVersions(s.init, s.log, s'.log, w, r.key, r.ver);
    }
  }

  lemma WriteTidOverwrites(s: State, s': State, w: nat, x: nat)
    requires Inv(s) && InRange(s, w) && s.ws[w].pc.WriteTid? && s' == WriteTidStep(s, w)
    requires WorkerOk(s, w) && SlotOk(s, w) && LogEvolves(s.log, s'.log, w)
    requires Before(s.ws[w].maxW, s'.ws[w].last) && x in s.ws[w].writeSet
    ensures WriteSerial(s'.log, s.ws[w].slot, x)
  {
    var wk := s.ws[w];
    assert EntryOk(s.init, s.log, wk.slot) && WriteSerial(s.log, wk.slot, x);
    var i :| 0 <= i < |wk.writeSet| && wk.writeSet[i] == x;
    assert HeldOk(s, w, i) && KeyOk(s, x);
    LogKeepsLastWriter(s.log, s'.log, w, wk.slot, x);
    LogKeepsVersions(s.init, s.log, s'.log, w, x, LastWriter(s.log, wk.slot, x));
  }

  lemma WriteTidWorker(s: State, s': State, w: nat)
    requires Inv(s) && InRange(s, w) && s.ws[w].pc.WriteTid? && s' == WriteTidStep(s, w)
    requires Shape(s') && Evolves(s, s', w) && WorkerOk(s, w) && SlotOk(s, w)
    requires var wk := s.ws[w]; var c := s'.ws[w].last;
             c.Valid() && c.epoch == wk.localEpoch && c.tid <= Commits(s'.log, c.epoch)
    ensures WorkerOk(s', w)
  {
    var wk := s.ws[w];
    OwnSets(s, s', w);
    WordKept(s, s', w, wk.maxR);
    WordKept(s, s', w, wk.maxW);
    assert WordOk(s', s'.ws[w].last) && SlotOk(s', w);
    forall i | 0 <= i < |wk.writeSet| ensures HeldOk(s', w, i) {
      WriteTidHeld(s, s', w, i);
    }
  }

  lemma WriteTidHeld(s: State, s': State, w: nat, i: nat)
    requires Inv(s) && InRange(s, w) && s.ws[w].pc.WriteTid? && s' == WriteTidStep(s, w)
    requires Shape(s') && Evolves(s, s', w) && i < |s.ws[w].writeSet|
    ensures HeldOk(s', w, i)
  {
    var wk := s.ws[w];
    var x := wk.writeSet[i];
    assert WorkerOk(s, w) && HeldOk(s, w, i) && KeyOk(s, x);
    LastWriterPrefix(s.log, s'.log, |s.log|, x);
    LastWriterPrefix(s.log, s'.log, wk.slot, x);
    LogKeepsVersions(s.init, s.log, s'.log, w, x, s.table[x].ver);
  }

  // ---- installing ---------------------------------------------------------------------------

  lemma InstallSteps(s: State, w: nat)
    requires Inv(s) && InRange(s, w) && s.ws[w].pc.Install?
    ensures Inv(InstallStep(s, w))
  {
    var wk := s.ws[w];
    var Install(k, b) := wk.pc;
    assert WorkerOk(s, w) && SlotOk(s, w);
    if k == |wk.writeSet| {
      LocalStep(s, w, InstallStep(s, w).ws[w], s.ge);
    } else if b < VAL_SIZE {
      InstallByte(s, w);
    } else {
      InstallWord(s, w);
    }
  }

  lemma InstallByte(s: State, w: nat)
    requires Inv(s) && InRange(s, w) && s.ws[w].pc.Install?
    requires s.ws[w].pc.k < |s.ws[w].writeSet| && s.ws[w].pc.b < VAL_SIZE
    ensures Inv(InstallStep(s, w))
  {
    var wk := s.ws[w];
    var x := wk.writeSet[wk.pc.k];
    assert WorkerOk(s, w) && HeldOk(s, w, wk.pc.k) && KeyOk(s, x);
    var s' := InstallStep(s, w);
    TouchEvolves(s, w, s'.ws[w], x, s'.table[x]);
    InstallWorker(s, w);
    InstallByteKeys(s, w);
    OwnEntriesSame(s, s', w);
    Assemble(s, s', w);
  }

  lemma InstallByteKeys(s: State, w: nat)
    requires Inv(s) && InRange(s, w) && s.ws[w].pc.Install?
    requires s.ws[w].pc.k < |s.ws[w].writeSet| && s.ws[w].pc.b < VAL_SIZE
    requires Shape(InstallStep(s, w))
    ensures forall y :: 0 <= y < |s.table| && s.table[y].owner == w ==> KeyOk(InstallStep(s, w), y)
  {
    var s' := InstallStep(s, w);
    forall y | 0 <= y < |s.table| && s.table[y].owner == w ensures KeyOk(s', y) {
      assert KeyOk(s, y);
      assert Holds(s.ws[w], y) ==> Holds(s'.ws[w], y);
    }
  }

  lemma InstallWord(s: State, w: nat)
    requires Inv(s) && InRange(s, w) && s.ws[w].pc.Install?
    requires s.ws[w].pc.k < |s.ws[w].writeSet| && s.ws[w].pc.b >= VAL_SIZE
    ensures Inv(InstallStep(s, w))
  {
    var wk := s.ws[w];
    var x := wk.writeSet[wk.pc.k];
    assert WorkerOk(s, w) && SlotOk(s, w) && HeldOk(s, w, wk.pc.k) && KeyOk(s, x);
    var s' := InstallStep(s, w);
    TouchEvolves(s, w, s'.ws[w], x, s'.table[x]);
    InstallWorker(s, w);
    InstallWordKeys(s, w);
    OwnEntriesSame(s, s', w);
    Assemble(s, s', w);
  }

  lemma InstallWordKeys(s: State, w: nat)
    requires Inv(s) && InRange(s, w) && s.ws[w].pc.Install?
    requires s.ws[w].pc.k < |s.ws[w].writeSet| && s.ws[w].pc.b >= VAL_SIZE
    requires Shape(InstallStep(s, w))
    ensures forall y :: 0 <= y < |s.table| && s.table[y].owner == w ==> KeyOk(InstallStep(s, w), y)
  {
    var wk := s.ws[w];
    var s' := InstallStep(s, w);
    assert WorkerOk(s, w) && SlotOk(s, w) && HeldOk(s, w, wk.pc.k);
    assert s.table[wk.writeSet[wk.pc.k]].val == s.wvals[w];
    assert EntryOk(s.init, s.log, wk.slot);
    ReleaseHolds(wk, s'.ws[w], wk.pc.k);
    forall y | 0 <= y < |s.table| && s.table[y].owner == w ensures KeyOk(s', y) {
      assert KeyOk(s, y);
    }
  }

  /** Worker w after copying a byte or storing a word. */
  lemma InstallWorker(s: State, w: nat)
    requires Inv(s) && InRange(s, w) && s.ws[w].pc.Install? && s.ws[w].pc.k < |s.ws[w].writeSet|
    requires Shape(InstallStep(s, w)) && Evolves(s, InstallStep(s, w), w)
    ensures WorkerOk(InstallStep(s, w), w)
  {
    var wk := s.ws[w];
    var s' := InstallStep(s, w);
    var wk' := s'.ws[w];
    assert WorkerOk(s, w) && SlotOk(s, w);
    OwnSets(s, s', w);
    WordKept(s, s', w, wk.maxR);
    WordKept(s, s', w, wk.maxW);
    WordKept(s, s', w, wk.last);
    forall i | Lo(wk'.pc) <= i < |wk.writeSet| ensures HeldOk(s', w, i) {
      InstallHeld(s, w, i);
    }
    InstallSlot(s, s', w);
  }

  lemma InstallSlot(s: State, s': State, w: nat)
    requires Shape(s) && Shape(s') && w < |s.ws| == |s'.ws| && s.ws[w].pc.Install? && SlotOk(s, w)
    requires s'.log == s.log && s'.wvals == s.wvals && s'.ws[w] == s.ws[w].(pc := s'.ws[w].pc) && s'.ws[w].pc.Install?
    ensures SlotOk(s', w)
  {
  }

  lemma InstallHeld(s: State, w: nat, i: nat)
    requires Inv(s) && InRange(s, w) && s.ws[w].pc.Install? && s.ws[w].pc.k < |s.ws[w].writeSet|
    requires Shape(InstallStep(s, w)) && i < |s.ws[w].writeSet| && Lo(InstallStep(s, w).ws[w].pc) <= i
    requires s.ws[w].slot <= |s.log|
    ensures HeldOk(InstallStep(s, w), w, i)
  {
    var wk := s.ws[w];
    var k := wk.pc.k;
    assert WorkerOk(s, w) && HeldOk(s, w, i);
    if i > k {
      assert wk.writeSet[k] < wk.writeSet[i];
      assert KeyOk(s, wk.writeSet[i]);
      OtherHeld(s, InstallStep(s, w), w, i);
    } else {
      ByteHeld(s, w);
    }
  }

  /** Installing one element leaves the later ones as they were. */
  lemma OtherHeld(s: State, s': State, w: nat, i: nat)
    requires Shape(s) && Shape(s') && w < |s.ws| == |s'.ws| && s.ws[w].pc.Install? && s.ws[w].slot <= |s.log|
    requires s'.log == s.log && s'.wvals == s.wvals && s'.init == s.init
    requires s'.ws[w] == s.ws[w].(pc := s'.ws[w].pc) && s'.ws[w].pc.Install?
    requires i < |s.ws[w].writeSet| && s.ws[w].writeSet[i] < |s.table| == |s'.table|
    requires s'.table[s.ws[w].writeSet[i]] == s.table[s.ws[w].writeSet[i]]
    requires s.ws[w].pc.k < i && (s'.ws[w].pc.k < i || s'.ws[w].pc.b == 0)
    requires |s.table[s.ws[w].writeSet[i]].val| == VAL_SIZE
    requires HeldOk(s, w, i)
    ensures HeldOk(s', w, i)
  {
  }

  lemma ByteHeld(s: State, w: nat)
    requires Shape(s) && InRange(s, w) && s.ws[w].pc.Install?
    requires s.ws[w].pc.k < |s.ws[w].writeSet| && s.ws[w].pc.b < VAL_SIZE
    requires s.ws[w].slot <= |s.log| && Shape(InstallStep(s, w)) && HeldOk(s, w, s.ws[w].pc.k)
    ensures HeldOk(InstallStep(s, w), w, s.ws[w].pc.k)
  {
  }

  // ---- all steps ----------------------------------------------------------------------------

  lemma InitInv(init: seq<Value>, wvals: seq<Value>)
    requires ValidConfig(init, wvals)
    ensures Inv(InitState(init, wvals))
  {
  }

  lemma NextKeepsInv(s: State, w: nat)
    requires Inv(s) && Enabled(s, w, Next) && Bounded(s) && Bounded(NextStep(s, w))
    ensures Inv(NextStep(s, w))
  {
    match s.ws[w].pc {
      case ReadLoad(key) => ReadLoadedSteps(s, w, key);
      case ReadCopy(_, _, _, _) => ReadCopySteps(s, w);
      case LockLoad(_) => LockLoadSteps(s, w);
      case LockTry(_, _) => LockTrySteps(s, w);
      case UnlockLoad(_, _) => UnlockLoadSteps(s, w);
      case UnlockStore(_, _, _) => UnlockStoreSteps(s, w);
      case EpochLoad => EpochLoadSteps(s, w);
      case EpochStore(_) => EpochStoreSteps(s, w);
      case Validate(_) => ValidateSteps(s, w);
      case WriteTid => WriteTidSteps(s, w);
      case Install(_, _) => InstallSteps(s, w);
      case EwStore(_) => EwStoreSteps(s, w);
      case Scan(_, _) => ScanSteps(s, w);
    }
  }

  /** Every step of every worker keeps the invariant. */
  lemma StepKeepsInv(s: State, w: nat, a: Action)
    requires Inv(s) && Enabled(s, w, a) && Bounded(s) && Bounded(Apply(s, w, a))
    ensures Inv(Apply(s, w, a))
  {
    match a {
      case Begin => BeginStep(s, w);
      case Read(key) => ReadStep(s, w, key);
      case Write(key) => WriteStep(s, w, key);
      case Commit => CommitStep(s, w);
      case Next => NextKeepsInv(s, w);
      case LogDone => LogDoneStep(s, w);
      case EpochWork => IdleSteps(s, w, Apply(s, w, a).ws[w]);
      case LeaderWork => IdleSteps(s, w, Apply(s, w, a).ws[w]);
      case Quit => IdleSteps(s, w, Apply(s, w, a).ws[w]);
    }
  }
}
